/** What the three REST adapters share: the request they hand to the HTTP
    layer, what that layer reports back, and the reading of a reply that
    precedes each adapter's own response extraction. The HTTP exchange
    itself (runtime, connection, body decoding) is outside the model. */
module Http {
  import opened Wrappers
  import opened Text
  import opened JsonValue

  /** A JSON `POST`: endpoint, headers in the order they are set, body. */
  datatype HttpRequest = HttpRequest(url: string, headers: seq<(string, string)>, body: Json)

  /** What one attempt produced. `text` is the body read as text (`None` if
      reading failed) and `parsed` the body parsed as JSON; the adapter reads
      the first on a non-2xx status and the second otherwise. */
  datatype HttpOutcome =
    | RuntimeFailed(cause: string)
    | SendFailed(cause: string)
    | Responded(status: int, statusLine: string, text: Option<string>, parsed: Result<Json>)

  /** `StatusCode::is_success`: 200 to 299. */
  predicate IsSuccess(status: int) {
    200 <= status <= 299
  }

  /** A reply as every adapter first classifies it. */
  datatype Reply =
    | Failed(message: string)
    | Rejected(statusLine: string, errorText: string)
    | Accepted(json: Json)

  /** Stands in for a body that could not be read as text. */
  const UnknownError: string := "Unknown error"

  /** The steps common to the three adapters: runtime and transport errors,
      a non-2xx status with the body text, or the parsed JSON of a 2xx. */
  function ReadReply(outcome: HttpOutcome): (r: Reply)
    ensures r.Rejected? <==> outcome.Responded? && !IsSuccess(outcome.status)
    ensures r.Rejected? ==> r.statusLine == outcome.statusLine
    ensures r.Rejected? && outcome.text.Some? ==> r.errorText == outcome.text.value
    ensures r.Accepted? <==> outcome.Responded? && IsSuccess(outcome.status) && outcome.parsed.Ok?
    ensures r.Accepted? ==> r.json == outcome.parsed.value
    ensures r.Rejected? && outcome.text.None? ==> r.errorText == UnknownError
    ensures outcome.RuntimeFailed? ==>
      r.Failed? && StartsWith(r.message, "Failed to create runtime") && EndsWith(r.message, outcome.cause)
    ensures outcome.SendFailed? ==>
      r.Failed? && StartsWith(r.message, "HTTP request failed") && EndsWith(r.message, outcome.cause)
    ensures outcome.Responded? && IsSuccess(outcome.status) && outcome.parsed.Err? ==>
      r.Failed? && StartsWith(r.message, "Failed to parse response") && EndsWith(r.message, outcome.parsed.error)
  {
    match outcome
    case RuntimeFailed(cause) => Failed("Failed to create runtime: " + cause)
    case SendFailed(cause) => Failed("HTTP request failed: " + cause)
    case Responded(status, statusLine, text, parsed) =>
      if !IsSuccess(status) then Rejected(statusLine, if text.Some? then text.value else UnknownError)
      else if parsed.Err? then Failed("Failed to parse response: " + parsed.error)
      else Accepted(parsed.value)
  }

  /** The error for a non-2xx status, as the provider named reports it. */
  function StatusMessage(provider: string, statusLine: string, errorText: string): string {
    provider + " API error (" + statusLine + "): " + errorText
  }

  /** The status error names the provider and quotes the response body. */
  lemma StatusMessageQuotesBody(provider: string, statusLine: string, errorText: string)
    ensures StartsWith(StatusMessage(provider, statusLine, errorText), provider + " API error")
    ensures Contains(StatusMessage(provider, statusLine, errorText), errorText)
  {
    var head := provider + " API error";
    var front := provider + " API error (" + statusLine + "): ";
    assert front[..|head|] == head;
    StartsWithExtend(front, errorText, head);
    ContainsSelf(errorText);
    ContainsExtendLeft(front, errorText, errorText);
  }

  /** The error for a 2xx reply whose JSON has none of the expected shapes. */
  function UnexpectedFormat(response: Json): string {
    "Unexpected response format. Response: " + Render(response)
  }

  /** The unexpected-format error embeds the whole reply. */
  lemma UnexpectedFormatQuotesReply(response: Json)
    ensures StartsWith(UnexpectedFormat(response), "Unexpected response format")
    ensures Contains(UnexpectedFormat(response), Render(response))
  {
    var front := "Unexpected response format. Response: ";
    assert front[..|"Unexpected response format"|] == "Unexpected response format";
    StartsWithExtend(front, Render(response), "Unexpected response format");
    ContainsSelf(Render(response));
    ContainsExtendLeft(front, Render(response), Render(response));
  }

  /** Headers of the two endpoints that authenticate with a bearer token. */
  function BearerHeaders(apiKey: string): seq<(string, string)> {
    [("Authorization", "Bearer " + apiKey), ("Content-Type", "application/json")]
  }

  /** The chat-completions reply shape: `choices[0].message.content`. */
  function ChatCompletionText(response: Json): Option<string> {
    AsText(Field(Field(First(Get(response, "choices")), "message"), "content"))
  }

  /** A minimal chat-completions reply carrying `text`. */
  function ChatCompletionReply(text: string): Json {
    Obj([Member("choices", Arr([Obj([Member("index", Int(0)), Member("message", RoleMessage("assistant", text))])]))])
  }

  /** The chat-completions reader finds the text in that reply. */
  lemma ChatCompletionRoundTrip(text: string)
    ensures ChatCompletionText(ChatCompletionReply(text)) == Some(text)
  {
    var message := RoleMessage("assistant", text);
    var choice := Obj([Member("index", Int(0)), Member("message", message)]);
    LookupFirst(choice.members, 1, "message");
    LookupFirst(message.members, 1, "content");
  }
}
