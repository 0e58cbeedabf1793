/** The Anthropic Messages API adapter (`call_anthropic_api`): the system
    prompt as a top-level field, one user message, and the `content[0].text`
    reply. */
module AnthropicApi {
  import opened Wrappers
  import opened Text
  import opened JsonValue
  import opened UnifiedRequest
  import opened Http

  const Endpoint: string := "https://api.anthropic.com/v1/messages"

  const Provider: string := "Anthropic"

  const ApiVersion: string := "2023-06-01"

  const MaxTokens: int := 4096

  /** The key goes in its own header rather than as a bearer token. */
  function Headers(apiKey: string): seq<(string, string)> {
    [("x-api-key", apiKey), ("anthropic-version", ApiVersion), ("Content-Type", "application/json")]
  }

  function Body(request: LlmRequest, model: string): Json {
    Obj([Member("model", Str(model)),
         Member("system", Str(request.systemPrompt)),
         Member("messages", Arr([RoleMessage("user", request.userContent)])),
         Member("max_tokens", Int(MaxTokens))])
  }

  function RequestFor(request: LlmRequest, apiKey: string, model: string): HttpRequest {
    HttpRequest(Endpoint, Headers(apiKey), Body(request, model))
  }

  /** Reads the request and model back from a body, as the provider would. */
  function DecodeBody(body: Json): Option<(LlmRequest, string)> {
    var model := AsText(Get(body, "model"));
    var system := AsText(Get(body, "system"));
    var messages := Get(body, "messages");
    if model.None? || system.None? || messages.None? || !messages.value.Arr? || |messages.value.items| != 1 then None
    else if Get(body, "max_tokens") != Some(Int(MaxTokens)) then None
    else if ContentOf(messages.value.items[0], "user").None? then None
    else Some((LlmRequest(system.value, ContentOf(messages.value.items[0], "user").value), model.value))
  }

  lemma BodyFields(request: LlmRequest, model: string)
    ensures Get(Body(request, model), "model") == Some(Str(model))
    ensures Get(Body(request, model), "system") == Some(Str(request.systemPrompt))
    ensures Get(Body(request, model), "messages") == Some(Arr([RoleMessage("user", request.userContent)]))
    ensures Get(Body(request, model), "max_tokens") == Some(Int(MaxTokens))
  {
    var body := Body(request, model);
    LookupFirst(body.members, 0, "model");
    LookupFirst(body.members, 1, "system");
    LookupFirst(body.members, 2, "messages");
    LookupFirst(body.members, 3, "max_tokens");
  }

  /** The body carries the whole request and the model. */
  lemma BodyRoundTrip(request: LlmRequest, model: string)
    ensures DecodeBody(Body(request, model)) == Some((request, model))
  {
    BodyFields(request, model);
    RoleMessageContent("user", request.userContent);
    var body := Body(request, model);
    assert AsText(Get(body, "model")) == Some(model);
    assert AsText(Get(body, "system")) == Some(request.systemPrompt);
  }

  /** The Messages API reply shape: `content[0].text`. */
  function ExtractText(response: Json): Option<string> {
    AsText(Field(First(Get(response, "content")), "text"))
  }

  /** A minimal Messages API reply carrying `text`. */
  function MessagesReply(text: string): Json {
    Obj([Member("content", Arr([Obj([Member("type", Str("text")), Member("text", Str(text))])]))])
  }

  lemma MessagesRoundTrip(text: string)
    ensures ExtractText(MessagesReply(text)) == Some(text)
  {
    var item := Obj([Member("type", Str("text")), Member("text", Str(text))]);
    LookupFirst(item.members, 1, "text");
  }

  /** `call_anthropic_api` once the reply is in. */
  function Complete(outcome: HttpOutcome): Result<string> {
    match ReadReply(outcome)
    case Failed(message) => Err(message)
    case Rejected(statusLine, errorText) => Err(StatusMessage(Provider, statusLine, errorText))
    case Accepted(response) =>
      var text := ExtractText(response);
      if text.Some? then Ok(text.value) else Err(UnexpectedFormat(response))
  }

  /** A non-2xx reply is an error that names the provider and quotes the body. */
  lemma RejectionQuotesBody(outcome: HttpOutcome)
    requires outcome.Responded? && !IsSuccess(outcome.status) && outcome.text.Some?
    ensures Complete(outcome).Err?
    ensures StartsWith(Complete(outcome).error, Provider + " API error")
    ensures Contains(Complete(outcome).error, outcome.text.value)
  {
    StatusMessageQuotesBody(Provider, outcome.statusLine, outcome.text.value);
  }

  /** A 2xx reply not in the expected shape is an error embedding the reply. */
  lemma UnrecognisedReplyReported(status: int, statusLine: string, body: Option<string>, response: Json)
    requires IsSuccess(status) && ExtractText(response).None?
    ensures Complete(Responded(status, statusLine, body, Ok(response))).Err?
    ensures Contains(Complete(Responded(status, statusLine, body, Ok(response))).error, Render(response))
  {
    UnexpectedFormatQuotesReply(response);
  }

  /** Whatever else a 2xx reply holds, the text at `content[0].text` is
      delivered unchanged. */
  lemma DeliversReadText(status: int, statusLine: string, body: Option<string>, response: Json, text: string)
    requires IsSuccess(status) && ExtractText(response) == Some(text)
    ensures Complete(Responded(status, statusLine, body, Ok(response))) == Ok(text)
  {
  }

  /** A 2xx Messages API reply's text is delivered unchanged. */
  lemma DeliversText(status: int, statusLine: string, body: Option<string>, text: string)
    requires IsSuccess(status)
    ensures Complete(Responded(status, statusLine, body, Ok(MessagesReply(text)))) == Ok(text)
  {
    MessagesRoundTrip(text);
  }
}
