/** The OpenAI adapter (`call_openai_api`): a chat-completions request with a
    system and a user message, and the `choices[0].message.content` reply. */
module OpenAi {
  import opened Wrappers
  import opened Text
  import opened JsonValue
  import opened UnifiedRequest
  import opened Http

  const Endpoint: string := "https://api.openai.com/v1/chat/completions"

  const Provider: string := "OpenAI"

  const MaxTokens: int := 4096

  /** The JSON body. Unlike the gateway's, it always holds a system message,
      empty when the request has no system prompt. */
  function Body(request: LlmRequest, model: string): Json {
    Obj([Member("model", Str(model)),
         Member("messages", Arr([RoleMessage("system", request.systemPrompt), RoleMessage("user", request.userContent)])),
         Member("max_tokens", Int(MaxTokens)),
         Member("temperature", Real("0.7"))])
  }

  function RequestFor(request: LlmRequest, apiKey: string, model: string): HttpRequest {
    HttpRequest(Endpoint, BearerHeaders(apiKey), Body(request, model))
  }

  /** Reads the request and model back from a body, as the provider would. */
  function DecodeBody(body: Json): Option<(LlmRequest, string)> {
    var model := AsText(Get(body, "model"));
    var messages := Get(body, "messages");
    if model.None? || messages.None? || !messages.value.Arr? || |messages.value.items| != 2 then None
    else if Get(body, "max_tokens") != Some(Int(MaxTokens)) then None
    else
      var system := ContentOf(messages.value.items[0], "system");
      var user := ContentOf(messages.value.items[1], "user");
      if system.Some? && user.Some? then Some((LlmRequest(system.value, user.value), model.value)) else None
  }

  lemma BodyFields(request: LlmRequest, model: string)
    ensures Get(Body(request, model), "model") == Some(Str(model))
    ensures Get(Body(request, model), "messages")
      == Some(Arr([RoleMessage("system", request.systemPrompt), RoleMessage("user", request.userContent)]))
    ensures Get(Body(request, model), "max_tokens") == Some(Int(MaxTokens))
  {
    var body := Body(request, model);
    LookupFirst(body.members, 0, "model");
    LookupFirst(body.members, 1, "messages");
    LookupFirst(body.members, 2, "max_tokens");
  }

  /** The body carries the whole request and the model. */
  lemma BodyRoundTrip(request: LlmRequest, model: string)
    ensures DecodeBody(Body(request, model)) == Some((request, model))
  {
    BodyFields(request, model);
    RoleMessageContent("system", request.systemPrompt);
    RoleMessageContent("user", request.userContent);
  }

  /** `call_openai_api` once the reply is in. */
  function Complete(outcome: HttpOutcome): Result<string> {
    match ReadReply(outcome)
    case Failed(message) => Err(message)
    case Rejected(statusLine, errorText) => Err(StatusMessage(Provider, statusLine, errorText))
    case Accepted(response) =>
      var text := ChatCompletionText(response);
      if text.Some? then Ok(text.value) else Err(UnexpectedFormat(response))
  }

  /** A non-2xx reply is an error that names the provider and quotes the body. */
  lemma RejectionQuotesBody(outcome: HttpOutcome)
    requires outcome.Responded? && !IsSuccess(outcome.status) && outcome.text.Some?
    ensures Complete(outcome).Err?
    ensures StartsWith(Complete(outcome).error, Provider + " API error")
    ensures Contains(Complete(outcome).error, outcome.text.value)
  {
    StatusMessageQuotesBody(Provider, outcome.statusLine, outcome.text.value);
  }

  /** A 2xx reply not in the expected shape is an error embedding the reply. */
  lemma UnrecognisedReplyReported(status: int, statusLine: string, body: Option<string>, response: Json)
    requires IsSuccess(status) && ChatCompletionText(response).None?
    ensures Complete(Responded(status, statusLine, body, Ok(response))).Err?
    ensures Contains(Complete(Responded(status, statusLine, body, Ok(response))).error, Render(response))
  {
    UnexpectedFormatQuotesReply(response);
  }

  /** Whatever else a 2xx reply holds, the text at `choices[0].message.content`
      is delivered unchanged. */
  lemma DeliversReadText(status: int, statusLine: string, body: Option<string>, response: Json, text: string)
    requires IsSuccess(status) && ChatCompletionText(response) == Some(text)
    ensures Complete(Responded(status, statusLine, body, Ok(response))) == Ok(text)
  {
  }

  /** A 2xx chat-completions reply's text is delivered unchanged. */
  lemma DeliversText(status: int, statusLine: string, body: Option<string>, text: string)
    requires IsSuccess(status)
    ensures Complete(Responded(status, statusLine, body, Ok(ChatCompletionReply(text)))) == Ok(text)
  {
    ChatCompletionRoundTrip(text);
  }
}
