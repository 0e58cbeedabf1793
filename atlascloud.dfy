/** The AtlasCloud gateway adapter (`call_atlascloud`): model-name mapping,
    the chat-completions request it sends, the reading of its reply along
    three alternative paths, and its status-error messages. */
module AtlasCloud {
  import opened Wrappers
  import opened Text
  import opened JsonValue
  import opened UnifiedRequest
  import opened Http

  const Endpoint: string := "https://api.atlascloud.ai/v1/chat/completions"

  /** The one model sent with its own token budget and sampling settings. */
  const Gpt51: string := "openai/gpt-5.1"

  /** The gateway's name for a model id. Every entry of the table maps an id
      to itself, as does the fallback, so the mapping is the identity. */
  function ModelName(modelId: string): (r: string)
    ensures r == modelId
  {
    match modelId
    case "openai/gpt-5.1" => "openai/gpt-5.1"
    case "openai/gpt-5-mini-developer" => "openai/gpt-5-mini-developer"
    case "deepseek-ai/deepseek-v3.2-speciale" => "deepseek-ai/deepseek-v3.2-speciale"
    case "google/gemini-2.5-flash" => "google/gemini-2.5-flash"
    case "anthropic/claude-3-5-sonnet" => "anthropic/claude-3-5-sonnet"
    case "anthropic/claude-3-opus" => "anthropic/claude-3-opus"
    case "anthropic/claude-3-haiku" => "anthropic/claude-3-haiku"
    case _ => modelId
  }

  /** The message list: a system message exactly when the system prompt is
      non-empty, then a single user message with the text unchanged. */
  function Messages(request: LlmRequest): (r: seq<Json>)
    ensures |r| == (if request.systemPrompt == "" then 1 else 2)
    ensures r[|r| - 1] == RoleMessage("user", request.userContent)
    ensures request.systemPrompt != "" ==> r[0] == RoleMessage("system", request.systemPrompt)
  {
    (if request.systemPrompt == "" then [] else [RoleMessage("system", request.systemPrompt)])
    + [RoleMessage("user", request.userContent)]
  }

  /** The list built step by step, as the adapter pushes onto a vector. */
  method BuildMessages(request: LlmRequest) returns (messages: seq<Json>)
    ensures messages == Messages(request)
  {
    messages := [];
    if request.systemPrompt != "" {
      messages := messages + [RoleMessage("system", request.systemPrompt)];
    }
    messages := messages + [RoleMessage("user", request.userContent)];
  }

  function MaxTokens(model: string): int {
    if model == Gpt51 then 128000 else 2048
  }

  /** The JSON body for the gateway's model name `model`. */
  function Body(request: LlmRequest, model: string): Json {
    var head := [Member("model", Str(model)), Member("messages", Arr(Messages(request))),
                 Member("max_tokens", Int(MaxTokens(model)))];
    if model == Gpt51 then
      Obj(head + [Member("temperature", Real("1.0")), Member("repetition_penalty", Real("1.1"))])
    else
      Obj(head + [Member("temperature", Real("0.7"))])
  }

  function RequestFor(request: LlmRequest, apiKey: string, modelId: string): HttpRequest {
    HttpRequest(Endpoint, BearerHeaders(apiKey), Body(request, ModelName(modelId)))
  }

  /** Reads the request and model back from a body, as the gateway would. */
  function DecodeBody(body: Json): Option<(LlmRequest, string)> {
    var model := AsText(Get(body, "model"));
    var messages := Get(body, "messages");
    if model.None? || messages.None? || !messages.value.Arr? then None
    else if Get(body, "max_tokens") != Some(Int(MaxTokens(model.value))) then None
    else
      var request := DecodeMessages(messages.value.items);
      if request.Some? then Some((request.value, model.value)) else None
  }

  /** Reads the request back from a message list. */
  function DecodeMessages(list: seq<Json>): Option<LlmRequest> {
    if |list| == 1 && ContentOf(list[0], "user").Some? then
      Some(LlmRequest("", ContentOf(list[0], "user").value))
    else if |list| == 2 && ContentOf(list[0], "system").Some? && ContentOf(list[0], "system").value != ""
      && ContentOf(list[1], "user").Some? then
      Some(LlmRequest(ContentOf(list[0], "system").value, ContentOf(list[1], "user").value))
    else None
  }

  /** The message list carries the request, and no system message stands
      for an empty system prompt. */
  lemma MessagesRoundTrip(request: LlmRequest)
    ensures DecodeMessages(Messages(request)) == Some(request)
  {
    RoleMessageContent("user", request.userContent);
    if request.systemPrompt != "" {
      RoleMessageContent("system", request.systemPrompt);
    }
  }

  lemma BodyFields(request: LlmRequest, model: string)
    ensures Get(Body(request, model), "model") == Some(Str(model))
    ensures Get(Body(request, model), "messages") == Some(Arr(Messages(request)))
    ensures Get(Body(request, model), "max_tokens") == Some(Int(MaxTokens(model)))
  {
    var body := Body(request, model);
    LookupFirst(body.members, 0, "model");
    LookupFirst(body.members, 1, "messages");
    LookupFirst(body.members, 2, "max_tokens");
  }

  /** The body carries the whole request and the model, with the model's
      token budget. */
  lemma BodyRoundTrip(request: LlmRequest, model: string)
    ensures DecodeBody(Body(request, model)) == Some((request, model))
  {
    BodyFields(request, model);
    MessagesRoundTrip(request);
  }

  /** `choices[0].message.content`, then `output[0].content[0].text`, then a
      top-level `text` (or, only when `text` is absent, `content`) that is a
      string or an object holding `content` (or, only when that is absent,
      `text`). */
  function ExtractText(response: Json): Option<string> {
    OrElse(OrElse(ChatCompletionText(response), OutputText(response)), DirectText(response))
  }

  /** The gateway-specific shape `output[0].content[0].text`. */
  function OutputText(response: Json): Option<string> {
    AsText(Field(First(Field(First(Get(response, "output")), "content")), "text"))
  }

  /** The last fallback: a top-level text field. */
  function DirectText(response: Json): Option<string> {
    var found: Option<Json> := OrElse(Get(response, "text"), Get(response, "content"));
    if found.None? then None
    else if found.value.Str? then Some(found.value.s)
    else if found.value.Obj? then
      AsText(OrElse(Lookup(found.value.members, "content"), Lookup(found.value.members, "text")))
    else None
  }

  /** A minimal reply in the gateway-specific shape. */
  function OutputReply(text: string): Json {
    Obj([Member("output", Arr([Obj([Member("content", Arr([Obj([Member("type", Str("output_text")), Member("text", Str(text))])]))])]))])
  }

  /** Every reply the chat-completions reader accepts is read the same way
      here: the gateway reader only adds fallbacks. */
  lemma ExtendsChatCompletions(response: Json, text: string)
    requires ChatCompletionText(response) == Some(text)
    ensures ExtractText(response) == Some(text)
  {
  }

  /** Each of the three shapes is understood. */
  lemma ReadsEveryShape(text: string)
    ensures ExtractText(ChatCompletionReply(text)) == Some(text)
    ensures ExtractText(OutputReply(text)) == Some(text)
    ensures ExtractText(Obj([Member("text", Str(text))])) == Some(text)
    ensures ExtractText(Obj([Member("content", Obj([Member("text", Str(text))]))])) == Some(text)
  {
    ChatCompletionRoundTrip(text);
    ReadsOutputReply(text);
  }

  lemma ReadsOutputReply(text: string)
    ensures ExtractText(OutputReply(text)) == Some(text)
  {
    var item := Obj([Member("type", Str("output_text")), Member("text", Str(text))]);
    LookupFirst(item.members, 1, "text");
    assert OutputText(OutputReply(text)) == Some(text);
  }

  /** The three paths are tried in order: `choices[0].message.content`, then
      `output[0].content[0].text`, then the top-level fields. */
  lemma FallbackOrder(response: Json)
    ensures ChatCompletionText(response).Some? ==> ExtractText(response) == ChatCompletionText(response)
    ensures ChatCompletionText(response).None? && OutputText(response).Some? ==>
      ExtractText(response) == OutputText(response)
    ensures ChatCompletionText(response).None? && OutputText(response).None? ==>
      ExtractText(response) == DirectText(response)
  {
  }

  /** At the top level a `text` member, whatever its value, hides `content`:
      `content` is consulted only when there is no `text` member. */
  lemma TextShadowsContent(members: seq<Member>, content: Json)
    ensures Lookup(members, "text").Some? ==>
      DirectText(Obj(members)) == DirectText(Obj([Member("text", Lookup(members, "text").value)]))
    ensures Lookup(members, "text").None? && Lookup(members, "content") == Some(content) ==>
      DirectText(Obj(members)) == DirectText(Obj([Member("content", content)]))
    ensures Lookup(members, "text").None? && Lookup(members, "content").None? ==>
      DirectText(Obj(members)) == None
  {
    if Lookup(members, "text").Some? {
      LookupFirst([Member("text", Lookup(members, "text").value)], 0, "text");
    } else if Lookup(members, "content") == Some(content) {
      LookupFirst([Member("content", content)], 0, "content");
    }
  }

  /** Inside an object under `text` or `content`, it is the other way round:
      its `content` member is read first, its `text` only when `content` is
      absent. */
  lemma NestedContentFirst(key: string, inner: seq<Member>)
    requires key == "text" || key == "content"
    ensures Lookup(inner, "content").Some? ==>
      DirectText(Obj([Member(key, Obj(inner))])) == AsText(Lookup(inner, "content"))
    ensures Lookup(inner, "content").None? ==>
      DirectText(Obj([Member(key, Obj(inner))])) == AsText(Lookup(inner, "text"))
  {
    LookupFirst([Member(key, Obj(inner))], 0, key);
    if key == "content" {
      assert Lookup([Member(key, Obj(inner))], "text") == None;
    }
  }

  const Provider: string := "AtlasCloud"

  /** How every gateway status error begins. */
  const ErrorHead: string := Provider + " API error"

  /** The error message for a non-2xx status: a hint about the model when
      the body says "not found" or "bad request", with its own wording for
      `openai/gpt-5.1`. */
  function StatusError(modelId: string, model: string, statusLine: string, errorText: string): string {
    if Contains(errorText, "not found") || Contains(errorText, "bad request") then
      if modelId == Gpt51 then UnavailableError(model, errorText)
      else StatusMessage(Provider, statusLine, errorText) + "\nModel: " + model
    else StatusMessage(Provider, statusLine, errorText)
  }

  const AlternativesHint: string :=
    "\nTry using a different model like 'anthropic/claude-3-haiku' or 'google/gemini-2.5-flash'"

  function UnavailableError(model: string, errorText: string): string {
    ErrorHead + ": Model '" + model + "' may not be available on AtlasCloud.\nError: " + errorText + AlternativesHint
  }

  lemma UnavailableErrorQuotesBody(model: string, errorText: string)
    ensures StartsWith(UnavailableError(model, errorText), ErrorHead)
    ensures Contains(UnavailableError(model, errorText), errorText)
  {
    var front := ErrorHead + ": Model '" + model + "' may not be available on AtlasCloud.\nError: ";
    assert StartsWith(ErrorHead, ErrorHead);
    StartsWithExtend(ErrorHead, ": Model '", ErrorHead);
    StartsWithExtend(ErrorHead + ": Model '", model, ErrorHead);
    StartsWithExtend(ErrorHead + ": Model '" + model, "' may not be available on AtlasCloud.\nError: ", ErrorHead);
    StartsWithExtend(front, errorText, ErrorHead);
    StartsWithExtend(front + errorText, AlternativesHint, ErrorHead);
    ContainsSelf(errorText);
    ContainsExtendLeft(front, errorText, errorText);
    ContainsExtendRight(front + errorText, AlternativesHint, errorText);
  }

  /** Every status error names the gateway and quotes the response body. */
  lemma StatusErrorQuotesBody(modelId: string, model: string, statusLine: string, errorText: string)
    ensures StartsWith(StatusError(modelId, model, statusLine, errorText), ErrorHead)
    ensures Contains(StatusError(modelId, model, statusLine, errorText), errorText)
  {
    StatusMessageQuotesBody(Provider, statusLine, errorText);
    UnavailableErrorQuotesBody(model, errorText);
    var plain := StatusMessage(Provider, statusLine, errorText);
    StartsWithExtend(plain, "\nModel: ", ErrorHead);
    StartsWithExtend(plain + "\nModel: ", model, ErrorHead);
    ContainsExtendRight(plain, "\nModel: ", errorText);
    ContainsExtendRight(plain + "\nModel: ", model, errorText);
  }

  /** `call_atlascloud` once the reply is in. */
  function Complete(modelId: string, model: string, outcome: HttpOutcome): Result<string> {
    match ReadReply(outcome)
    case Failed(message) => Err(message)
    case Rejected(statusLine, errorText) => Err(StatusError(modelId, model, statusLine, errorText))
    case Accepted(response) =>
      var text := ExtractText(response);
      if text.Some? then Ok(text.value) else Err(UnexpectedFormat(response))
  }

  /** A non-2xx reply is an error that quotes the body text. */
  lemma RejectionQuotesBody(modelId: string, model: string, outcome: HttpOutcome)
    requires outcome.Responded? && !IsSuccess(outcome.status) && outcome.text.Some?
    ensures Complete(modelId, model, outcome).Err?
    ensures Contains(Complete(modelId, model, outcome).error, outcome.text.value)
  {
    StatusErrorQuotesBody(modelId, model, outcome.statusLine, outcome.text.value);
  }

  /** A 2xx reply in none of the three shapes is an error embedding the reply. */
  lemma UnrecognisedReplyReported(modelId: string, model: string, status: int, statusLine: string,
                                  body: Option<string>, response: Json)
    requires IsSuccess(status) && ExtractText(response).None?
    ensures Complete(modelId, model, Responded(status, statusLine, body, Ok(response))).Err?
    ensures Contains(Complete(modelId, model, Responded(status, statusLine, body, Ok(response))).error,
                     Render(response))
  {
    UnexpectedFormatQuotesReply(response);
  }

  /** Whatever shape a 2xx reply has, the text the three-path reader finds
      in it is delivered unchanged. */
  lemma DeliversReadText(modelId: string, model: string, status: int, statusLine: string,
                         body: Option<string>, response: Json, text: string)
    requires IsSuccess(status) && ExtractText(response) == Some(text)
    ensures Complete(modelId, model, Responded(status, statusLine, body, Ok(response))) == Ok(text)
  {
  }

  /** A 2xx reply's text is delivered unchanged, even when it is empty. */
  lemma DeliversText(modelId: string, model: string, status: int, statusLine: string, body: Option<string>, text: string)
    requires IsSuccess(status)
    ensures Complete(modelId, model, Responded(status, statusLine, body, Ok(ChatCompletionReply(text)))) == Ok(text)
    ensures Complete(modelId, model, Responded(status, statusLine, body, Ok(OutputReply(text)))) == Ok(text)
  {
    ChatCompletionRoundTrip(text);
    ReadsOutputReply(text);
  }
}
