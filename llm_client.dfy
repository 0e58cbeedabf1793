/** `LLMClient::process_text`: route the request, hand it to the chosen
    backend in that backend's format, and return the backend's answer or
    error as is. The subprocess and the HTTP exchange are the two effects;
    they come in as a `Transport` so that the model is a function of what
    they report. */
module LlmClient {
  import opened Wrappers
  import opened Text
  import opened JsonValue
  import opened UnifiedRequest
  import opened Routing
  import ClaudeCli
  import Http
  import AtlasCloud
  import OpenAi
  import AnthropicApi

  /** What the outside world answers: the outcome of running a command line
      and the outcome of sending an HTTP request. */
  datatype Transport = Transport(run: ClaudeCli.Invocation -> ClaudeCli.CliOutcome, send: Http.HttpRequest -> Http.HttpOutcome)

  /** The one effect a routed request causes. */
  datatype Call =
    | RunCli(invocation: ClaudeCli.Invocation)
    | PostAtlasCloud(request: Http.HttpRequest)
    | PostOpenAi(request: Http.HttpRequest)
    | PostAnthropic(request: Http.HttpRequest)

  /** The call each backend makes for `request`. */
  function CallFor(request: LlmRequest, modelId: string, route: Route): Call {
    match route
    case ViaCli => RunCli(ClaudeCli.CommandFor(request))
    case ViaAtlasCloud(key) => PostAtlasCloud(AtlasCloud.RequestFor(request, key, modelId))
    case ViaOpenAi(key) => PostOpenAi(OpenAi.RequestFor(request, key, modelId))
    case ViaAnthropic(key) => PostAnthropic(AnthropicApi.RequestFor(request, key, modelId))
  }

  /** Makes the call and reads its answer as that backend does. */
  function Perform(call: Call, modelId: string, io: Transport): Result<string> {
    match call
    case RunCli(invocation) => ClaudeCli.Outcome(io.run(invocation))
    case PostAtlasCloud(request) =>
      AtlasCloud.Complete(modelId, AtlasCloud.ModelName(modelId), io.send(request))
    case PostOpenAi(request) => OpenAi.Complete(io.send(request))
    case PostAnthropic(request) => AnthropicApi.Complete(io.send(request))
  }

  /** `process_text(prompt, text, model_id)` under the configured `policy`. */
  function ProcessText(prompt: string, text: string, modelId: string, policy: Policy, io: Transport): (r: Result<string>)
    ensures Choose(modelId, policy).Err? ==> r == Err(Choose(modelId, policy).error)
  {
    var route := Choose(modelId, policy);
    if route.Err? then Err(route.error)
    else Perform(CallFor(LlmRequest(prompt, text), modelId, route.value), modelId, io)
  }

  /** A request the router refuses causes no call: its result is the
      router's error, whatever the transport would have answered. */
  lemma RefusalMakesNoCall(prompt: string, text: string, modelId: string, policy: Policy, io: Transport, other: Transport)
    requires Choose(modelId, policy).Err?
    ensures ProcessText(prompt, text, modelId, policy, io) == Err(Choose(modelId, policy).error)
    ensures ProcessText(prompt, text, modelId, policy, io) == ProcessText(prompt, text, modelId, policy, other)
  {
  }

  /** Every backend receives the prompt and the text unchanged, and the
      model id as given; the HTTP backends are sent to their own endpoint
      with the configured key. */
  lemma RequestReachesBackend(prompt: string, text: string, modelId: string, route: Route)
    ensures CallFor(LlmRequest(prompt, text), modelId, route).RunCli? <==> route.ViaCli?
    ensures route.ViaCli? ==>
      CallFor(LlmRequest(prompt, text), modelId, route).invocation.program == ClaudeCli.Program
      && ClaudeCli.RequestFromArguments(CallFor(LlmRequest(prompt, text), modelId, route).invocation.args)
         == Some(LlmRequest(prompt, text))
    ensures route.ViaAtlasCloud? ==>
      CallFor(LlmRequest(prompt, text), modelId, route).request.url == AtlasCloud.Endpoint
      && CallFor(LlmRequest(prompt, text), modelId, route).request.headers[0].1 == "Bearer " + route.apiKey
      && AtlasCloud.DecodeBody(CallFor(LlmRequest(prompt, text), modelId, route).request.body)
         == Some((LlmRequest(prompt, text), modelId))
    ensures route.ViaOpenAi? ==>
      CallFor(LlmRequest(prompt, text), modelId, route).request.url == OpenAi.Endpoint
      && CallFor(LlmRequest(prompt, text), modelId, route).request.headers[0].1 == "Bearer " + route.apiKey
      && OpenAi.DecodeBody(CallFor(LlmRequest(prompt, text), modelId, route).request.body)
         == Some((LlmRequest(prompt, text), modelId))
    ensures route.ViaAnthropic? ==>
      CallFor(LlmRequest(prompt, text), modelId, route).request.url == AnthropicApi.Endpoint
      && CallFor(LlmRequest(prompt, text), modelId, route).request.headers[0] == ("x-api-key", route.apiKey)
      && AnthropicApi.DecodeBody(CallFor(LlmRequest(prompt, text), modelId, route).request.body)
         == Some((LlmRequest(prompt, text), modelId))
  {
    var request := LlmRequest(prompt, text);
    match route
    case ViaCli => ClaudeCli.ArgumentsRoundTrip(request);
    case ViaAtlasCloud(_) => AtlasCloud.BodyRoundTrip(request, modelId);
    case ViaOpenAi(_) => OpenAi.BodyRoundTrip(request, modelId);
    case ViaAnthropic(_) => AnthropicApi.BodyRoundTrip(request, modelId);
  }

  /** On the command-line route the result is the cleaned standard output of
      a successful run, and any failure names the Claude CLI. */
  lemma CliResult(prompt: string, text: string, modelId: string, policy: Policy, io: Transport)
    requires Choose(modelId, policy) == Ok(ViaCli)
    ensures var outcome := io.run(ClaudeCli.CommandFor(LlmRequest(prompt, text)));
      var r := ProcessText(prompt, text, modelId, policy, io);
      (r.Ok? ==> outcome.Exited? && outcome.success && outcome.stdout.Ok?
                 && r.value == ClaudeCli.CleanOutput(outcome.stdout.value))
      && (r.Err? ==> Contains(r.error, ClaudeCli.CliName))
  {
    ClaudeCli.OutcomeNamesTheCli(io.run(ClaudeCli.CommandFor(LlmRequest(prompt, text))));
  }

  /** A transport that answers every command line and every HTTP request
      with the same outcomes. */
  function Answering(cli: ClaudeCli.CliOutcome, http: Http.HttpOutcome): Transport {
    Transport(_ => cli, _ => http)
  }

  /** On each HTTP route a 2xx reply in that backend's shape is returned
      unchanged, the empty text included: this layer alters no text. */
  lemma ReplyDelivered(prompt: string, text: string, modelId: string, policy: Policy,
                       cli: ClaudeCli.CliOutcome, status: int, reply: string)
    requires Http.IsSuccess(status)
    requires Choose(modelId, policy).Ok? && !Choose(modelId, policy).value.ViaCli?
    ensures var route := Choose(modelId, policy).value;
      var shaped := if route.ViaAnthropic? then AnthropicApi.MessagesReply(reply) else Http.ChatCompletionReply(reply);
      ProcessText(prompt, text, modelId, policy,
                  Answering(cli, Http.Responded(status, "200 OK", None, Ok(shaped)))) == Ok(reply)
  {
    var route := Choose(modelId, policy).value;
    var shaped := if route.ViaAnthropic? then AnthropicApi.MessagesReply(reply) else Http.ChatCompletionReply(reply);
    var io := Answering(cli, Http.Responded(status, "200 OK", None, Ok(shaped)));
    var call := CallFor(LlmRequest(prompt, text), modelId, route);
    assert ProcessText(prompt, text, modelId, policy, io) == Perform(call, modelId, io);
    match route
    case ViaAtlasCloud(_) =>
      AtlasCloud.DeliversText(modelId, AtlasCloud.ModelName(modelId), status, "200 OK", None, reply);
    case ViaOpenAi(_) => OpenAi.DeliversText(status, "200 OK", None, reply);
    case ViaAnthropic(_) => AnthropicApi.DeliversText(status, "200 OK", None, reply);
  }

  /** On each HTTP route a non-2xx reply is an error that quotes the body. */
  lemma RejectionReported(prompt: string, text: string, modelId: string, policy: Policy,
                          cli: ClaudeCli.CliOutcome, status: int, statusLine: string, body: string)
    requires !Http.IsSuccess(status)
    requires Choose(modelId, policy).Ok? && !Choose(modelId, policy).value.ViaCli?
    ensures var r := ProcessText(prompt, text, modelId, policy,
                                 Answering(cli, Http.Responded(status, statusLine, Some(body), Err("unused"))));
      r.Err? && Contains(r.error, body)
  {
    var route := Choose(modelId, policy).value;
    var outcome := Http.Responded(status, statusLine, Some(body), Err("unused"));
    var io := Answering(cli, outcome);
    assert ProcessText(prompt, text, modelId, policy, io)
        == Perform(CallFor(LlmRequest(prompt, text), modelId, route), modelId, io);
    match route
    case ViaAtlasCloud(_) => AtlasCloud.RejectionQuotesBody(modelId, AtlasCloud.ModelName(modelId), outcome);
    case ViaOpenAi(_) => OpenAi.RejectionQuotesBody(outcome);
    case ViaAnthropic(_) => AnthropicApi.RejectionQuotesBody(outcome);
  }

  /** A `claude…` id with the command-line tool enabled and the program
      missing: the error is the launch failure with its install hint, not a
      missing-key error. */
  lemma MissingProgramScenario(modelId: string, cause: string, http: Http.HttpOutcome)
    requires modelId == "claude-3-5-sonnet"
    ensures var r := ProcessText("Say hello", "Hello", modelId, TestPolicy(), Answering(ClaudeCli.LaunchFailed(cause), http));
      r.Err? && StartsWith(r.error, "Failed to execute") && Contains(r.error, ClaudeCli.CliName)
      && Contains(r.error, cause) && Contains(r.error, ClaudeCli.InstallHint)
  {
    ClaudeWithCliEnabled(modelId);
    ClaudeCli.LaunchErrorCarries(cause);
  }

  /** `openai/gpt-5.1` without a gateway key: refused before any call. */
  lemma NoGatewayKeyScenario(modelId: string, io: Transport)
    requires modelId == "openai/gpt-5.1"
    ensures ProcessText("Test prompt", "Test text", modelId, TestPolicy().(atlasCloudApiKey := None), io)
      == Err(NoAtlasCloudKey)
  {
    NoAtlasCloudKeyRefused(modelId);
  }

  /** The gateway answers 200 with `{"choices":[{"message":{"content":"done"}}]}`. */
  lemma GatewayDoneScenario(modelId: string, cli: ClaudeCli.CliOutcome)
    requires modelId == "openai/gpt-5.1"
    ensures var reply := Obj([Member("choices", Arr([Obj([Member("message", Obj([Member("content", Str("done"))]))])]))]);
      ProcessText("Test prompt", "Test text", modelId, TestPolicy(),
                  Answering(cli, Http.Responded(200, "200 OK", None, Ok(reply)))) == Ok("done")
  {
    GatewayModel(modelId);
  }

  /** The gateway answers 404 with `{"error":"model not found"}`: the error
      names the model and quotes the body. */
  lemma GatewayNotFoundScenario(modelId: string, body: string, cli: ClaudeCli.CliOutcome)
    requires modelId == "openai/gpt-5.1" && body == "{\"error\":\"model not found\"}"
    ensures var r := ProcessText("Test prompt", "Test text", modelId, TestPolicy(),
                                 Answering(cli, Http.Responded(404, "404 Not Found", Some(body), Err("unused"))));
      r == Err(AtlasCloud.UnavailableError(modelId, body)) && Contains(r.error, body)
  {
    GatewayModel(modelId);
    NotFoundBody(body);
    assert AtlasCloud.StatusError(modelId, modelId, "404 Not Found", body) == AtlasCloud.UnavailableError(modelId, body);
    AtlasCloud.UnavailableErrorQuotesBody(modelId, body);
  }

  lemma NotFoundBody(body: string)
    requires body == "{\"error\":\"model not found\"}"
    ensures Contains(body, "not found")
  {
    assert body[16..][..9] == "not found";
    assert Contains(body[16..], "not found");
    ContainsExtendLeft(body[..16], body[16..], "not found");
    assert body[..16] + body[16..] == body;
  }
}
