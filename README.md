# LLM client router and adapters, modelled in Dafny

This project models the text-transformation client of a desktop app. The
client takes an instruction (the system prompt), the text to process and a
model id. It picks a backend for the model id under the configured policy:

- the local `claude` command-line tool;
- the AtlasCloud gateway;
- the OpenAI chat-completions API;
- the Anthropic Messages API.

It then converts the request into that backend's format, reads the reply
and returns either the text or an error string.

The model is built from these modules:

- `Routing.Choose`: the router.
- `ClaudeCli`: the command line for the tool and the clean-up of its output.
- `AtlasCloud`, `OpenAi` and `AnthropicApi`: one module per HTTP adapter.
  Each holds the JSON body and headers, the reading of the reply and the
  error messages.
- `Http`: the parts the three HTTP adapters share.
- `LlmClient.ProcessText`: routing and dispatch put together.

The subprocess and the HTTP exchange are effects. They enter as a
`Transport`, a pair of functions that say what running a command line and
sending a request produce. Everything else is a function of those answers.

Two behaviours of the code are easy to miss:

- **Routing of `claude/…` ids.** In the code the `anthropic/claude` and
  `claude` guards are tested before the "contains a slash" guard. So an id
  such as `claude/x` goes to the command-line tool or the Anthropic API,
  never to the gateway.
- **Output clean-up.** The code removes every repeated leading and
  trailing run of triple backticks, not just one fence. The clean-up is
  also not idempotent: `CleanNotIdempotent` exhibits an input that a second
  pass changes again.

## Model

| member | source | states |
|---|---|---|
| Routing.Choose | src-tauri/src/llm_client.rs:31-80 | a backend is chosen only with the key configured for it, and the command-line tool only when it is enabled |
| Routing.GatewayGuardIsSlash | src-tauri/src/llm_client.rs:60-64 | the gateway guard holds exactly when the id contains '/', because the four listed ids all contain one |
| Routing.ClaudeFamiliesDisjoint | src-tauri/src/llm_client.rs:33-50 | an `anthropic/claude…` id is never also a `claude…` id |
| Routing.CliRouteIff | src-tauri/src/llm_client.rs:33-52 | the command-line tool is chosen iff it is enabled and the id is `claude…`, or `anthropic/claude…` without the force-gateway flag |
| Routing.AtlasCloudRouteIff | src-tauri/src/llm_client.rs:33-70 | the gateway is chosen, with key k, iff its key is k and either the id is `anthropic/claude…` and the gateway is forced or the tool is off, or the id is not `claude…` and contains '/' |
| Routing.AnthropicRouteIff | src-tauri/src/llm_client.rs:50-58 | the Anthropic API is chosen iff the id is `claude…`, the tool is off and an Anthropic key is set |
| Routing.OpenAiRouteIff | src-tauri/src/llm_client.rs:72-78 | OpenAI is chosen iff the id starts with `gpt`, contains no '/' and an OpenAI key is set |
| Routing.UnsupportedIff | src-tauri/src/llm_client.rs:79 | "Unsupported model: <id>" is returned iff no guard matches, for every policy |
| Routing.RefusalsDiffer | src-tauri/src/llm_client.rs:39-79 | the unsupported-model message differs from each missing-key message |
| Routing.MissingKeyErrors | src-tauri/src/llm_client.rs:35-77 | each missing key gives its own message: forced gateway, tool off without a gateway key, tool off without an Anthropic key, no gateway key, no OpenAI key |
| Routing.ClaudeWithCliEnabled | src-tauri/src/llm_client.rs:469-496 | under the unit tests' configuration `claude-3-5-sonnet` goes to the command-line tool |
| Routing.ClaudeWithCliDisabled | src-tauri/src/llm_client.rs:499-511 | with the tool disabled it goes to the Anthropic API with the test key |
| Routing.GatewayClaudeWithCli | src-tauri/src/llm_client.rs:514-538 | `anthropic/claude-3-haiku` goes to the command-line tool |
| Routing.GatewayClaudeForced | src-tauri/src/llm_client.rs:541-552 | with the force flag it goes to the gateway with the test key |
| Routing.GatewayModel | src-tauri/src/llm_client.rs:555-592 | `openai/gpt-5.1` goes to the gateway |
| Routing.OpenAiModel | src-tauri/src/llm_client.rs:568-578 | `gpt-4` goes to OpenAI with the test key |
| Routing.NoAtlasCloudKeyRefused | src-tauri/src/llm_client.rs:595-605 | `openai/gpt-5.1` without a gateway key gives "No AtlasCloud API key configured" |
| Routing.NoAnthropicKeyRefused | src-tauri/src/llm_client.rs:608-619 | `claude-3-5-sonnet` with the tool off and no Anthropic key gives the Anthropic missing-key message |
| Routing.ForcedWithoutKeyRefused | src-tauri/src/llm_client.rs:622-633 | a forced gateway without its key gives the "Force AtlasCloud…" message |
| Routing.UnknownModelRefused | src-tauri/src/llm_client.rs:636-645 | `unknown-model-xyz` gives "Unsupported model: unknown-model-xyz" |
| ClaudeCli.EnhancedPrompt | src-tauri/src/llm_client.rs:95-102 | the instruction argument is empty exactly when the system prompt is |
| ClaudeCli.Arguments | src-tauri/src/llm_client.rs:104-118 | `-p` and the user text come first, unchanged; `--system-prompt` with the suffixed prompt follows iff the prompt is non-empty |
| ClaudeCli.ArgumentsRoundTrip | src-tauri/src/llm_client.rs:95-118 | the request can be read back from the argument vector: no part of it is lost |
| ClaudeCli.CleanOutput | src-tauri/src/llm_client.rs:125-129 | the cleaned output has no leading or trailing whitespace |
| ClaudeCli.CleanKeepsPlainText | src-tauri/src/llm_client.rs:125-129 | trimmed text with no fence at either end is returned unchanged |
| ClaudeCli.CleanKeepsTextWithoutBackticks | src-tauri/src/llm_client.rs:125-129 | in particular, trimmed text without backticks is returned unchanged |
| ClaudeCli.CleanIdempotentUnlessFenced | src-tauri/src/llm_client.rs:125-129 | a second clean-up changes nothing unless the first left a fence at an end |
| ClaudeCli.CleanFenceOnly | src-tauri/src/llm_client.rs:125-129 | output made only of a fence run between whitespace cleans to "" |
| ClaudeCli.CleanUnwrapsFencedBlock | src-tauri/src/llm_client.rs:125-129 | a block of any number of opening and closing fences around a body that starts and ends with no backtick cleans to the trimmed body |
| ClaudeCli.CleanNotIdempotent | src-tauri/src/llm_client.rs:125-129 | "``` ```x```" cleans to "```x", which cleans to "x" |
| ClaudeCli.FencesAreBackticks | src-tauri/src/llm_client.rs:127-128 | a non-empty fence run is at least three characters, with a backtick at both ends |
| ClaudeCli.OutcomeNamesTheCli | src-tauri/src/llm_client.rs:109-136 | every failure is an error containing "Claude CLI": a launch failure also carries its cause and the install hint "brew install claude", a failed exit carries standard error, undecodable output carries the decoder's message; a success is the cleaned standard output of a successful run |
| ClaudeCli.Outcome | src-tauri/src/llm_client.rs:104-137 | the result is Ok exactly for a successful run with decodable output, and then it is trimmed; what the errors carry is stated by OutcomeNamesTheCli |
| ClaudeCli.LaunchErrorCarries | src-tauri/src/llm_client.rs:109 | the launch error starts with "Failed to execute" and contains "Claude CLI", the cause and the install hint |
| ClaudeCli.RunErrorCarries | src-tauri/src/llm_client.rs:133-136 | the failed-run error contains "Claude CLI" and standard error |
| ClaudeCli.DecodeErrorCarries | src-tauri/src/llm_client.rs:121-122 | the decoding error contains "Claude CLI" and the decoder's message |
| Text.Trim | src-tauri/src/llm_client.rs:126 | `str::trim`: the result is a slice of the input, everything cut off on either side of it is Unicode whitespace, and it has no leading or trailing whitespace left |
| Text.TrimStart | src-tauri/src/llm_client.rs:126 | the result is a suffix of the input, what it drops is whitespace, and it does not start with whitespace |
| Text.TrimEnd | src-tauri/src/llm_client.rs:129 | the result is a prefix of the input, what it drops is whitespace, and it does not end with whitespace |
| Text.TrimPadded | src-tauri/src/llm_client.rs:126 | trimming whitespace around a non-empty trimmed core gives the core |
| Text.TrimOfTrimmed | src-tauri/src/llm_client.rs:129 | trimming trimmed text changes nothing |
| Text.TrimStartMatches | src-tauri/src/llm_client.rs:127 | `str::trim_start_matches`; see TrimStartMatchesSuffix and TrimStartMatchesRepeat |
| Text.TrimEndMatches | src-tauri/src/llm_client.rs:128 | `str::trim_end_matches`; see TrimEndMatchesPrefix and TrimEndMatchesRepeat |
| Text.TrimStartMatchesSuffix | src-tauri/src/llm_client.rs:127 | `trim_start_matches` leaves a suffix that no longer starts with the pattern |
| Text.TrimEndMatchesPrefix | src-tauri/src/llm_client.rs:128 | `trim_end_matches` leaves a prefix that no longer ends with the pattern |
| Text.TrimStartMatchesRepeat | src-tauri/src/llm_client.rs:127 | any number of leading copies of the pattern are removed, and nothing after them |
| Text.TrimEndMatchesRepeat | src-tauri/src/llm_client.rs:128 | any number of trailing copies of the pattern are removed, and nothing before them |
| Text.ContainsCharIff | src-tauri/src/llm_client.rs:60 | `contains` with a one-character pattern is membership |
| Text.ContainsInfix | src-tauri/src/llm_client.rs:218 | a pattern placed anywhere in a string is found by `contains` |
| JsonValue.Lookup | src-tauri/src/llm_client.rs:243-287 | `Value::get`: a value is found iff some member has the key, and the value found belongs to such a member |
| JsonValue.LookupFirst | src-tauri/src/llm_client.rs:243-287 | the value found is that of the first member with the key |
| Http.ReadReply | src-tauri/src/llm_client.rs:198-240 | a non-2xx status is rejected with its status line and body text, or "Unknown error" if the body cannot be read; a 2xx is accepted with its parsed JSON; a runtime, transport or parse failure is an error that names the failing step and ends with its cause |
| Http.UnexpectedFormatQuotesReply | src-tauri/src/llm_client.rs:282-287 | the unexpected-format error starts with "Unexpected response format" and embeds the rendered reply |
| Http.StatusMessageQuotesBody | src-tauri/src/llm_client.rs:337 | the status error starts with "<provider> API error" and contains the body text |
| Http.ChatCompletionText | src-tauri/src/llm_client.rs:243-250 | the `choices[0].message.content` path as an optional string; see ChatCompletionRoundTrip, and OpenAi.DeliversReadText for its use |
| Http.ChatCompletionRoundTrip | src-tauri/src/llm_client.rs:345-351 | the `choices[0].message.content` reader finds the text in a chat-completions reply |
| AtlasCloud.ModelName | src-tauri/src/llm_client.rs:140-154 | the gateway model name equals the model id for every id |
| AtlasCloud.Body | src-tauri/src/llm_client.rs:178-195 | model, messages, then 128000 tokens with temperature 1.0 and repetition penalty 1.1 for `openai/gpt-5.1`, else 2048 tokens with temperature 0.7; see BodyFields and BodyRoundTrip |
| AtlasCloud.Messages | src-tauri/src/llm_client.rs:162-176 | one user message carrying the text, preceded by a system message iff the prompt is non-empty |
| AtlasCloud.BuildMessages | src-tauri/src/llm_client.rs:162-176 | the list pushed step by step equals `Messages` |
| AtlasCloud.MessagesRoundTrip | src-tauri/src/llm_client.rs:162-176 | the request can be read back from the message list |
| AtlasCloud.BodyFields | src-tauri/src/llm_client.rs:178-195 | the body holds the model, the messages, and 128000 tokens for `openai/gpt-5.1` or 2048 otherwise |
| AtlasCloud.BodyRoundTrip | src-tauri/src/llm_client.rs:160-195 | the request and the model can be read back from the body |
| AtlasCloud.ExtractText | src-tauri/src/llm_client.rs:243-281 | the three-path reader; see FallbackOrder, ExtendsChatCompletions, TextShadowsContent, NestedContentFirst and ReadsEveryShape |
| AtlasCloud.ExtendsChatCompletions | src-tauri/src/llm_client.rs:243-263 | every reply the chat-completions reader accepts is read the same way by the gateway reader |
| AtlasCloud.ReadsEveryShape | src-tauri/src/llm_client.rs:243-280 | all three reply shapes (choices, output, a top-level text field) yield their text |
| AtlasCloud.ReadsOutputReply | src-tauri/src/llm_client.rs:251-263 | the `output[0].content[0].text` shape yields its text |
| AtlasCloud.FallbackOrder | src-tauri/src/llm_client.rs:243-281 | `choices[0].message.content` is tried first, then `output[0].content[0].text`, then the top-level fields, for every reply |
| AtlasCloud.TextShadowsContent | src-tauri/src/llm_client.rs:264-280 | for every top-level object, a `text` member decides the result whatever `content` holds; `content` is read only when `text` is absent, and with neither there is no text |
| AtlasCloud.NestedContentFirst | src-tauri/src/llm_client.rs:270-276 | inside an object found there, `content` is read first and `text` only when `content` is absent |
| AtlasCloud.StatusError | src-tauri/src/llm_client.rs:212-233 | the three status-error wordings; see StatusErrorQuotesBody and UnavailableErrorQuotesBody |
| AtlasCloud.UnavailableErrorQuotesBody | src-tauri/src/llm_client.rs:219-225 | the model-unavailable message starts with "AtlasCloud API error" and quotes the body |
| AtlasCloud.StatusErrorQuotesBody | src-tauri/src/llm_client.rs:217-231 | every gateway status error starts with "AtlasCloud API error" and quotes the body |
| AtlasCloud.RejectionQuotesBody | src-tauri/src/llm_client.rs:212-233 | a non-2xx reply is an error that quotes the body |
| AtlasCloud.UnrecognisedReplyReported | src-tauri/src/llm_client.rs:282-287 | a 2xx reply in none of the three shapes is an error that embeds the reply |
| AtlasCloud.Complete | src-tauri/src/llm_client.rs:198-290 | the gateway's handling of an HTTP outcome; see RejectionQuotesBody, UnrecognisedReplyReported and DeliversReadText |
| AtlasCloud.DeliversReadText | src-tauri/src/llm_client.rs:243-289 | whatever its shape, a 2xx reply from which the reader takes some text yields exactly that text |
| AtlasCloud.DeliversText | src-tauri/src/llm_client.rs:243-289 | a 2xx reply in either list shape yields exactly its text, the empty text included |
| OpenAi.Body | src-tauri/src/llm_client.rs:302-317 | model, a system and a user message, 4096 tokens and temperature 0.7; see BodyFields and BodyRoundTrip |
| OpenAi.BodyFields | src-tauri/src/llm_client.rs:303-317 | the body holds the model, a system and a user message (the system one even when empty), and 4096 tokens |
| OpenAi.BodyRoundTrip | src-tauri/src/llm_client.rs:303-317 | the request and the model can be read back from the body |
| OpenAi.RejectionQuotesBody | src-tauri/src/llm_client.rs:333-338 | a non-2xx reply is an error that starts with "OpenAI API error" and quotes the body |
| OpenAi.UnrecognisedReplyReported | src-tauri/src/llm_client.rs:353-358 | a 2xx reply without `choices[0].message.content` is an error that embeds the reply |
| OpenAi.Complete | src-tauri/src/llm_client.rs:318-358 | the provider's handling of an HTTP outcome; see RejectionQuotesBody, UnrecognisedReplyReported and DeliversReadText |
| OpenAi.DeliversReadText | src-tauri/src/llm_client.rs:345-358 | any 2xx reply with text at `choices[0].message.content` yields exactly that text |
| OpenAi.DeliversText | src-tauri/src/llm_client.rs:345-358 | a 2xx chat-completions reply yields exactly its text |
| AnthropicApi.Body | src-tauri/src/llm_client.rs:373-384 | model, top-level system prompt, one user message and 4096 tokens; see BodyFields and BodyRoundTrip |
| AnthropicApi.BodyFields | src-tauri/src/llm_client.rs:374-384 | the body holds the model, the system prompt as a top-level field, one user message and 4096 tokens |
| AnthropicApi.BodyRoundTrip | src-tauri/src/llm_client.rs:374-384 | the request and the model can be read back from the body |
| AnthropicApi.ExtractText | src-tauri/src/llm_client.rs:413-420 | the `content[0].text` path as an optional string; see MessagesRoundTrip and DeliversReadText |
| AnthropicApi.MessagesRoundTrip | src-tauri/src/llm_client.rs:413-420 | the `content[0].text` reader finds the text in a Messages reply |
| AnthropicApi.RejectionQuotesBody | src-tauri/src/llm_client.rs:401-406 | a non-2xx reply is an error that starts with "Anthropic API error" and quotes the body |
| AnthropicApi.UnrecognisedReplyReported | src-tauri/src/llm_client.rs:421-426 | a 2xx reply without `content[0].text` is an error that embeds the reply |
| AnthropicApi.Complete | src-tauri/src/llm_client.rs:385-426 | the provider's handling of an HTTP outcome; see RejectionQuotesBody, UnrecognisedReplyReported and DeliversReadText |
| AnthropicApi.DeliversReadText | src-tauri/src/llm_client.rs:413-426 | any 2xx reply with text at `content[0].text` yields exactly that text |
| AnthropicApi.DeliversText | src-tauri/src/llm_client.rs:413-426 | a 2xx Messages reply yields exactly its text |
| LlmClient.ProcessText | src-tauri/src/llm_client.rs:24-81 | a request the router refuses returns the router's error; otherwise the chosen backend's call is made and its answer returned (see RefusalMakesNoCall, RequestReachesBackend, CliResult, ReplyDelivered, RejectionReported) |
| LlmClient.RefusalMakesNoCall | src-tauri/src/llm_client.rs:31-80 | a refused request returns the router's error, the same whatever the transport would answer |
| LlmClient.RequestReachesBackend | src-tauri/src/llm_client.rs:24-81 | every backend receives the prompt and the text unchanged; each HTTP backend is sent to its own endpoint with the configured key |
| LlmClient.CliResult | src-tauri/src/llm_client.rs:42-52 | on the tool's route the result is the cleaned output of a successful run, or an error naming "Claude CLI" |
| LlmClient.ReplyDelivered | src-tauri/src/llm_client.rs:24-81 | on every HTTP route a 2xx reply in the backend's shape is returned unchanged, "" included |
| LlmClient.RejectionReported | src-tauri/src/llm_client.rs:212-233 | on every HTTP route a non-2xx reply is an error that quotes the body |
| LlmClient.MissingProgramScenario | src-tauri/src/llm_client.rs:109 | a missing `claude` program gives a launch error ("Failed to execute … Claude CLI …") carrying the cause and the install hint "brew install claude", not a missing-key error |
| LlmClient.NoGatewayKeyScenario | src-tauri/src/llm_client.rs:65-68 | `openai/gpt-5.1` without a gateway key is refused with the gateway message whatever the transport |
| LlmClient.GatewayDoneScenario | src-tauri/src/llm_client.rs:243-250 | a gateway 200 with `{"choices":[{"message":{"content":"done"}}]}` gives Ok("done") |
| LlmClient.GatewayNotFoundScenario | src-tauri/src/llm_client.rs:217-225 | a gateway 404 with `{"error":"model not found"}` for `openai/gpt-5.1` gives the model-unavailable message, which quotes the body |

## Left out

- Process launch, waiting for the process and the UTF-8 decoding of its
  output are left out. Their result is the `CliOutcome` input. Undecodable
  standard output is an `Err` carrying the decoder's message.
- The tokio runtime, the reqwest client and serde's parsing of the reply are
  left out. Their result is the `HttpOutcome` input: a runtime failure, a
  transport failure, or a status with the body as text and as parsed JSON.
- `StatusCode`'s display form (such as "404 Not Found") is the `statusLine`
  input rather than being computed from the number.
- `serde_json::to_string_pretty` is replaced by the compact `Render`. The
  "Unexpected response format" message embeds the reply, but not with
  serde's exact layout.
- Floating-point body values (`temperature`, `repetition_penalty`) are kept
  as their literal text (`Real("0.7")`), since they are only ever written.
- JSON objects keep the member order they are built in; serde's own key
  order is not modelled. A parsed serde object holds each key once: of
  duplicate keys in a reply, the last one wins. The model's `parsed` input
  does not enforce one member per key, and `Lookup` takes the first match.
- All logging is left out (`println!` and `eprintln!`).
- The integration tests at src-tauri/src/llm_client.rs:652-770 are left
  out: they need real keys and a network.
- Configuration loading (config.rs), the app's menus, hotkeys and setup
  (lib.rs, menu.rs, hotkey.rs) and the prompt catalogue (prompts.rs) are not
  part of this model. Every prompt in prompts.rs:20-55 has a non-empty
  system prompt, so from the app the tool's raw passthrough branch (no
  `--system-prompt`) is not reached.
- LlmClient.ReplyDelivered: states delivery only for the reply shape each
  backend is built around. The other gateway shapes are covered by
  AtlasCloud.ReadsEveryShape.
