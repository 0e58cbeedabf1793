/** The provider choice of `process_text`: which backend a model id goes to
    under the configured policy, or why none can be used. The guards are
    tried in the order the router lists them, so a model id matching several
    goes to the first. */
module Routing {
  import opened Wrappers
  import opened Text

  /** The configuration fields the router reads. */
  datatype Policy = Policy(
    useClaudeCli: bool,
    forceAtlasCloudForClaude: bool,
    atlasCloudApiKey: Option<string>,
    anthropicApiKey: Option<string>,
    openAiApiKey: Option<string>)

  /** The backend chosen, with the key it will authenticate with. */
  datatype Route =
    | ViaCli
    | ViaAtlasCloud(apiKey: string)
    | ViaOpenAi(apiKey: string)
    | ViaAnthropic(apiKey: string)

  /** Claude models offered through the gateway. */
  predicate IsGatewayClaude(modelId: string) {
    StartsWith(modelId, "anthropic/claude")
  }

  /** Claude models by their own name. */
  predicate IsClaude(modelId: string) {
    StartsWith(modelId, "claude")
  }

  /** Gateway models: any id with a slash, and four listed ids. */
  predicate IsGatewayModel(modelId: string) {
    Contains(modelId, "/")
    || modelId == "openai/gpt-5.1"
    || modelId == "deepseek-ai/deepseek-v3.2-speciale"
    || modelId == "openai/gpt-5-mini-developer"
    || modelId == "google/gemini-2.5-flash"
  }

  predicate IsGpt(modelId: string) {
    StartsWith(modelId, "gpt")
  }

  const ForcedWithoutKey: string := "Force AtlasCloud is enabled" + " but no AtlasCloud API key configured"
  const CliDisabled: string := "Claude CLI is disabled"
  const NoCliNoAtlasCloudKey: string := CliDisabled + " and no AtlasCloud API key configured"
  const NoCliNoAnthropicKey: string := CliDisabled + " and no Anthropic API key configured"
  const NoAtlasCloudKey: string := "No AtlasCloud API key configured"
  const NoOpenAiKey: string := "No OpenAI API key configured"
  const UnsupportedPrefix: string := "Unsupported model: "

  /** A route when the key is configured, else the error given. */
  function WithKey(key: Option<string>, route: string -> Route, missing: string): Result<Route> {
    if key.Some? then Ok(route(key.value)) else Err(missing)
  }

  /** The router's decision for `modelId` under `policy`. A backend is only
      chosen with the key configured for it, and the command-line tool only
      when it is enabled. */
  function Choose(modelId: string, policy: Policy): (r: Result<Route>)
    ensures r.Ok? && r.value.ViaCli? ==> policy.useClaudeCli
    ensures r.Ok? && r.value.ViaAtlasCloud? ==> policy.atlasCloudApiKey == Some(r.value.apiKey)
    ensures r.Ok? && r.value.ViaAnthropic? ==> policy.anthropicApiKey == Some(r.value.apiKey)
    ensures r.Ok? && r.value.ViaOpenAi? ==> policy.openAiApiKey == Some(r.value.apiKey)
  {
    if IsGatewayClaude(modelId) then
      if policy.forceAtlasCloudForClaude then
        WithKey(policy.atlasCloudApiKey, k => ViaAtlasCloud(k), ForcedWithoutKey)
      else if policy.useClaudeCli then Ok(ViaCli)
      else WithKey(policy.atlasCloudApiKey, k => ViaAtlasCloud(k), NoCliNoAtlasCloudKey)
    else if IsClaude(modelId) then
      if policy.useClaudeCli then Ok(ViaCli)
      else WithKey(policy.anthropicApiKey, k => ViaAnthropic(k), NoCliNoAnthropicKey)
    else if IsGatewayModel(modelId) then
      WithKey(policy.atlasCloudApiKey, k => ViaAtlasCloud(k), NoAtlasCloudKey)
    else if IsGpt(modelId) then
      WithKey(policy.openAiApiKey, k => ViaOpenAi(k), NoOpenAiKey)
    else Err(UnsupportedPrefix + modelId)
  }

  /** The listed gateway ids all contain a slash, so the guard is exactly
      "the id contains a slash". */
  lemma GatewayGuardIsSlash(modelId: string)
    ensures IsGatewayModel(modelId) <==> '/' in modelId
  {
    ContainsCharIff(modelId, '/');
    assert "/" == ['/'];
    ListedIdsHaveSlash();
  }

  lemma ListedIdsHaveSlash()
    ensures '/' in "openai/gpt-5.1" && '/' in "openai/gpt-5-mini-developer"
    ensures '/' in "deepseek-ai/deepseek-v3.2-speciale" && '/' in "google/gemini-2.5-flash"
  {
    assert "openai/gpt-5.1"[6] == '/';
    assert "openai/gpt-5-mini-developer"[6] == '/';
    assert "deepseek-ai/deepseek-v3.2-speciale"[11] == '/';
    assert "google/gemini-2.5-flash"[6] == '/';
  }

  /** A `claude…` id never starts with `anthropic/claude`. */
  lemma ClaudeFamiliesDisjoint(modelId: string)
    ensures IsGatewayClaude(modelId) ==> !IsClaude(modelId)
  {
    if IsGatewayClaude(modelId) {
      assert modelId[0] == 'a';
    }
  }

  /** The command-line tool serves exactly the Claude models that are not
      forced onto the gateway, and only when it is enabled. */
  lemma CliRouteIff(modelId: string, policy: Policy)
    ensures Choose(modelId, policy) == Ok(ViaCli)
      <==> policy.useClaudeCli
           && (IsClaude(modelId) || (IsGatewayClaude(modelId) && !policy.forceAtlasCloudForClaude))
  {
    ClaudeFamiliesDisjoint(modelId);
  }

  /** The gateway serves a model exactly when it is a gateway Claude model
      that is forced there or has no command-line tool to go to, or another
      id with a slash that is neither a `claude…` id; always with its key. */
  lemma AtlasCloudRouteIff(modelId: string, policy: Policy, key: string)
    ensures Choose(modelId, policy) == Ok(ViaAtlasCloud(key))
      <==> policy.atlasCloudApiKey == Some(key)
           && (if IsGatewayClaude(modelId) then policy.forceAtlasCloudForClaude || !policy.useClaudeCli
               else !IsClaude(modelId) && '/' in modelId)
  {
    GatewayGuardIsSlash(modelId);
  }

  /** The Anthropic API serves exactly the `claude…` ids when the tool is
      disabled and an Anthropic key is configured. */
  lemma AnthropicRouteIff(modelId: string, policy: Policy, key: string)
    ensures Choose(modelId, policy) == Ok(ViaAnthropic(key))
      <==> IsClaude(modelId) && !policy.useClaudeCli && policy.anthropicApiKey == Some(key)
  {
    ClaudeFamiliesDisjoint(modelId);
  }

  /** OpenAI serves exactly the `gpt…` ids without a slash, with its key. */
  lemma OpenAiRouteIff(modelId: string, policy: Policy, key: string)
    ensures Choose(modelId, policy) == Ok(ViaOpenAi(key))
      <==> IsGpt(modelId) && '/' !in modelId && policy.openAiApiKey == Some(key)
  {
    GatewayGuardIsSlash(modelId);
    if IsGpt(modelId) {
      assert modelId[0] == 'g';
    }
  }

  /** A model matching no guard is refused, naming the model, whatever the
      policy; and only such a model is refused that way. */
  lemma UnsupportedIff(modelId: string, policy: Policy)
    ensures Choose(modelId, policy) == Err(UnsupportedPrefix + modelId)
      <==> !IsGatewayClaude(modelId) && !IsClaude(modelId) && '/' !in modelId && !IsGpt(modelId)
  {
    GatewayGuardIsSlash(modelId);
    RefusalsDiffer(modelId);
  }

  /** The unsupported-model error differs from every missing-key error. */
  lemma RefusalsDiffer(modelId: string)
    ensures UnsupportedPrefix + modelId !in {ForcedWithoutKey, NoCliNoAtlasCloudKey, NoCliNoAnthropicKey, NoAtlasCloudKey, NoOpenAiKey}
  {
    var u := UnsupportedPrefix + modelId;
    assert u[0] == 'U';
    assert ForcedWithoutKey[0] == 'F';
    assert NoCliNoAtlasCloudKey[0] == 'C' && NoCliNoAnthropicKey[0] == 'C';
    assert NoAtlasCloudKey[0] == 'N' && NoOpenAiKey[0] == 'N';
  }

  /** Which key is missing is reported by the message, per family. */
  lemma MissingKeyErrors(modelId: string, policy: Policy)
    ensures (IsGatewayClaude(modelId) && policy.forceAtlasCloudForClaude && policy.atlasCloudApiKey.None?)
      ==> Choose(modelId, policy) == Err(ForcedWithoutKey)
    ensures (IsGatewayClaude(modelId) && !policy.forceAtlasCloudForClaude && !policy.useClaudeCli
             && policy.atlasCloudApiKey.None?)
      ==> Choose(modelId, policy) == Err(NoCliNoAtlasCloudKey)
    ensures (IsClaude(modelId) && !policy.useClaudeCli && policy.anthropicApiKey.None?)
      ==> Choose(modelId, policy) == Err(NoCliNoAnthropicKey)
    ensures (!IsGatewayClaude(modelId) && !IsClaude(modelId) && '/' in modelId && policy.atlasCloudApiKey.None?)
      ==> Choose(modelId, policy) == Err(NoAtlasCloudKey)
    ensures (IsGpt(modelId) && '/' !in modelId && policy.openAiApiKey.None?)
      ==> Choose(modelId, policy) == Err(NoOpenAiKey)
  {
    GatewayGuardIsSlash(modelId);
    ClaudeFamiliesDisjoint(modelId);
    if IsGpt(modelId) {
      assert modelId[0] == 'g';
    }
  }

  /** The policy of the unit tests: every key set, the tool enabled, the
      gateway not forced. */
  function TestPolicy(): Policy {
    Policy(true, false, Some("test-atlascloud-key"), Some("test-anthropic-key"), Some("test-openai-key"))
  }

  /** `test_model_routing_claude_cli_enabled`: a `claude…` id goes to the
      command-line tool. */
  lemma ClaudeWithCliEnabled(modelId: string)
    requires modelId == "claude-3-5-sonnet"
    ensures Choose(modelId, TestPolicy()) == Ok(ViaCli)
  {
    CliRouteIff(modelId, TestPolicy());
  }

  /** `test_model_routing_claude_cli_disabled`: with the tool disabled it goes
      to the Anthropic API. */
  lemma ClaudeWithCliDisabled(modelId: string)
    requires modelId == "claude-3-5-sonnet"
    ensures Choose(modelId, TestPolicy().(useClaudeCli := false)) == Ok(ViaAnthropic("test-anthropic-key"))
  {
    AnthropicRouteIff(modelId, TestPolicy().(useClaudeCli := false), "test-anthropic-key");
  }

  /** `test_model_routing_anthropic_claude_with_cli`: a gateway Claude id
      also prefers the command-line tool. */
  lemma GatewayClaudeWithCli(modelId: string)
    requires modelId == "anthropic/claude-3-haiku"
    ensures Choose(modelId, TestPolicy()) == Ok(ViaCli)
  {
    CliRouteIff(modelId, TestPolicy());
  }

  /** `test_model_routing_anthropic_claude_force_atlascloud`: unless it is
      forced onto the gateway. */
  lemma GatewayClaudeForced(modelId: string)
    requires modelId == "anthropic/claude-3-haiku"
    ensures Choose(modelId, TestPolicy().(forceAtlasCloudForClaude := true))
      == Ok(ViaAtlasCloud("test-atlascloud-key"))
  {
    AtlasCloudRouteIff(modelId, TestPolicy().(forceAtlasCloudForClaude := true), "test-atlascloud-key");
  }

  /** `test_model_routing_atlascloud_models` and
      `test_model_name_mapping_gpt_5_1`: `openai/gpt-5.1` goes to the gateway. */
  lemma GatewayModel(modelId: string)
    requires modelId == "openai/gpt-5.1"
    ensures Choose(modelId, TestPolicy()) == Ok(ViaAtlasCloud("test-atlascloud-key"))
  {
    assert modelId[0] == 'o' && |modelId| < 16;
    assert !IsGatewayClaude(modelId) && !IsClaude(modelId);
    ListedIdsHaveSlash();
    assert '/' in modelId;
    AtlasCloudRouteIff(modelId, TestPolicy(), "test-atlascloud-key");
  }

  /** `test_model_routing_openai_models`: `gpt-4` goes to OpenAI. */
  lemma OpenAiModel(modelId: string)
    requires modelId == "gpt-4"
    ensures Choose(modelId, TestPolicy()) == Ok(ViaOpenAi("test-openai-key"))
  {
    OpenAiRouteIff(modelId, TestPolicy(), "test-openai-key");
  }

  /** `test_error_no_atlascloud_key`. */
  lemma NoAtlasCloudKeyRefused(modelId: string)
    requires modelId == "openai/gpt-5.1"
    ensures Choose(modelId, TestPolicy().(atlasCloudApiKey := None)) == Err(NoAtlasCloudKey)
  {
    assert modelId[0] == 'o' && |modelId| < 16;
    assert !IsGatewayClaude(modelId) && !IsClaude(modelId);
    ListedIdsHaveSlash();
    assert '/' in modelId;
    MissingKeyErrors(modelId, TestPolicy().(atlasCloudApiKey := None));
  }

  /** `test_error_no_anthropic_key_when_cli_disabled`. */
  lemma NoAnthropicKeyRefused(modelId: string)
    requires modelId == "claude-3-5-sonnet"
    ensures Choose(modelId, TestPolicy().(useClaudeCli := false, anthropicApiKey := None))
      == Err(NoCliNoAnthropicKey)
  {
    MissingKeyErrors(modelId, TestPolicy().(useClaudeCli := false, anthropicApiKey := None));
  }

  /** `test_error_force_atlascloud_no_key`. */
  lemma ForcedWithoutKeyRefused(modelId: string)
    requires modelId == "anthropic/claude-3-haiku"
    ensures Choose(modelId, TestPolicy().(forceAtlasCloudForClaude := true, atlasCloudApiKey := None))
      == Err(ForcedWithoutKey)
  {
    MissingKeyErrors(modelId, TestPolicy().(forceAtlasCloudForClaude := true, atlasCloudApiKey := None));
  }

  /** `test_unsupported_model`. */
  lemma UnknownModelRefused(modelId: string)
    requires modelId == "unknown-model-xyz"
    ensures Choose(modelId, TestPolicy()) == Err(UnsupportedPrefix + modelId)
  {
    assert modelId[0] == 'u';
    assert forall i | 0 <= i < |modelId| :: modelId[i] != '/';
    UnsupportedIff(modelId, TestPolicy());
  }
}
