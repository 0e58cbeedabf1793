/** The unified request that every backend adapter receives. */
module UnifiedRequest {

  /** `LLMRequest`: the instruction (possibly empty, meaning raw passthrough)
      and the text to transform. Adapters never alter `userContent`. */
  datatype LlmRequest = LlmRequest(systemPrompt: string, userContent: string)
}
