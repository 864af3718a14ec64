/** The language-model client the nodes call, as an oracle. */
module Llm {
  import opened Common

  /** One `invoke`: the reply's `content`, or an exception. */
  datatype LlmReply = Replied(content: Option<string>) | LlmRaised(message: string)

  /**
   * The node's `self.llm`: None when no API key is configured; otherwise the
   * model, given as the map from prompt text to reply.
   */
  datatype LlmClient = NoClient | Client(invoke: string -> LlmReply)
}
