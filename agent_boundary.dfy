/**
 * The boundary to the language-model agent, which is not part of this model.
 * A call is observed only through what it returns or the exception it raises;
 * a conversation supplies the outcome of its n-th call as `agent(n)`.
 */
module AgentBoundary {
  import opened Options

  /**
   * What a successful call returned: the value under the `"output"` key of the
   * AgentCore response dictionary (None when the key is absent), and `str()`
   * of the Strands agent's result object.
   */
  datatype AgentResponse = AgentResponse(output: Option<string>, rendered: string)

  /** The outcome of one agent call: a response, or an exception whose `str()` is `message`. */
  datatype AgentCall = Responded(response: AgentResponse) | Raised(message: string)

  /** One request sent to the agent: the user's line, unmodified, and the user id it is sent with. */
  datatype AgentRequest = AgentRequest(input: string, userId: string)

  /** The prefix both command-line programs put before `str(e)` of a caught exception. */
  const ERROR_PREFIX: string := "❌ 發生錯誤: "

  /** One forwarded line: the request sent to the agent and what the program printed for it. */
  datatype Exchange<T> = Exchange(request: AgentRequest, output: T)
}
