/**
 * The responses the agent society hands back on each step. The society and
 * its message types belong to an external framework; only the attributes the
 * conversation driver reads are kept, each absent-able one as an `Option`.
 */
module Messages {
  import opened Wrappers

  /** A chat message; the driver only ever reads its text. */
  datatype Message = Message(content: string)

  /**
   * The `usage` entry of a response's info dictionary. A key that is missing
   * is `None`; `otherKeys` counts the entries besides the two token counts
   * (such as a total), which matter only for whether the dictionary is empty.
   */
  datatype Usage = Usage(completionTokens: Option<nat>, promptTokens: Option<nat>, otherKeys: nat)

  /** One tool invocation made by the assistant, as the framework records it. */
  datatype ToolCall = ToolCall(funcName: string, args: string, result: string, toolCallId: string)

  /** One agent's answer to a step: message, usage, tool calls and termination flag. */
  datatype Response = Response(
    msg: Option<Message>,
    usage: Option<Usage>,
    toolCalls: Option<seq<ToolCall>>,
    terminated: bool)

  /** What one call of the society's step returns: the assistant's and the user's response. */
  datatype StepPair = StepPair(assistant: Response, user: Response)

  /** The two roles of the society. */
  datatype Role = AssistantRole | UserRole

  /** The two token counts a usage dictionary may carry. */
  datatype TokenField = CompletionField | PromptField

  function Side(p: StepPair, role: Role): Response {
    match role
    case AssistantRole => p.assistant
    case UserRole => p.user
  }

  /** Python truthiness of the usage dictionary: present and not empty. */
  predicate UsageReported(r: Response) {
    && r.usage.Some?
    && (r.usage.value.completionTokens.Some? || r.usage.value.promptTokens.Some? || r.usage.value.otherKeys > 0)
  }

  /** `usage.get(key, 0)`: the count under `field`, 0 when the key or the dictionary is missing. */
  function Tokens(r: Response, field: TokenField): nat {
    match r.usage
    case None => 0
    case Some(u) =>
      match field
      case CompletionField => u.completionTokens.GetOr(0)
      case PromptField => u.promptTokens.GetOr(0)
  }

  /** The text stored for a response: the message content, or "" when there is no message. */
  function Content(r: Response): string {
    match r.msg
    case Some(m) => m.content
    case None => ""
  }
}
