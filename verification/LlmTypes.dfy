/** The conversation types shared by the two agent loops and the history processors. */
module LlmTypes {

  datatype Role = RoleSystem | RoleUser | RoleAssistant | RoleTool

  /** A tool call; in a stream delta it is a fragment of one, with an empty id after the first. */
  datatype ToolCall = ToolCall(id: string, kind: string, name: string, arguments: string)

  datatype Message = Message(role: Role, content: string, toolCalls: seq<ToolCall>, toolCallId: string)

  datatype Usage = Usage(promptTokens: int, completionTokens: int, totalTokens: int)

  const NO_USAGE := Usage(0, 0, 0)

  function AddUsage(a: Usage, b: Usage): Usage {
    Usage(a.promptTokens + b.promptTokens, a.completionTokens + b.completionTokens, a.totalTokens + b.totalTokens)
  }

  function Concat(pieces: seq<string>): string {
    if pieces == [] then "" else Concat(pieces[..|pieces| - 1]) + pieces[|pieces| - 1]
  }

  lemma ConcatSnoc(pieces: seq<string>, last: string)
    ensures Concat(pieces + [last]) == Concat(pieces) + last
  {
    assert (pieces + [last])[..|pieces|] == pieces;
  }
}
