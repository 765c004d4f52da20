/** The conversation the controller keeps with the decision service, and the list `ask_llm` sends (agentuse.py:240-246). */
module Chat {
  datatype Role = System | User | Assistant

  datatype Message = Message(role: Role, content: string)

  const StatusPrefix: string := "TIME STATUS: "

  /**
   * The messages of one directive query: the whole history, then one user
   * message with the time status when there is one. The history itself is
   * not extended: the status message is never kept.
   */
  function Outgoing(history: seq<Message>, status: string): (r: seq<Message>)
    ensures |history| <= |r| <= |history| + 1 && r[..|history|] == history
    ensures |r| == |history| + 1 <==> status != []
    ensures status != [] ==> r[|history|] == Message(User, StatusPrefix + status)
  {
    if status != [] then history + [Message(User, StatusPrefix + status)] else history
  }
}
