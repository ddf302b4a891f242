/** Messages, tools and events of shell/pi/packages/agent, with opaque text bodies. */
module AgentMessages {
  /** A tool declaration: its name and everything else the model sees of it. */
  datatype Tool = Tool(name: string, interface: string)

  datatype ToolCall = ToolCall(id: string, name: string)

  /** A finalized tool result. */
  datatype Outcome = Outcome(content: string, isError: bool, terminate: bool)

  datatype StopReason = Stop | Length | ToolUse | Error | Aborted

  datatype Message =
    | System(text: string, toolsAdded: seq<Tool>, toolsRemoved: seq<string>)
    | Assistant(stop: StopReason, calls: seq<ToolCall>, content: string)
    | ToolResult(callId: string, outcome: Outcome)
    | Other(role: string, body: string)

  function NonSystem(ms: seq<Message>): seq<Message> {
    if ms == [] then []
    else if ms[|ms|-1].System? then NonSystem(ms[..|ms|-1])
    else NonSystem(ms[..|ms|-1]) + [ms[|ms|-1]]
  }

  lemma {:induction false} NonSystemConcat(a: seq<Message>, b: seq<Message>)
    ensures NonSystem(a + b) == NonSystem(a) + NonSystem(b)
  {
    if b == [] {
      assert a + b == a;
    } else {
      NonSystemConcat(a, b[..|b|-1]);
      assert (a + b)[..|a + b|-1] == a + b[..|b|-1];
    }
  }
}
