/**
 * What a run shows its environment: the emitted events, and between them the loop's calls into
 * its configuration (queue polls, provider requests, turn hooks).  The folds below read a trace
 * from left to right; each is defined on its last label.
 */
module AgentTrace {
  import opened Wrappers
  import opened AgentMessages

  datatype Decision = Proceed | Continue | End

  datatype Label =
    // events
    | AgentStart
    | TurnStart
    | MessageStart(m: Message)
    | MessageUpdate(m: Message)
    | MessageEnd(m: Message)
    | ToolStart(k: nat, call: ToolCall)               // k: position of the call in its message
    | ToolUpdate(k: nat, call: ToolCall, partial: string)
    | ToolEnd(k: nat, call: ToolCall, outcome: Outcome)
    | TurnEnd(reply: Message, results: seq<Message>)
    | AgentEnd(messages: seq<Message>)
    // calls into the configuration
    | SteeringPoll(got: seq<Message>)
    | PollSkipped                                     // the initial steering poll, answered without the queue
    | FollowUpPoll(got: seq<Message>)
    | NextTurn(prepared: seq<Message>)                // prepareNextTurn answered
    | Requested(context: seq<Message>, tools: seq<Tool>)
    | Decided(decision: Decision)                     // finishTurn answered

  // ----- Event grammar -----

  datatype Phase =
    | Before | BetweenTurns | Injecting | InInjected | Awaiting | InReply | Replied | InResult | Over | Broken

  /** The protocol of a run, one label at a time. */
  function Next(p: Phase, l: Label): Phase {
    match l
    case AgentStart => if p == Before then BetweenTurns else Broken
    case TurnStart => if p == BetweenTurns then Injecting else Broken
    case MessageStart(_) =>
      if p == Injecting then InInjected
      else if p == Awaiting then InReply
      else if p == Replied then InResult
      else Broken
    case MessageUpdate(_) => if p == InReply then InReply else Broken
    case MessageEnd(_) =>
      if p == InInjected then Injecting else if p == InReply || p == InResult then Replied else Broken
    case ToolStart(_, _) => if p == Replied then Replied else Broken
    case ToolUpdate(_, _, _) => if p == Replied then Replied else Broken
    case ToolEnd(_, _, _) => if p == Replied then Replied else Broken
    case TurnEnd(_, _) => if p == Replied then BetweenTurns else Broken
    case AgentEnd(_) => if p == BetweenTurns then Over else Broken
    case SteeringPoll(_) => if p == BetweenTurns || p == Injecting then p else Broken
    case PollSkipped => if p == Injecting then p else Broken
    case FollowUpPoll(_) => if p == BetweenTurns then p else Broken
    case NextTurn(_) => if p == BetweenTurns then p else Broken
    case Requested(_, _) => if p == Injecting then Awaiting else Broken
    case Decided(_) => if p == Replied then p else Broken
  }

  function Walk(p: Phase, ls: seq<Label>): Phase {
    if ls == [] then p else Next(Walk(p, ls[..|ls|-1]), ls[|ls|-1])
  }

  lemma {:induction false} WalkConcat(p: Phase, a: seq<Label>, b: seq<Label>)
    ensures Walk(p, a + b) == Walk(Walk(p, a), b)
  {
    if b == [] {
      assert a + b == a;
    } else {
      WalkConcat(p, a, b[..|b|-1]);
      assert (a + b)[..|a + b|-1] == a + b[..|b|-1];
    }
  }

  // ----- The messages a trace commits -----

  /** Messages in the order of their message_end events. */
  function Ended(ls: seq<Label>): seq<Message> {
    if ls == [] then []
    else if ls[|ls|-1].MessageEnd? then Ended(ls[..|ls|-1]) + [ls[|ls|-1].m]
    else Ended(ls[..|ls|-1])
  }

  lemma {:induction false} EndedConcat(a: seq<Label>, b: seq<Label>)
    ensures Ended(a + b) == Ended(a) + Ended(b)
  {
    if b == [] {
      assert a + b == a;
    } else {
      EndedConcat(a, b[..|b|-1]);
      assert (a + b)[..|a + b|-1] == a + b[..|b|-1];
    }
  }

  /** Ids of tool calls started and not yet ended. */
  function OpenCalls(ls: seq<Label>): set<string> {
    if ls == [] then {}
    else TrackCall(OpenCalls(ls[..|ls|-1]), ls[|ls|-1])
  }

  function TrackCall(open: set<string>, l: Label): set<string> {
    match l
    case ToolStart(_, call) => open + {call.id}
    case ToolEnd(_, call, _) => open - {call.id}
    case _ => open
  }

  /** The message being streamed, if any. */
  function Streaming(ls: seq<Label>): Option<Message> {
    if ls == [] then None else TrackStream(Streaming(ls[..|ls|-1]), ls[|ls|-1])
  }

  function TrackStream(current: Option<Message>, l: Label): Option<Message> {
    match l
    case MessageStart(m) => Some(m)
    case MessageUpdate(m) => Some(m)
    case MessageEnd(_) => None
    case AgentEnd(_) => None
    case _ => current
  }

  /** A call with this id started at i and none with it ended after. */
  ghost predicate StartedLast(ls: seq<Label>, i: nat, id: string) {
    && i < |ls| && ls[i].ToolStart? && ls[i].call.id == id
    && forall j :: i < j < |ls| && ls[j].ToolEnd? ==> ls[j].call.id != id
  }

  /** An id is pending exactly when a call with it started after the last end of one. */
  lemma {:induction false} PendingExactly(ls: seq<Label>, id: string)
    ensures id in OpenCalls(ls) <==> exists i: nat :: StartedLast(ls, i, id)
  {
    if ls != [] {
      var init, l := ls[..|ls|-1], ls[|ls|-1];
      PendingExactly(init, id);
      if i: nat :| StartedLast(init, i, id) && !(l.ToolEnd? && l.call.id == id) {
        assert StartedLast(ls, i, id);
      }
      if l.ToolStart? && l.call.id == id {
        assert StartedLast(ls, |init|, id);
      }
      if i: nat :| StartedLast(ls, i, id) && i < |init| {
        assert StartedLast(init, i, id);
      }
    }
  }

  predicate ShowsMessage(l: Label) {
    l.MessageStart? || l.MessageUpdate?
  }

  /** m was the last message started or updated, and neither it nor the run has ended since. */
  ghost predicate ShownLast(ls: seq<Label>, i: nat, m: Message) {
    && i < |ls| && ShowsMessage(ls[i]) && ls[i].m == m
    && forall j :: i < j < |ls| ==> !ShowsMessage(ls[j]) && !ls[j].MessageEnd? && !ls[j].AgentEnd?
  }

  /** The streaming message is the one last started or updated and not yet ended. */
  lemma {:induction false} StreamingExactly(ls: seq<Label>, m: Message)
    ensures Streaming(ls) == Some(m) <==> exists i: nat :: ShownLast(ls, i, m)
  {
    if ls != [] {
      var init, l := ls[..|ls|-1], ls[|ls|-1];
      StreamingExactly(init, m);
      if ShowsMessage(l) {
        if l.m == m {
          assert ShownLast(ls, |init|, m);
        }
      } else if !l.MessageEnd? && !l.AgentEnd? {
        if i: nat :| ShownLast(init, i, m) {
          assert ShownLast(ls, i, m);
        }
        if i: nat :| ShownLast(ls, i, m) {
          assert ShownLast(init, i, m);
        }
      }
    }
  }

  // ----- What the polls took from the queues -----

  function SteeringTaken(ls: seq<Label>): seq<Message> {
    if ls == [] then []
    else if ls[|ls|-1].SteeringPoll? then SteeringTaken(ls[..|ls|-1]) + ls[|ls|-1].got
    else SteeringTaken(ls[..|ls|-1])
  }

  function FollowUpsTaken(ls: seq<Label>): seq<Message> {
    if ls == [] then []
    else if ls[|ls|-1].FollowUpPoll? then FollowUpsTaken(ls[..|ls|-1]) + ls[|ls|-1].got
    else FollowUpsTaken(ls[..|ls|-1])
  }

  lemma {:induction false} SteeringConcat(a: seq<Label>, b: seq<Label>)
    ensures SteeringTaken(a + b) == SteeringTaken(a) + SteeringTaken(b)
  {
    if b == [] {
      assert a + b == a;
    } else {
      SteeringConcat(a, b[..|b|-1]);
      assert (a + b)[..|a + b|-1] == a + b[..|b|-1];
    }
  }

  lemma {:induction false} FollowUpsConcat(a: seq<Label>, b: seq<Label>)
    ensures FollowUpsTaken(a + b) == FollowUpsTaken(a) + FollowUpsTaken(b)
  {
    if b == [] {
      assert a + b == a;
    } else {
      FollowUpsConcat(a, b[..|b|-1]);
      assert (a + b)[..|a + b|-1] == a + b[..|b|-1];
    }
  }

  // ----- One more label -----

  lemma PushEnded(t: seq<Label>, l: Label)
    ensures Ended(t + [l]) == if l.MessageEnd? then Ended(t) + [l.m] else Ended(t)
  {
    assert (t + [l])[..|t|] == t;
  }

  lemma PushOpenCalls(t: seq<Label>, l: Label)
    ensures OpenCalls(t + [l]) == TrackCall(OpenCalls(t), l)
  {
    assert (t + [l])[..|t|] == t;
  }

  lemma PushStreaming(t: seq<Label>, l: Label)
    ensures Streaming(t + [l]) == TrackStream(Streaming(t), l)
  {
    assert (t + [l])[..|t|] == t;
  }
}
