/** The stateful wrapper of shell/pi/packages/agent/src/agent.ts: queues, event reduction, lifecycle. */
module AgentState {
  import opened Wrappers
  import opened AgentMessages
  import opened AgentTrace

  datatype QueueMode = All | OneAtATime

  class PendingMessageQueue {
    var messages: seq<Message>
    var mode: QueueMode
    ghost var enqueued: seq<Message>  // everything enqueued since the last clear
    ghost var drained: seq<Message>   // everything drained since the last clear

    ghost predicate Valid()
      reads this
    {
      enqueued == drained + messages
    }

    constructor (mode: QueueMode)
      ensures Valid() && this.mode == mode && messages == enqueued == drained == []
    {
      this.mode := mode;
      messages, enqueued, drained := [], [], [];
    }

    method Enqueue(message: Message)
      requires Valid()
      modifies this
      ensures Valid() && mode == old(mode) && drained == old(drained)
      ensures messages == old(messages) + [message] && enqueued == old(enqueued) + [message]
    {
      messages := messages + [message];
      enqueued := enqueued + [message];
    }

    predicate HasItems()
      reads this
    {
      messages != []
    }

    function Peek(): (r: seq<Message>)
      reads this
      ensures r <= messages
      ensures r == [] <==> messages == []
      ensures mode == OneAtATime ==> |r| <= 1
      ensures mode == All ==> r == messages
    {
      if mode == All then messages else if messages == [] then [] else [messages[0]]
    }

    /** Takes the peeked prefix; nothing is lost, duplicated or reordered. */
    method Drain() returns (r: seq<Message>)
      requires Valid()
      modifies this
      ensures Valid() && mode == old(mode) && enqueued == old(enqueued)
      ensures r == old(Peek()) && old(messages) == r + messages && drained == old(drained) + r
    {
      r := Peek();
      messages := messages[|r|..];
      drained := drained + r;
    }

    method Clear()
      modifies this
      ensures Valid() && mode == old(mode) && messages == enqueued == drained == []
    {
      messages, enqueued, drained := [], [], [];
    }
  }

  /** Folding one more label changes each part of the state as processEvents does. */
  lemma Reduced(base: seq<Message>, trace: seq<Label>, l: Label)
    ensures base + Ended(trace + [l]) == if l.MessageEnd? then base + Ended(trace) + [l.m] else base + Ended(trace)
    ensures OpenCalls(trace + [l]) == TrackCall(OpenCalls(trace), l)
    ensures Streaming(trace + [l]) == TrackStream(Streaming(trace), l)
  {
    PushEnded(trace, l);
    PushOpenCalls(trace, l);
    PushStreaming(trace, l);
  }

  class Agent {
    var messages: seq<Message>
    var tools: seq<Tool>
    var streaming: Option<Message>
    var pendingToolCalls: set<string>
    var isStreaming: bool
    var activeRun: bool
    const steeringQueue: PendingMessageQueue
    const followUpQueue: PendingMessageQueue
    ghost var base: seq<Message>   // messages when the current run began
    ghost var trace: seq<Label>    // labels of the current run

    /** The reduced state is the fold of the run's events; isStreaming marks an active run. */
    ghost predicate Valid()
      reads this, steeringQueue, followUpQueue
    {
      && steeringQueue != followUpQueue && steeringQueue.Valid() && followUpQueue.Valid()
      && (isStreaming <==> activeRun)
      && messages == base + Ended(trace)
      && (activeRun ==> streaming == Streaming(trace) && pendingToolCalls == OpenCalls(trace))
      && (!activeRun ==> streaming == None && pendingToolCalls == {})
    }

    constructor (messages: seq<Message>, tools: seq<Tool>, steeringMode: QueueMode, followUpMode: QueueMode)
      ensures Valid() && !activeRun && this.messages == messages && this.tools == tools
      ensures fresh(steeringQueue) && fresh(followUpQueue)
    {
      this.messages, this.tools, this.base, this.trace := messages, tools, messages, [];
      streaming, pendingToolCalls, isStreaming, activeRun := None, {}, false, false;
      var s := new PendingMessageQueue(steeringMode);
      var f := new PendingMessageQueue(followUpMode);
      steeringQueue, followUpQueue := s, f;
    }

    /** processEvents: reduce one event; outside an active run it throws, hence the requires. */
    method Emit(l: Label)
      requires Valid() && activeRun
      modifies `messages, `streaming, `pendingToolCalls, `trace
      ensures Valid() && trace == old(trace) + [l]
    {
      streaming := TrackStream(streaming, l);
      pendingToolCalls := TrackCall(pendingToolCalls, l);
      if l.MessageEnd? {
        messages := messages + [l.m];
      }
      Reduced(base, trace, l);
      trace := trace + [l];
    }

    method Steer(message: Message)
      requires Valid()
      modifies steeringQueue
      ensures Valid() && steeringQueue.enqueued == old(steeringQueue.enqueued) + [message]
      ensures steeringQueue.drained == old(steeringQueue.drained)
      ensures steeringQueue.messages == old(steeringQueue.messages) + [message]
    {
      steeringQueue.Enqueue(message);
    }

    method FollowUp(message: Message)
      requires Valid()
      modifies followUpQueue
      ensures Valid() && followUpQueue.enqueued == old(followUpQueue.enqueued) + [message]
      ensures followUpQueue.drained == old(followUpQueue.drained)
      ensures followUpQueue.messages == old(followUpQueue.messages) + [message]
    {
      followUpQueue.Enqueue(message);
    }

    /** Any finite number of steer and followUp calls made by listeners, hooks or the user. */
    method Arrivals()
      requires Valid()
      modifies steeringQueue, followUpQueue
      ensures Valid() && steeringQueue.mode == old(steeringQueue.mode) && followUpQueue.mode == old(followUpQueue.mode)
      ensures steeringQueue.drained == old(steeringQueue.drained) && followUpQueue.drained == old(followUpQueue.drained)
    {
      var n: nat :| true;
      for i := 0 to n
        invariant Valid() && steeringQueue.mode == old(steeringQueue.mode)
        invariant followUpQueue.mode == old(followUpQueue.mode)
        invariant steeringQueue.drained == old(steeringQueue.drained)
        invariant followUpQueue.drained == old(followUpQueue.drained)
      {
        var message: Message := *;
        if * {
          steeringQueue.Enqueue(message);
        } else {
          followUpQueue.Enqueue(message);
        }
      }
    }

    /** getSteeringMessages: the skipped initial poll answers without touching the queue. */
    method PollSteering(skip: bool) returns (got: seq<Message>)
      requires Valid() && activeRun
      modifies `messages, `streaming, `pendingToolCalls, `trace, steeringQueue, followUpQueue
      ensures Valid() && trace == old(trace) + [if skip then PollSkipped else SteeringPoll(got)]
      ensures steeringQueue.drained == old(steeringQueue.drained) + got
      ensures followUpQueue.drained == old(followUpQueue.drained)
      ensures steeringQueue.mode == old(steeringQueue.mode) && followUpQueue.mode == old(followUpQueue.mode)
      ensures skip ==> got == []
      ensures !skip && got == [] ==> steeringQueue.messages == []
      ensures steeringQueue.mode == OneAtATime ==> |got| <= 1
    {
      Arrivals();
      got := [];
      if !skip {
        got := steeringQueue.Drain();
      }
      Emit(if skip then PollSkipped else SteeringPoll(got));
    }

    /** getFollowUpMessages */
    method PollFollowUp() returns (got: seq<Message>)
      requires Valid() && activeRun
      modifies `messages, `streaming, `pendingToolCalls, `trace, steeringQueue, followUpQueue
      ensures Valid() && trace == old(trace) + [FollowUpPoll(got)]
      ensures followUpQueue.drained == old(followUpQueue.drained) + got
      ensures steeringQueue.drained == old(steeringQueue.drained)
      ensures steeringQueue.mode == old(steeringQueue.mode) && followUpQueue.mode == old(followUpQueue.mode)
      ensures got == [] ==> followUpQueue.messages == []
      ensures followUpQueue.mode == OneAtATime ==> |got| <= 1
    {
      Arrivals();
      got := followUpQueue.Drain();
      Emit(FollowUpPoll(got));
    }

    /** The start of runWithLifecycle. */
    method Begin()
      requires Valid() && !activeRun
      modifies `isStreaming, `activeRun, `streaming, `base, `trace
      ensures Valid() && activeRun && trace == [] && base == messages
    {
      isStreaming, activeRun, streaming := true, true, None;
      base, trace := messages, [];
    }

    /** finishRun */
    method FinishRun()
      requires Valid()
      modifies `isStreaming, `activeRun, `streaming, `pendingToolCalls
      ensures Valid() && !activeRun && !isStreaming
    {
      isStreaming, activeRun, streaming, pendingToolCalls := false, false, None, {};
    }
  }
}
