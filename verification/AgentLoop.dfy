/**
 * runLoop and its callers (shell/pi/packages/agent/src/agent-loop.ts and agent.ts).  Queue arrivals are
 * arbitrary; a script says for each turn what model, hooks and tools answer.  A run that outlives its
 * script is left unfinished, with everything proved about it so far.
 */
module AgentLoop {
  import opened Wrappers
  import opened AgentMessages
  import opened AgentTrace
  import opened AgentState
  import opened ToolBatch
  import opened ToolChanges
  import opened ToolExecution
  import opened RunHistory

  /** Emit one label, extending this stretch of the trace. */
  method Say(agent: Agent, l: Label, ghost t0: seq<Label>, ghost labels: seq<Label>)
    returns (ghost extended: seq<Label>)
    requires agent.Valid() && agent.activeRun && agent.trace == t0 + labels
    modifies agent`messages, agent`streaming, agent`pendingToolCalls, agent`trace
    ensures agent.Valid() && extended == labels + [l] && agent.trace == t0 + extended
  {
    agent.Emit(l);
    extended := labels + [l];
  }

  // ----- Streaming a reply -----

  /** Stream events before the final one: the start of the reply, or an update of it. */
  datatype StreamEvent = Start(partial: Message) | Delta(partial: Message)

  function Starts(es: seq<StreamEvent>): nat {
    if es == [] then 0 else Starts(es[..|es|-1]) + if es[|es|-1].Start? then 1 else 0
  }

  /** The partial replies standing in the context: each start pushes one, updates overwrite the last. */
  function Partials(es: seq<StreamEvent>): seq<Message> {
    if es == [] then []
    else
      var ps := Partials(es[..|es|-1]);
      match es[|es|-1]
      case Start(p) => ps + [p]
      case Delta(p) => if ps == [] then [] else ps[..|ps|-1] + [p]
  }

  function PartialLabels(es: seq<StreamEvent>): seq<Label> {
    if es == [] then []
    else
      var ls := PartialLabels(es[..|es|-1]);
      match es[|es|-1]
      case Start(p) => ls + [MessageStart(p)]
      case Delta(p) => if Partials(es[..|es|-1]) == [] then ls else ls + [MessageUpdate(p)]
  }

  function StreamLabels(es: seq<StreamEvent>, final: Message): seq<Label> {
    PartialLabels(es) + (if Partials(es) == [] then [MessageStart(final)] else []) + [MessageEnd(final)]
  }

  /** Partials left behind by all starts but the last. */
  function Stale(es: seq<StreamEvent>): seq<Message> {
    if Partials(es) == [] then [] else Partials(es)[..|Partials(es)|-1]
  }

  lemma {:induction false} PartialCount(es: seq<StreamEvent>)
    ensures |Partials(es)| == Starts(es)
  {
    if es != [] {
      PartialCount(es[..|es|-1]);
    }
  }

  /** In-place streaming leaves exactly the final reply in the context when at most one start arrives. */
  lemma StreamLeavesOneMessage(es: seq<StreamEvent>)
    ensures Stale(es) == [] <==> Starts(es) <= 1
  {
    PartialCount(es);
  }

  /** The labels after the start of a single-start stream: nothing, or one start and then updates. */
  ghost predicate OneReply(ls: seq<Label>) {
    ls != [] && ls[0].MessageStart? && forall i :: 0 < i < |ls| ==> ls[i].MessageUpdate?
  }

  lemma OneReplyGrows(ls: seq<Label>, p: Message)
    ensures OneReply([MessageStart(p)])
    ensures OneReply(ls) ==> OneReply(ls + [MessageUpdate(p)])
  {
  }

  lemma {:induction false} NoReplyYet(es: seq<StreamEvent>)
    requires Starts(es) == 0
    ensures PartialLabels(es) == [] && Partials(es) == []
  {
    if es != [] {
      NoReplyYet(es[..|es|-1]);
    }
  }

  lemma {:induction false} PartialLabelShape(es: seq<StreamEvent>)
    requires Starts(es) == 1
    ensures OneReply(PartialLabels(es)) && Partials(es) != []
  {
    hide OneReply;
    var init, e := es[..|es|-1], es[|es|-1];
    PartialCount(es);
    PartialCount(init);
    OneReplyGrows(PartialLabels(init), e.partial);
    if e.Start? {
      NoReplyYet(init);
      assert [] + [MessageStart(e.partial)] == [MessageStart(e.partial)];
    } else {
      PartialLabelShape(init);
    }
  }

  /** From position i on every event is shown, in order. */
  ghost predicate ShownFrom(es: seq<StreamEvent>, i: nat, ls: seq<Label>)
    requires i < |es|
  {
    && |ls| == |es| - i && ls[0] == MessageStart(es[i].partial)
    && forall k :: 0 < k < |ls| ==> ls[k] == MessageUpdate(es[i+k].partial)
  }

  /** From its start on every event of a stream with one start is shown, and no earlier update. */
  lemma {:induction false} EveryPartialIsShown(es: seq<StreamEvent>, i: nat)
    requires i < |es| && es[i].Start? && forall j :: 0 <= j < |es| && j != i ==> es[j].Delta?
    ensures Partials(es) != [] && ShownFrom(es, i, PartialLabels(es))
  {
    var init, e := es[..|es|-1], es[|es|-1];
    if i < |init| {
      EveryPartialIsShown(init, i);
      hide Partials, PartialLabels;
      OneMoreShown(init, e);
      assert es == init + [e];
      ShownOneMore(init, i, PartialLabels(init), e);
    } else {
      DeltasAlone(init);
    }
  }

  lemma OneMoreShown(es: seq<StreamEvent>, e: StreamEvent)
    requires Partials(es) != [] && e.Delta?
    ensures PartialLabels(es + [e]) == PartialLabels(es) + [MessageUpdate(e.partial)] && Partials(es + [e]) != []
  {
    assert (es + [e])[..|es|] == es;
  }

  lemma ShownOneMore(es: seq<StreamEvent>, i: nat, ls: seq<Label>, e: StreamEvent)
    requires i < |es| && ShownFrom(es, i, ls)
    ensures ShownFrom(es + [e], i, ls + [MessageUpdate(e.partial)])
  {
  }

  lemma {:induction false} DeltasAlone(es: seq<StreamEvent>)
    requires forall j :: 0 <= j < |es| ==> es[j].Delta?
    ensures PartialLabels(es) == [] && Partials(es) == []
  {
    if es != [] {
      DeltasAlone(es[..|es|-1]);
    }
  }

  /** A stream shows its partial replies, or the final one if there are none, and then ends with the final one. */
  lemma StreamShows(es: seq<StreamEvent>, final: Message)
    ensures Partials(es) != [] ==> StreamLabels(es, final) == PartialLabels(es) + [MessageEnd(final)]
    ensures Partials(es) == [] ==>
      StreamLabels(es, final) == PartialLabels(es) + [MessageStart(final), MessageEnd(final)]
  {
    hide Partials, PartialLabels;
    assert PartialLabels(es) + [] == PartialLabels(es);
    assert PartialLabels(es) + [MessageStart(final)] + [MessageEnd(final)]
      == PartialLabels(es) + [MessageStart(final), MessageEnd(final)];
  }

  lemma StreamLabelsOk(es: seq<StreamEvent>, final: Message)
    requires Starts(es) <= 1
    ensures StreamOk(StreamLabels(es, final), final)
  {
    if Starts(es) == 0 {
      NoReplyYet(es);
    } else {
      PartialLabelShape(es);
      assert PartialLabels(es) + [] == PartialLabels(es);
    }
  }

  /** One more stream event: push a partial on a start, else overwrite the last one, if any. */
  lemma StreamStep(es: seq<StreamEvent>, i: nat, messages: seq<Message>)
    requires i < |es|
    ensures var ps, ls := Partials(es[..i]), PartialLabels(es[..i]);
      if es[i].Start? then
        && messages + Partials(es[..i+1]) == messages + ps + [es[i].partial]
        && PartialLabels(es[..i+1]) == ls + [MessageStart(es[i].partial)] && Partials(es[..i+1]) != []
      else if ps != [] then
        && messages + Partials(es[..i+1]) == (messages + ps)[..|messages + ps|-1] + [es[i].partial]
        && PartialLabels(es[..i+1]) == ls + [MessageUpdate(es[i].partial)] && Partials(es[..i+1]) != []
      else Partials(es[..i+1]) == ps && PartialLabels(es[..i+1]) == ls
  {
    assert es[..i+1][..i] == es[..i];
    var ps := Partials(es[..i]);
    if ps != [] {
      assert (messages + ps)[..|messages + ps|-1] == messages + ps[..|ps|-1];
    }
  }

  lemma NothingStreamed(messages: seq<Message>)
    ensures Partials([]) == [] && PartialLabels([]) == [] && messages + Partials([]) == messages
  {
  }

  lemma StreamEnd(es: seq<StreamEvent>, messages: seq<Message>, final: Message)
    ensures var ps, ls := Partials(es), PartialLabels(es);
      if ps != [] then
        && messages + Stale(es) + [final] == (messages + ps)[..|messages + ps|-1] + [final]
        && StreamLabels(es, final) == ls + [MessageEnd(final)]
      else
        && messages + Stale(es) + [final] == messages + ps + [final]
        && StreamLabels(es, final) == ls + [MessageStart(final)] + [MessageEnd(final)]
  {
    hide Partials, PartialLabels;
    var ps := Partials(es);
    if ps != [] {
      assert (messages + ps)[..|messages + ps|-1] == messages + ps[..|ps|-1];
      assert PartialLabels(es) + [] == PartialLabels(es);
    }
  }

  /** streamAssistantResponse, on the context's message list. */
  method StreamAssistantResponse(agent: Agent, messages: seq<Message>, es: seq<StreamEvent>, final: Message,
                                 ghost t0: seq<Label>)
    returns (updated: seq<Message>)
    requires agent.Valid() && agent.activeRun && agent.trace == t0
    modifies agent`messages, agent`streaming, agent`pendingToolCalls, agent`trace
    ensures agent.Valid() && agent.trace == t0 + StreamLabels(es, final)
    ensures updated == messages + Stale(es) + [final]
  {
    hide Agent.Valid, Ended, OpenCalls, Streaming, Starts, Partials, PartialLabels, Stale, StreamLabels;
    updated := messages;
    assert es[..0] == [];
    NothingStreamed(messages);
    var addedPartial := false;
    ghost var labels: seq<Label> := [];
    for i := 0 to |es|
      invariant agent.Valid() && agent.activeRun && agent.trace == t0 + labels
      invariant updated == messages + Partials(es[..i]) && labels == PartialLabels(es[..i])
      invariant addedPartial <==> Partials(es[..i]) != []
    {
      StreamStep(es, i, messages);
      if es[i].Start? {
        updated := updated + [es[i].partial];
        addedPartial := true;
        labels := Say(agent, MessageStart(es[i].partial), t0, labels);
      } else if addedPartial {
        updated := updated[..|updated|-1] + [es[i].partial];
        labels := Say(agent, MessageUpdate(es[i].partial), t0, labels);
      }
    }
    assert es[..|es|] == es;
    StreamEnd(es, messages, final);
    if addedPartial {
      updated := updated[..|updated|-1] + [final];
    } else {
      updated := updated + [final];
      labels := Say(agent, MessageStart(final), t0, labels);
    }
    labels := Say(agent, MessageEnd(final), t0, labels);
  }

  // ----- Injecting messages -----

  /** Lines 220 to 225, and 128 to 131: commit messages one by one. */
  method CommitAll(agent: Agent, ms: seq<Message>, ghost t0: seq<Label>)
    requires agent.Valid() && agent.activeRun && agent.trace == t0
    modifies agent`messages, agent`streaming, agent`pendingToolCalls, agent`trace
    ensures agent.Valid() && agent.trace == t0 + Commit(ms)
  {
    hide Agent.Valid, Ended, OpenCalls, Streaming;
    ghost var labels: seq<Label> := [];
    for i := 0 to |ms|
      invariant agent.Valid() && agent.activeRun && agent.trace == t0 + labels && labels == Commit(ms[..i])
    {
      assert ms[..i+1][..i] == ms[..i];
      ghost var before := labels;
      labels := Say(agent, MessageStart(ms[i]), t0, labels);
      labels := Say(agent, MessageEnd(ms[i]), t0, labels);
      assert labels == before + [MessageStart(ms[i]), MessageEnd(ms[i])];
    }
    assert ms[..|ms|] == ms;
  }

  // ----- One pass of the inner loop -----

  datatype TurnUpdate = TurnUpdate(context: Option<Context>, messages: seq<Message>)

  /** What the environment answers in one turn. */
  datatype TurnScript = TurnScript(
    update: Option<TurnUpdate>,         // prepareNextTurn
    override: Option<Context>,          // prepareRequest
    events: seq<StreamEvent>,           // the stream before the final reply
    reply: Message,
    sequentialTools: set<string>,       // tools of this context that must run one by one
    world: BatchWorld,                  // tools and their hooks
    decision: Decision                  // finishTurn
  )

  type Script = s: TurnScript |
      s.reply.Assistant? && |s.world.calls| == |s.reply.calls| && Starts(s.events) <= 1
    witness TurnScript(None, None, [], Assistant(Stop, [], ""), {}, BatchWorld(false, []), Proceed)

  /** A turn uses exactly what its script answers. */
  ghost predicate Plays(t: Turn, s: Script, sequential: bool, first: bool) {
    && t.reply == s.reply && t.stream == StreamLabels(s.events, s.reply)
    && t.decision == s.decision && t.overridden == s.override && t.world == s.world
    && (!first && s.update.Some? ==> t.prepared == s.update.value.messages && t.replaced == s.update.value.context)
    && (first || s.update.None? ==> t.prepared == [] && t.replaced == None)
    && (sequential || (exists c :: c in s.reply.calls && c.name in s.sequentialTools) ==>
          OneByOne(t.reply.calls, t.batch))
  }

  /** Lines 193 to 217: prepareNextTurn, then steering that arrived meanwhile, unless some is carried. */
  method OpenTurn(agent: Agent, current: Context, carried: seq<Message>, update: Option<TurnUpdate>,
                  ghost t0: seq<Label>)
    returns (context: Context, prepared: seq<Message>, pending: seq<Message>, ghost replaced: Option<Context>,
             ghost repolled: seq<Message>)
    requires agent.Valid() && agent.activeRun && agent.trace == t0
    modifies agent`messages, agent`streaming, agent`pendingToolCalls, agent`trace, agent.steeringQueue,
             agent.followUpQueue
    ensures agent.Valid()
    ensures (agent.trace
      == t0 + ([NextTurn(prepared)] + (if carried == [] then [SteeringPoll(repolled)] else []) + [TurnStart]))
    ensures context == Chosen(replaced, current)
    ensures update.Some? ==> prepared == update.value.messages && replaced == update.value.context
    ensures update.None? ==> prepared == [] && replaced == None
    ensures carried != [] ==> repolled == [] && pending == carried
    ensures carried == [] ==> pending == repolled
    ensures agent.steeringQueue.drained == old(agent.steeringQueue.drained) + repolled
    ensures agent.followUpQueue.drained == old(agent.followUpQueue.drained)
    ensures agent.steeringQueue.mode == old(agent.steeringQueue.mode)
    ensures agent.followUpQueue.mode == old(agent.followUpQueue.mode)
    ensures agent.steeringQueue.mode == OneAtATime ==> |repolled| <= 1
  {
    hide Agent.Valid, Ended, OpenCalls, Streaming;
    context, prepared, pending, replaced, repolled := current, [], carried, None, [];
    if update.Some? {
      prepared := update.value.messages;
      replaced := update.value.context;
      if update.value.context.Some? {
        context := update.value.context.value;
      }
    }
    agent.Emit(NextTurn(prepared));
    if pending == [] {
      pending := agent.PollSteering(false);
      repolled := pending;
    }
    agent.Emit(TurnStart);
  }

  /** Lines 219 to 252 of a turn: inject, request, stream. */
  method RequestReply(agent: Agent, before: Context, newMessages: seq<Message>, prepared: seq<Message>,
                      pending: seq<Message>, s: Script, ghost t0: seq<Label>)
    returns (context: Context, newMessages': seq<Message>, ghost stream: seq<Label>)
    requires agent.Valid() && agent.activeRun && agent.trace == t0
    modifies agent`messages, agent`streaming, agent`pendingToolCalls, agent`trace
    ensures agent.Valid() && stream == StreamLabels(s.events, s.reply) && StreamOk(stream, s.reply)
    ensures var injected := DeclareToolChanges(before.messages, before.tools, prepared + pending);
      var asked := Chosen(s.override, Context(before.messages + injected, before.tools));
      && agent.trace == t0 + (Commit(injected) + [Requested(asked.messages, asked.tools)] + stream)
      && context == Context(asked.messages + [s.reply], asked.tools)
      && newMessages' == newMessages + injected + [s.reply]
  {
    hide Agent.Valid, Ended, OpenCalls, Streaming, DeclareToolChanges, Commit, StreamLabels, StreamOk, Stale;
    var injected := DeclareToolChanges(before.messages, before.tools, prepared + pending);
    CommitAll(agent, injected, t0);
    context := Context(before.messages + injected, before.tools);
    newMessages' := newMessages + injected;
    // prepareRequest
    if s.override.Some? {
      context := s.override.value;
    }
    agent.Emit(Requested(context.messages, context.tools));
    ghost var t1 := agent.trace;
    var updated := StreamAssistantResponse(agent, context.messages, s.events, s.reply, t1);
    StreamLeavesOneMessage(s.events);
    StreamLabelsOk(s.events, s.reply);
    stream := StreamLabels(s.events, s.reply);
    context := context.(messages := updated);
    newMessages' := newMessages' + [s.reply];
  }

  /** Lines 254 to 287: a failed reply runs no tools; otherwise the batch's results are appended. */
  method RunTools(agent: Agent, context: Context, newMessages: seq<Message>, reply: Message, w: BatchWorld,
                  sequential: bool, sequentialTools: set<string>, ghost t0: seq<Label>)
    returns (context': Context, newMessages': seq<Message>, results: seq<Message>, more: bool,
             ghost batch: seq<Label>, ghost outcomes: seq<Outcome>, ghost answers: seq<Answer>)
    requires agent.Valid() && agent.activeRun && agent.trace == t0
    requires reply.Assistant? && |w.calls| == |reply.calls|
    modifies agent`messages, agent`streaming, agent`pendingToolCalls, agent`trace
    ensures agent.Valid() && agent.trace == t0 + batch
    ensures |outcomes| <= |reply.calls| && results == Results(reply.calls, outcomes)
    ensures reply.stop == Error || reply.stop == Aborted ==> batch == [] && outcomes == [] && !more
    ensures reply.stop != Error && reply.stop != Aborted ==>
              && Completed(reply.calls, batch, outcomes)
              && more == (reply.calls != [] && (reply.stop == Length || !ShouldTerminate(outcomes)))
    ensures reply.stop == Length ==>
              && |outcomes| == |reply.calls|
              && forall k :: 0 <= k < |outcomes| ==> outcomes[k].isError && !outcomes[k].terminate
    ensures reply.stop !in {Length, Error, Aborted} ==>
              AllReport(context.tools, reply.calls, w, outcomes, answers) && CutByAbort(w, |outcomes|)
    ensures sequential || (exists c :: c in reply.calls && c.name in sequentialTools) ==> OneByOne(reply.calls, batch)
    ensures context' == Context(context.messages + results, context.tools) && newMessages' == newMessages + results
  {
    hide Agent.Valid, Ended, OpenCalls, Streaming, Observe, Done, AllReport, AllTruncated, CutByAbort, OneByOne;
    batch, outcomes, more, answers := [], [], false, [];
    NothingStarted(reply.calls);
    NothingToReport(context.tools, reply.calls, w);
    if reply.stop != Error && reply.stop != Aborted && reply.calls != [] {
      var os, terminate;
      os, terminate, batch, answers :=
        ExecuteToolCalls(agent, context.tools, reply, w, sequential, sequentialTools);
      outcomes := os;
      results := Results(reply.calls, os);
      more := !terminate;
    } else {
      results := [];
      assert results == Results(reply.calls, outcomes);
    }
    context' := Context(context.messages + results, context.tools);
    newMessages' := newMessages + results;
  }

  /** A turn up to its streamed reply; the record u says what happened. */
  method AskTurn(agent: Agent, current: Context, newMessages: seq<Message>, carried: seq<Message>, s: Script,
                 first: bool, ghost t0: seq<Label>)
    returns (context: Context, newMessages': seq<Message>, ghost u: Turn)
    requires agent.Valid() && agent.activeRun && agent.trace == t0
    modifies agent`messages, agent`streaming, agent`pendingToolCalls, agent`trace, agent.steeringQueue,
             agent.followUpQueue
    ensures agent.Valid() && StreamOk(u.stream, u.reply) && u.steering == u.followUps == []
    ensures (agent.trace == t0 + (if first then [] else Opening(u))
      + (Commit(Injected(u)) + [Requested(Asked(u).messages, Asked(u).tools)] + u.stream))
    ensures u.carried == carried && (carried != [] ==> u.repolled == []) && u.before == Chosen(u.replaced, current)
    ensures first ==> u.replaced == None && u.prepared == [] && u.repolled == []
    ensures u.reply == s.reply && u.stream == StreamLabels(s.events, s.reply)
    ensures u.decision == s.decision && u.overridden == s.override && u.world == s.world
    ensures !first && s.update.Some? ==> u.prepared == s.update.value.messages && u.replaced == s.update.value.context
    ensures !first && s.update.None? ==> u.prepared == [] && u.replaced == None
    ensures context == Context(Asked(u).messages + [u.reply], Asked(u).tools)
    ensures newMessages' == newMessages + Injected(u) + [u.reply]
    ensures agent.steeringQueue.drained == old(agent.steeringQueue.drained) + u.repolled
    ensures agent.followUpQueue.drained == old(agent.followUpQueue.drained)
    ensures agent.steeringQueue.mode == old(agent.steeringQueue.mode)
    ensures agent.followUpQueue.mode == old(agent.followUpQueue.mode)
    ensures agent.steeringQueue.mode == OneAtATime ==> |u.repolled| <= 1
  {
    hide Agent.Valid, Ended, OpenCalls, Streaming, DeclareToolChanges, Commit, StreamOk, StreamLabels, Starts;
    var before, prepared, pending := current, [], carried;
    ghost var replaced: Option<Context>, repolled: seq<Message> := None, [];
    if !first {
      before, prepared, pending, replaced, repolled := OpenTurn(agent, current, carried, s.update, t0);
    }
    ghost var t1, stream := agent.trace, [];
    context, newMessages', stream := RequestReply(agent, before, newMessages, prepared, pending, s, t1);
    u := TurnRecord(replaced, prepared, carried, repolled, before, s.override, stream, s.reply, [], [], [], s.world,
      s.decision, [], []);
  }

  /** One pass of the inner loop up to turn_end; the record t says what happened. */
  method RunTurn(agent: Agent, current: Context, newMessages: seq<Message>, carried: seq<Message>, s: Script,
                 first: bool, sequential: bool, ghost t0: seq<Label>)
    returns (context: Context, newMessages': seq<Message>, more: bool, stops: bool, forced: bool, ghost t: Turn)
    requires agent.Valid() && agent.activeRun && agent.trace == t0
    modifies agent`messages, agent`streaming, agent`pendingToolCalls, agent`trace, agent.steeringQueue,
             agent.followUpQueue
    ensures agent.Valid() && TurnOk(t) && t.steering == t.followUps == [] && Plays(t, s, sequential, first)
    ensures agent.trace == t0 + ((if first then [] else Opening(t)) + Middle(t))
    ensures t.carried == carried && t.before == Chosen(t.replaced, current)
    ensures first ==> t.replaced == None && t.prepared == [] && t.repolled == []
    ensures context == After(t) && newMessages' == newMessages + Added(t)
    ensures more == More(t) && stops == Stops(t) && forced == (t.decision == Continue)
    ensures agent.steeringQueue.drained == old(agent.steeringQueue.drained) + t.repolled
    ensures agent.followUpQueue.drained == old(agent.followUpQueue.drained)
    ensures agent.steeringQueue.mode == old(agent.steeringQueue.mode)
    ensures agent.followUpQueue.mode == old(agent.followUpQueue.mode)
    ensures agent.steeringQueue.mode == OneAtATime ==> |t.repolled| <= 1
  {
    hide Agent.Valid, Ended, OpenCalls, Streaming, DeclareToolChanges, Commit, StreamOk, Observe, Done, Results,
         ShouldTerminate, Middle, Opening, Completed, TurnOk, More, AllReport, CutByAbort, OneByOne, StreamLabels,
         Starts, Answered, Plays, Injected, Asked;
    ghost var u, batch, outcomes, answers;
    context, newMessages', u := AskTurn(agent, current, newMessages, carried, s, first, t0);
    ghost var t2 := agent.trace;
    var results;
    context, newMessages', results, more, batch, outcomes, answers :=
      RunTools(agent, context, newMessages', s.reply, s.world, sequential, s.sequentialTools, t2);
    ghost var t3 := agent.trace;
    // finishTurn, whose answer a failed reply ignores
    ghost var labels := Say(agent, Decided(s.decision), t3, []);
    labels := Say(agent, TurnEnd(s.reply, results), t3, labels);
    stops := s.reply.stop == Error || s.reply.stop == Aborted || s.decision == End;
    forced := s.decision == Continue;
    t := u.(batch := batch, outcomes := outcomes, answers := answers);
    SameRequest(u, t);
    ghost var opening := if first then [] else Opening(t);
    TurnTrace(t, opening, t0, t0 + opening, t2, t3, agent.trace);
    TurnIsAnswered(t);
    TurnIsOk(t, more);
    TurnPlays(t, s, sequential, first);
  }

  /** The labels of a turn up to its reply do not depend on its tool batch. */
  lemma SameRequest(u: Turn, t: Turn)
    requires t == u.(batch := t.batch, outcomes := t.outcomes, answers := t.answers)
    ensures Opening(t) == Opening(u) && Injected(t) == Injected(u) && Asked(t) == Asked(u)
  {
    hide DeclareToolChanges;
  }

  lemma TurnIsAnswered(t: Turn)
    requires t.reply.stop == Length ==>
      && |t.outcomes| == |t.reply.calls|
      && forall k :: 0 <= k < |t.outcomes| ==> t.outcomes[k].isError && !t.outcomes[k].terminate
    requires t.reply.stop !in {Length, Error, Aborted} ==>
      AllReport(Asked(t).tools, t.reply.calls, t.world, t.outcomes, t.answers) && CutByAbort(t.world, |t.outcomes|)
    ensures Failed(t) || Answered(t)
  {
    hide AllReport, CutByAbort, Asked;
  }

  lemma TurnPlays(t: Turn, s: Script, sequential: bool, first: bool)
    requires t.reply == s.reply && t.stream == StreamLabels(s.events, s.reply)
    requires t.decision == s.decision && t.overridden == s.override && t.world == s.world
    requires first ==> t.prepared == [] && t.replaced == None
    requires !first && s.update.Some? ==> t.prepared == s.update.value.messages && t.replaced == s.update.value.context
    requires !first && s.update.None? ==> t.prepared == [] && t.replaced == None
    requires (sequential || (exists c :: c in s.reply.calls && c.name in s.sequentialTools) ==>
      OneByOne(t.reply.calls, t.batch))
    ensures Plays(t, s, sequential, first)
  {
    hide OneByOne, StreamLabels;
  }

  lemma TurnIsOk(t: Turn, more: bool)
    requires StreamOk(t.stream, t.reply) && t.steering == t.followUps == [] && (t.carried != [] ==> t.repolled == [])
    requires Failed(t) ==> t.batch == [] && t.outcomes == [] && !more
    requires (!Failed(t) ==>
      && Completed(t.reply.calls, t.batch, t.outcomes)
      && Answered(t)
      && more == (t.reply.calls != [] && (t.reply.stop == Length || !ShouldTerminate(t.outcomes))))
    ensures TurnOk(t) && more == More(t)
  {
    hide StreamOk, Completed, Answered;
  }

  /** The stretches of a turn's labels, joined. */
  lemma TurnTrace(t: Turn, opening: seq<Label>, t0: seq<Label>, t1: seq<Label>, t2: seq<Label>, t3: seq<Label>,
                  t4: seq<Label>)
    requires t1 == t0 + opening
    requires t2 == t1 + (Commit(Injected(t)) + [Requested(Asked(t).messages, Asked(t).tools)] + t.stream)
    requires t3 == t2 + t.batch
    requires t4 == t3 + [Decided(t.decision), TurnEnd(t.reply, TurnResults(t))]
    ensures t4 == t0 + (opening + Middle(t))
  {
    hide Commit, Injected, Asked, TurnResults;
    var c := Commit(Injected(t)) + [Requested(Asked(t).messages, Asked(t).tools)] + t.stream;
    var e := [Decided(t.decision), TurnEnd(t.reply, TurnResults(t))];
    assert Middle(t) == c + t.batch + e;
    assert t4 == t0 + opening + c + t.batch + e;
    assert t0 + opening + c + t.batch + e == t0 + (opening + (c + t.batch + e));
  }

  // ----- The loop -----

  /** The trace after a turn's steering poll came back empty, before the follow-up poll. */
  ghost function HalfLabels(ts: seq<Turn>): seq<Label>
    requires ts != []
  {
    var t := ts[|ts|-1];
    TurnLabels(ts[..|ts|-1]) + (if |ts| == 1 then [] else Opening(t)) + Middle(t) + [SteeringPoll([])]
  }

  ghost function WithFollowUps(ts: seq<Turn>, got: seq<Message>): seq<Turn>
    requires ts != []
  {
    var t: Turn := ts[|ts|-1].(followUps := got);
    ts[..|ts|-1] + [t]
  }

  /** The context the loop goes on with. */
  function Current(r: Run): Context {
    if r.turns == [] then Context(r.start.messages + r.prompts, r.start.tools) else After(r.turns[|r.turns|-1])
  }

  /** Where the loop stands at the inner loop's test. */
  ghost predicate AtTest(r: Run, trace: seq<Label>, context: Context, newMessages: seq<Message>,
                         pending: seq<Message>, more: bool, forced: bool) {
    && Chain(r) && !r.finished
    && newMessages == NewMessages(r)
    && context == Current(r)
    && pending == SteeringInHand(r) + FollowUpsInHand(r)
    && (more || pending != [] ==>
          && trace == Prologue(r) + TurnLabels(r.turns)
          && (r.turns != [] ==> Continues(r.turns[|r.turns|-1])))
    && (!more && pending == [] ==>
          && r.turns != []
          && trace == Prologue(r) + HalfLabels(r.turns)
          && !Stops(r.turns[|r.turns|-1]) && !More(r.turns[|r.turns|-1])
          && (forced <==> r.turns[|r.turns|-1].decision == Continue))
  }

  function Steered(t: Turn, got: seq<Message>): Turn {
    t.(steering := got)
  }

  /** A finished turn joins the history, with the steering polled after it. */
  lemma PushTurn(r: Run, t: Turn, got: seq<Message>)
    requires RunOk(r) && !r.finished && TurnOk(t) && t.steering == t.followUps == [] && !Stops(t)
    requires if r.turns == [] then FirstTurn(r, t) else Follows(r.turns[|r.turns|-1], t)
    ensures var u := Steered(t, got);
            var ts := r.turns + [u];
      && Chain(r.(turns := ts))
      && AllAdded(ts) == AllAdded(r.turns) + Added(t) && After(u) == After(t) && More(u) == More(t) && !Stops(u)
      && (if More(t) || got != [] then
            TurnLabels(ts) == TurnLabels(r.turns) + ((if r.turns == [] then [] else Opening(t)) + Middle(t))
              + [SteeringPoll(got)] && Continues(u)
          else
            HalfLabels(ts) == TurnLabels(r.turns) + ((if r.turns == [] then [] else Opening(t)) + Middle(t))
              + [SteeringPoll(got)])
  {
    hide Middle, Opening, Added, After, StreamOk, Completed, Injected, Asked, Chain, ShouldTerminate, Answered;
    var u := Steered(t, got);
    var ts := r.turns + [u];
    assert ts[..|ts|-1] == r.turns;
    SameTurn(t, u);
    PushChain(r, u);
    Reassociate(TurnLabels(r.turns), if r.turns == [] then [] else Opening(t), Middle(t), SteeringPoll(got));
  }

  /** A turn's labels up to turn_end do not depend on the polls after it. */
  lemma SameTurn(t: Turn, u: Turn)
    requires u == t.(steering := u.steering, followUps := u.followUps)
    ensures Opening(u) == Opening(t) && Middle(u) == Middle(t) && Added(u) == Added(t) && After(u) == After(t)
    ensures More(u) == More(t) && Stops(u) == Stops(t) && Injected(u) == Injected(t) && Answered(u) == Answered(t)
  {
    hide DeclareToolChanges, Commit, Results, AllReport;
  }

  lemma PushChain(r: Run, u: Turn)
    requires RunOk(r) && !r.finished && TurnOk(u)
    requires if r.turns == [] then FirstTurn(r, u) else Follows(r.turns[|r.turns|-1], u)
    ensures Chain(r.(turns := r.turns + [u]))
  {
    hide TurnOk, Follows;
    var ts := r.turns + [u];
    forall i | 0 < i < |ts| ensures Follows(ts[i-1], ts[i]) {
      if i < |r.turns| {
        assert Follows(r.turns[i-1], r.turns[i]);
      }
    }
  }

  lemma Reassociate(a: seq<Label>, b: seq<Label>, c: seq<Label>, l: Label)
    ensures a + (b + c) + [l] == a + (b + c + [l])
    ensures a + (b + c) + [l] == a + b + c + [l]
  {
  }

  /** The follow-up poll completes the last turn. */
  lemma CompleteTurn(r: Run, got: seq<Message>)
    requires Chain(r) && r.turns != []
    requires var t := r.turns[|r.turns|-1]; t.steering == t.followUps == [] && !More(t) && !Stops(t)
    ensures var ts := WithFollowUps(r.turns, got);
      && Chain(r.(turns := ts))
      && TurnLabels(ts) == HalfLabels(r.turns) + [FollowUpPoll(got)]
      && AllAdded(ts) == AllAdded(r.turns) && After(ts[|ts|-1]) == After(r.turns[|r.turns|-1])
      && SteeringInHand(r.(turns := ts)) == [] && FollowUpsInHand(r.(turns := ts)) == got
      && (Continues(ts[|ts|-1]) <==> got != [] || ts[|ts|-1].decision == Continue)
      && ts[|ts|-1].decision == r.turns[|r.turns|-1].decision
  {
    hide Middle, Opening, Added, After, Injected, Asked, StreamOk, Completed, Results, Follows, FirstTurn,
         ShouldTerminate, Answered;
    var t := r.turns[|r.turns|-1];
    var u: Turn := t.(followUps := got);
    var ts := WithFollowUps(r.turns, got);
    assert ts[..|ts|-1] == r.turns[..|r.turns|-1] && ts[|ts|-1] == u;
    CompletedTurnIsOk(r, got);
    hide TurnOk, Chain;
    ReplaceLast(r, u);
    var opening := if |ts| == 1 then [] else Opening(t);
    assert Closing(u) == [SteeringPoll([]), FollowUpPoll(got)];
    assert TurnLabels(r.turns[..|r.turns|-1]) + (opening + Middle(t) + [SteeringPoll([]), FollowUpPoll(got)])
        == TurnLabels(r.turns[..|r.turns|-1]) + opening + Middle(t) + [SteeringPoll([])] + [FollowUpPoll(got)];
  }

  lemma CompletedTurnIsOk(r: Run, got: seq<Message>)
    requires Chain(r) && r.turns != [] && !More(r.turns[|r.turns|-1]) && !Stops(r.turns[|r.turns|-1])
    requires r.turns[|r.turns|-1].steering == []
    ensures TurnOk(r.turns[|r.turns|-1].(followUps := got))
    ensures var t := r.turns[|r.turns|-1]; var u: Turn := t.(followUps := got);
      Added(u) == Added(t) && After(u) == After(t) && Opening(u) == Opening(t) && Middle(u) == Middle(t)
  {
    hide Follows, FirstTurn, Answered;
    var t := r.turns[|r.turns|-1];
    assert TurnOk(t);
    SameTurn(t, t.(followUps := got));
  }

  lemma ReplaceLast(r: Run, u: Turn)
    requires Chain(r) && r.turns != [] && TurnOk(u)
    requires u == r.turns[|r.turns|-1].(followUps := u.followUps)
    ensures Chain(r.(turns := r.turns[..|r.turns|-1] + [u]))
  {
    hide After, Continues, TurnOk, Carry;
    var ts := r.turns[..|r.turns|-1] + [u];
    forall i | 0 < i < |ts| ensures Follows(ts[i-1], ts[i]) {
      assert Follows(r.turns[i-1], r.turns[i]);
    }
  }

  lemma FinishingKeepsChain(r: Run)
    requires Chain(r)
    ensures Chain(r.(finished := true))
  {
  }

  /** A turn that stops the run ends its history. */
  lemma StopTurn(r: Run, t: Turn)
    requires RunOk(r) && !r.finished && TurnOk(t) && Stops(t)
    requires if r.turns == [] then FirstTurn(r, t) else Follows(r.turns[|r.turns|-1], t)
    ensures var ts := r.turns + [t];
      && RunOk(r.(turns := ts, finished := true)) && Chain(r.(turns := ts))
      && AllAdded(ts) == AllAdded(r.turns) + Added(t)
      && TurnLabels(ts) == TurnLabels(r.turns) + ((if r.turns == [] then [] else Opening(t)) + Middle(t))
  {
    hide Middle, Added, TurnOk, Follows, FirstTurn, Opening, After, Chain;
    var ts := r.turns + [t];
    assert ts[..|ts|-1] == r.turns;
    PushChain(r, t);
    FinishingKeepsChain(r.(turns := ts));
    var opening := if r.turns == [] then [] else Opening(t);
    assert Closing(t) == [] && opening + Middle(t) + [] == opening + Middle(t);
  }

  /** What the next turn delivers is what was in hand, plus the steering polled while preparing it. */
  lemma PushDelivers(r: Run, u: Turn)
    requires RunOk(r) && Chain(r.(turns := r.turns + [u]))
    ensures SteeringDelivered(r.turns + [u]) == SteeringDelivered(r.turns) + SteeringInHand(r) + u.repolled
    ensures FollowUpsDelivered(r.turns + [u]) == FollowUpsDelivered(r.turns) + FollowUpsInHand(r)
  {
    hide StreamOk, Completed, Injected, Asked, After;
    var s := r.(turns := r.turns + [u]);
    assert s.turns[..|s.turns|-1] == r.turns;
    if r.turns == [] {
      FirstTurnDelivers(s);
      assert FirstTurn(s, u);
    } else {
      assert s.turns[|s.turns|-2] == r.turns[|r.turns|-1];
      assert Follows(s.turns[|s.turns|-2], s.turns[|s.turns|-1]);
      NextTurnDelivers(s);
    }
  }

  lemma SameDelivered(ts: seq<Turn>, got: seq<Message>)
    requires ts != []
    ensures SteeringDelivered(WithFollowUps(ts, got)) == SteeringDelivered(ts)
    ensures FollowUpsDelivered(WithFollowUps(ts, got)) == FollowUpsDelivered(ts)
  {
    var us := WithFollowUps(ts, got);
    assert us[..|us|-1] == ts[..|ts|-1];
    assert Queued(us[|us|-1]) == Queued(ts[|ts|-1]);
    assert |us| > 1 ==> us[|us|-2] == ts[|ts|-2];
  }

  lemma EmptyHistory(r: Run)
    requires r.turns == [] && !r.finished && (r.skipped ==> r.first == [])
    ensures Chain(r) && TurnLabels(r.turns) == [] && NewMessages(r) == r.prompts
    ensures SteeringDelivered(r.turns) == [] && FollowUpsDelivered(r.turns) == []
  {
  }

  lemma AtTestIsOk(r: Run, trace: seq<Label>, context: Context, newMessages: seq<Message>, pending: seq<Message>,
                   more: bool, forced: bool)
    requires AtTest(r, trace, context, newMessages, pending, more, forced) && (more || pending != [])
    ensures RunOk(r) && !r.finished && trace == Trace(r) && newMessages == NewMessages(r)
    ensures pending == SteeringInHand(r) + FollowUpsInHand(r)
    ensures context == Current(r)
  {
    hide TurnLabels, Prologue, NewMessages, Continues, Chain;
    assert Prologue(r) + TurnLabels(r.turns) + [] == Prologue(r) + TurnLabels(r.turns);
  }

  /** The turn just run is the history's next one. */
  lemma JoinsHistory(r: Run, t: Turn, pending: seq<Message>)
    requires RunOk(r) && !r.finished && pending == SteeringInHand(r) + FollowUpsInHand(r) && t.carried == pending
    requires t.before == Chosen(t.replaced, Current(r))
    requires r.turns == [] ==> t.replaced == None && t.prepared == [] && t.repolled == []
    ensures if r.turns == [] then FirstTurn(r, t) else Follows(r.turns[|r.turns|-1], t)
  {
    hide After, StreamOk, Completed;
    if r.turns != [] {
      assert TurnOk(r.turns[|r.turns|-1]);
    }
  }

  /** Everything drained since the run began is delivered or in hand. */
  ghost predicate Conserved(agent: Agent, r: Run, s0: seq<Message>, f0: seq<Message>)
    reads agent.steeringQueue, agent.followUpQueue
  {
    && agent.steeringQueue.drained == s0 + SteeringDelivered(r.turns) + SteeringInHand(r)
    && agent.followUpQueue.drained == f0 + FollowUpsDelivered(r.turns) + FollowUpsInHand(r)
  }

  ghost predicate SmallTurns(ts: seq<Turn>) {
    forall i :: 0 <= i < |ts| ==> |Queued(ts[i])| <= 1
  }

  ghost predicate SameStart(r: Run, r0: Run) {
    && r.start == r0.start && r.prompts == r0.prompts
    && r.skipped == r0.skipped && r.first == r0.first
  }

  /** What every point of the loop keeps besides its position. */
  ghost predicate Kept(agent: Agent, r: Run, r0: Run, s0: seq<Message>, f0: seq<Message>, small: bool)
    reads agent`activeRun, agent.steeringQueue, agent.followUpQueue
  {
    && agent.activeRun
    && Conserved(agent, r, s0, f0)
    && SameStart(r, r0)
    && (small ==> agent.steeringQueue.mode == agent.followUpQueue.mode == OneAtATime)
    && (small ==> |SteeringInHand(r) + FollowUpsInHand(r)| <= 1 && SmallTurns(r.turns))
  }

  lemma KeptStart(agent: Agent, r: Run, s0: seq<Message>, f0: seq<Message>, small: bool)
    requires agent.activeRun && r.turns == [] && (r.skipped ==> r.first == [])
    requires agent.steeringQueue.drained == s0 + r.first && agent.followUpQueue.drained == f0
    requires small ==> agent.steeringQueue.mode == agent.followUpQueue.mode == OneAtATime && |r.first| <= 1
    ensures Kept(agent, r, r, s0, f0, small)
  {
    EmptyHistory(r.(finished := false));
    assert s0 + [] + r.first == s0 + r.first && f0 + [] + [] == f0;
  }

  /** Kept does not care which history of the same run it is compared with. */
  lemma KeptFrom(agent: Agent, r: Run, r0: Run, s0: seq<Message>, f0: seq<Message>, small: bool)
    requires Kept(agent, r, r0, s0, f0, small)
    ensures Kept(agent, r, r, s0, f0, small)
    ensures SameStart(r, r0)
  {
  }

  lemma KeptTo(agent: Agent, r': Run, r: Run, r0: Run, s0: seq<Message>, f0: seq<Message>, small: bool)
    requires Kept(agent, r', r, s0, f0, small) && SameStart(r, r0)
    ensures Kept(agent, r', r0, s0, f0, small) && agent.activeRun
  {
  }

  lemma KeptEnd(agent: Agent, r: Run, r0: Run, s0: seq<Message>, f0: seq<Message>, small: bool)
    requires Kept(agent, r, r0, s0, f0, small)
    ensures agent.activeRun && Conserved(agent, r, s0, f0) && Conserved(agent, r.(finished := true), s0, f0)
    ensures SameStart(r, r0) && (small ==> SmallTurns(r.turns))
  {
  }

  lemma PushSmall(r: Run, t: Turn, u: Turn, got: seq<Message>)
    requires SmallTurns(r.turns) && TurnOk(t) && |t.carried| <= 1 && |t.repolled| <= 1
    requires u == Steered(t, got) && t.followUps == []
    ensures SmallTurns(r.turns + [u])
    ensures SteeringInHand(r.(turns := r.turns + [u])) + FollowUpsInHand(r.(turns := r.turns + [u])) == got
  {
  }

  /** One pass of the inner loop: a turn, then either the end of the run or the steering poll. */
  method InnerPass(agent: Agent, current: Context, newMessages: seq<Message>, pending: seq<Message>, s: Script,
                   first: bool, sequential: bool, ghost r: Run, ghost s0: seq<Message>, ghost f0: seq<Message>,
                   ghost small: bool)
    returns (context: Context, newMessages': seq<Message>, pending': seq<Message>, more: bool, forced: bool,
             stops: bool, ghost r': Run)
    requires agent.Valid() && RunOk(r) && !r.finished && agent.trace == Trace(r) && Kept(agent, r, r, s0, f0, small)
    requires pending == SteeringInHand(r) + FollowUpsInHand(r) && (first <==> r.turns == [])
    requires newMessages == NewMessages(r)
    requires current == Current(r)
    modifies agent`messages, agent`streaming, agent`pendingToolCalls, agent`trace, agent.steeringQueue,
             agent.followUpQueue
    ensures agent.Valid() && Kept(agent, r', r, s0, f0, small) && |r'.turns| == |r.turns| + 1
    ensures r'.turns[..|r.turns|] == r.turns && Plays(r'.turns[|r.turns|], s, sequential, first)
    ensures stops ==> RunOk(r') && r'.finished && agent.trace == Trace(r') && newMessages' == NewMessages(r')
    ensures !stops ==> AtTest(r', agent.trace, context, newMessages', pending', more, forced)
  {
    hide Agent.Valid, Ended, OpenCalls, Streaming, Middle, Opening, Closing, LastLabels, Commit, Added, After, TurnOk,
         Follows, FirstTurn, SteeringDelivered, FollowUpsDelivered, SmallTurns, Queued, RunOk, Trace, AtTest, More,
         Stops, NewMessages, OneByOne, StreamLabels;
    ghost var t0 := agent.trace;
    ghost var t;
    context, newMessages', more, stops, forced, t :=
      RunTurn(agent, current, newMessages, pending, s, first, sequential, t0);
    JoinsHistory(r, t, pending);
    ghost var labels := (if first then [] else Opening(t)) + Middle(t);
    if stops {
      pending' := [];
      StopPass(r, t, labels, newMessages, small);
      r' := r.(turns := r.turns + [t], finished := true);
      agent.Arrivals();
      agent.Emit(AgentEnd(newMessages'));
    } else {
      pending' := agent.PollSteering(false);
      GoOnPass(r, t, labels, context, newMessages, pending', more, forced, small);
      r' := r.(turns := r.turns + [Steered(t, pending')]);
    }
  }

  /** The record of a turn that ends the run. */
  lemma StopPass(r: Run, t: Turn, labels: seq<Label>, newMessages: seq<Message>, small: bool)
    requires RunOk(r) && !r.finished && TurnOk(t) && Stops(t) && t.steering == t.followUps == []
    requires if r.turns == [] then FirstTurn(r, t) else Follows(r.turns[|r.turns|-1], t)
    requires labels == (if r.turns == [] then [] else Opening(t)) + Middle(t) && newMessages == NewMessages(r)
    requires small ==> SmallTurns(r.turns) && |t.carried| <= 1 && |t.repolled| <= 1
    ensures var s := r.(turns := r.turns + [t], finished := true);
      && RunOk(s) && NewMessages(s) == newMessages + Added(t)
      && Trace(r) + labels + [AgentEnd(newMessages + Added(t))] == Trace(s)
      && SteeringDelivered(s.turns) == SteeringDelivered(r.turns) + SteeringInHand(r) + t.repolled
           && SteeringInHand(s) == []
      && FollowUpsDelivered(s.turns) == FollowUpsDelivered(r.turns) + FollowUpsInHand(r) && FollowUpsInHand(s) == []
      && (small ==> SmallTurns(s.turns))
  {
    hide Middle, Opening, Closing, LastLabels, Added, TurnOk, Follows, FirstTurn, SteeringDelivered,
         FollowUpsDelivered, RunOk, Chain;
    StopTurn(r, t);
    PushDelivers(r, t);
    if small {
      PushSmall(r, t, t, []);
    }
    assert r.prompts + AllAdded(r.turns) + Added(t) == r.prompts + (AllAdded(r.turns) + Added(t));
    EndTrace(Prologue(r), TurnLabels(r.turns), labels, AgentEnd(newMessages + Added(t)));
    assert Prologue(r) + TurnLabels(r.turns) + [] == Prologue(r) + TurnLabels(r.turns);
  }

  /** The record of a turn after which the loop goes on to its test. */
  lemma GoOnPass(r: Run, t: Turn, labels: seq<Label>, context: Context, newMessages: seq<Message>, got: seq<Message>,
                 more: bool, forced: bool, small: bool)
    requires RunOk(r) && !r.finished && TurnOk(t) && !Stops(t) && t.steering == t.followUps == []
    requires if r.turns == [] then FirstTurn(r, t) else Follows(r.turns[|r.turns|-1], t)
    requires labels == (if r.turns == [] then [] else Opening(t)) + Middle(t) && newMessages == NewMessages(r)
    requires context == After(t) && more == More(t) && forced == (t.decision == Continue)
    requires small ==> SmallTurns(r.turns) && |t.carried| <= 1 && |t.repolled| <= 1
    ensures var s := r.(turns := r.turns + [Steered(t, got)]);
      && AtTest(s, Trace(r) + labels + [SteeringPoll(got)], context, newMessages + Added(t), got, more, forced)
      && SteeringDelivered(s.turns) == SteeringDelivered(r.turns) + SteeringInHand(r) + t.repolled
           && SteeringInHand(s) == got
      && FollowUpsDelivered(s.turns) == FollowUpsDelivered(r.turns) + FollowUpsInHand(r) && FollowUpsInHand(s) == []
      && (small ==> SmallTurns(s.turns))
  {
    hide Middle, Opening, Closing, LastLabels, Added, TurnOk, Follows, FirstTurn, SteeringDelivered,
         FollowUpsDelivered, RunOk, Chain, After, Continues, More, HalfLabels;
    var u := Steered(t, got);
    PushTurn(r, t, got);
    PushDelivers(r, u);
    if small {
      PushSmall(r, t, u, got);
    }
    assert r.prompts + AllAdded(r.turns) + Added(t) == r.prompts + (AllAdded(r.turns) + Added(t));
    EndTrace(Prologue(r), TurnLabels(r.turns), labels, SteeringPoll(got));
    assert Prologue(r) + TurnLabels(r.turns) + [] == Prologue(r) + TurnLabels(r.turns);
  }

  lemma EndTrace(a: seq<Label>, b: seq<Label>, c: seq<Label>, l: Label)
    ensures a + b + c + [l] == a + (b + c + [l])
    ensures a + b + c + [l] == a + (b + c) + [l]
  {
  }

  lemma PrologueShape(r: Run)
    ensures Prologue(r) == [AgentStart, TurnStart] + Commit(r.prompts) + [FirstPoll(r)]
  {
  }

  lemma AtTestStart(r: Run, trace: seq<Label>, context: Context, pending: seq<Message>)
    requires r.turns == [] && !r.finished && trace == Prologue(r) && pending == r.first && (r.skipped ==> r.first == [])
    requires context == Context(r.start.messages + r.prompts, r.start.tools)
    ensures AtTest(r, trace, context, r.prompts, pending, true, false)
  {
    EmptyHistory(r);
    assert Prologue(r) + [] == Prologue(r);
    assert r.prompts + [] == r.prompts;
  }

  /** What the loop knows when it leaves the inner loop. */
  lemma AtTestExit(r: Run, trace: seq<Label>, context: Context, newMessages: seq<Message>, forced: bool)
    requires AtTest(r, trace, context, newMessages, [], false, forced)
    ensures Chain(r) && !r.finished && r.turns != [] && trace == Prologue(r) + HalfLabels(r.turns)
    ensures newMessages == NewMessages(r) && context == After(r.turns[|r.turns|-1])
    ensures var t := r.turns[|r.turns|-1];
            t.steering == t.followUps == [] && !More(t) && !Stops(t) && (forced <==> t.decision == Continue)
  {
    hide TurnLabels, HalfLabels, Prologue, Chain, After, NewMessages;
    assert |SteeringInHand(r) + FollowUpsInHand(r)| == 0;
  }

  lemma AtTestAgain(r: Run, trace: seq<Label>, context: Context, newMessages: seq<Message>, pending: seq<Message>)
    requires Chain(r) && !r.finished && r.turns != [] && trace == Prologue(r) + TurnLabels(r.turns)
    requires newMessages == NewMessages(r) && context == After(r.turns[|r.turns|-1])
    requires pending == SteeringInHand(r) + FollowUpsInHand(r) && Continues(r.turns[|r.turns|-1])
    ensures AtTest(r, trace, context, newMessages, pending, true, false)
  {
  }

  lemma FinishRun(r: Run, trace: seq<Label>)
    requires Chain(r) && r.turns != [] && !Continues(r.turns[|r.turns|-1]) && trace == Prologue(r) + TurnLabels(r.turns)
    ensures RunOk(r.(finished := true)) && trace + [AgentEnd(NewMessages(r))] == Trace(r.(finished := true))
    ensures NewMessages(r.(finished := true)) == NewMessages(r)
  {
    FinishingKeepsChain(r);
    hide Chain, Continues, TurnLabels;
    assert Prologue(r.(finished := true)) == Prologue(r);
    hide Prologue;
  }

  /** The turns play the script in order, and a run stops short of finishing only when the script is over. */
  ghost predicate PlaysOut(r: Run, script: seq<Script>, sequential: bool) {
    && Played(r.turns, script, sequential)
    && (!r.finished ==> |r.turns| == |script|)
  }

  ghost predicate Played(ts: seq<Turn>, script: seq<Script>, sequential: bool) {
    |ts| <= |script| && forall i :: 0 <= i < |ts| ==> Plays(ts[i], script[i], sequential, i == 0)
  }

  lemma NothingPlayed(script: seq<Script>, sequential: bool)
    ensures Played([], script, sequential)
  {
  }

  lemma PlayedOneMore(ts: seq<Turn>, us: seq<Turn>, script: seq<Script>, sequential: bool)
    requires Played(ts, script, sequential) && |us| == |ts| + 1 <= |script| && us[..|ts|] == ts
    requires Plays(us[|ts|], script[|ts|], sequential, ts == [])
    ensures Played(us, script, sequential)
  {
    hide Plays;
    forall i | 0 <= i < |us| ensures Plays(us[i], script[i], sequential, i == 0) {
      assert i < |ts| ==> us[..|ts|][i] == ts[i];
    }
  }

  lemma PlayedWithFollowUps(ts: seq<Turn>, got: seq<Message>, script: seq<Script>, sequential: bool)
    requires ts != [] && Played(ts, script, sequential)
    ensures Played(WithFollowUps(ts, got), script, sequential)
  {
    hide OneByOne, StreamLabels;
    var us := WithFollowUps(ts, got);
    forall i | 0 <= i < |us| ensures Plays(us[i], script[i], sequential, i == 0) {
      assert Plays(ts[i], script[i], sequential, i == 0);
    }
  }

  /** runLoop: the nested loops, with what is left of the script as their measure. */
  method RunLoop(agent: Agent, initial: Context, initialMessages: seq<Message>, skip: bool, sequential: bool,
                 script: seq<Script>, ghost start: Context)
    returns (newMessages: seq<Message>, finished: bool, ghost r: Run)
    requires agent.Valid() && agent.activeRun
    requires agent.trace == [AgentStart, TurnStart] + Commit(initialMessages)
    requires initial == Context(start.messages + initialMessages, start.tools)
    modifies agent`messages, agent`streaming, agent`pendingToolCalls, agent`trace, agent.steeringQueue,
             agent.followUpQueue
    ensures agent.Valid() && RunOk(r) && agent.trace == Trace(r) && newMessages == NewMessages(r)
    ensures r.start == start && r.prompts == initialMessages && r.finished == finished
    ensures PlaysOut(r, script, sequential)
    ensures Conserved(agent, r, old(agent.steeringQueue.drained), old(agent.followUpQueue.drained))
    ensures r.skipped == skip
    ensures old(agent.steeringQueue.mode) == old(agent.followUpQueue.mode) == OneAtATime ==> SmallTurns(r.turns)
  {
    hide Agent.Valid, Ended, OpenCalls, Streaming, Middle, Opening, Closing, LastLabels, Commit, Added, After, TurnOk,
         Follows, FirstTurn, SteeringDelivered, FollowUpsDelivered, Queued, TurnLabels, HalfLabels, AtTest, Chain,
         NewMessages, Trace, Prologue, Continues, More, Stops, WithFollowUps, SteeringInHand, FollowUpsInHand, RunOk,
         Kept, Played, Plays;
    ghost var s0, f0 := agent.steeringQueue.drained, agent.followUpQueue.drained;
    ghost var small := agent.steeringQueue.mode == agent.followUpQueue.mode == OneAtATime;
    var current := initial;
    newMessages := initialMessages;
    var first, forced, played: nat := true, false, 0;
    var pending := agent.PollSteering(skip);
    ghost var r0 := Run(start, initialMessages, skip, pending, [], false);
    r := r0;
    EmptyHistory(r);
    NothingPlayed(script, sequential);
    PrologueShape(r);
    AtTestStart(r, agent.trace, current, pending);
    KeptStart(agent, r, s0, f0, small);
    while true
      invariant agent.Valid() && Kept(agent, r, r0, s0, f0, small) && (first <==> r.turns == [])
      invariant AtTest(r, agent.trace, current, newMessages, pending, true, forced)
      invariant |r.turns| == played <= |script| && Played(r.turns, script, sequential)
      decreases |script| - played
    {
      var more := true;
      ghost var before := played;
      while more || pending != []
        invariant agent.Valid() && Kept(agent, r, r0, s0, f0, small) && (first <==> r.turns == [])
        invariant AtTest(r, agent.trace, current, newMessages, pending, more, forced)
        invariant |r.turns| == played <= |script| && Played(r.turns, script, sequential)
        invariant before <= played && (!more && pending == [] ==> before < played)
        decreases |script| - played
      {
        AtTestIsOk(r, agent.trace, current, newMessages, pending, more, forced);
        if played == |script| {
          KeptEnd(agent, r, r0, s0, f0, small);
          finished := false;
          return;
        }
        KeptFrom(agent, r, r0, s0, f0, small);
        var stops;
        ghost var r';
        current, newMessages, pending, more, forced, stops, r' :=
          InnerPass(agent, current, newMessages, pending, script[played], first, sequential, r, s0, f0, small);
        KeptTo(agent, r', r, r0, s0, f0, small);
        PlayedOneMore(r.turns, r'.turns, script, sequential);
        r := r';
        played := played + 1;
        first := false;
        if stops {
          KeptEnd(agent, r, r0, s0, f0, small);
          finished := true;
          return;
        }
      }
      AtTestExit(r, agent.trace, current, newMessages, forced);
      KeptFrom(agent, r, r0, s0, f0, small);
      pending := AfterInner(agent, r, s0, f0, small);
      KeptTo(agent, r.(turns := WithFollowUps(r.turns, pending)), r, r0, s0, f0, small);
      PlayedWithFollowUps(r.turns, pending, script, sequential);
      r := r.(turns := WithFollowUps(r.turns, pending));
      if pending == [] && !forced {
        break;
      }
      forced := false;
      AtTestAgain(r, agent.trace, current, newMessages, pending);
    }
    FinishRun(r, agent.trace);
    KeptEnd(agent, r, r0, s0, f0, small);
    agent.Arrivals();
    agent.Emit(AgentEnd(newMessages));
    r := r.(finished := true);
    finished := true;
  }

  /** Line 311: the follow-up poll, which completes the last turn's record. */
  method AfterInner(agent: Agent, ghost r: Run, ghost s0: seq<Message>, ghost f0: seq<Message>, ghost small: bool)
    returns (got: seq<Message>)
    requires agent.Valid() && Kept(agent, r, r, s0, f0, small) && Chain(r) && r.turns != []
    requires agent.trace == Prologue(r) + HalfLabels(r.turns)
    requires var t := r.turns[|r.turns|-1]; t.steering == t.followUps == [] && !More(t) && !Stops(t)
    modifies agent`messages, agent`streaming, agent`pendingToolCalls, agent`trace, agent.steeringQueue,
             agent.followUpQueue
    ensures agent.Valid()
    ensures var s := r.(turns := WithFollowUps(r.turns, got));
      && Kept(agent, s, r, s0, f0, small) && Chain(s) && |s.turns| == |r.turns|
      && agent.trace == Prologue(s) + TurnLabels(s.turns)
      && NewMessages(s) == NewMessages(r) && After(s.turns[|s.turns|-1]) == After(r.turns[|r.turns|-1])
      && SteeringInHand(s) + FollowUpsInHand(s) == got
      && (Continues(s.turns[|s.turns|-1]) <==> got != [] || r.turns[|r.turns|-1].decision == Continue)
  {
    hide Agent.Valid, Ended, OpenCalls, Streaming, Middle, Opening, Closing, LastLabels, Commit, Added, After, TurnOk,
         Follows, FirstTurn, SteeringDelivered, FollowUpsDelivered, TurnLabels, HalfLabels, Chain, AllAdded;
    got := agent.PollFollowUp();
    CompleteTurn(r, got);
    SameDelivered(r.turns, got);
    if small {
      SmallAfter(r.turns, got);
    }
    assert Prologue(r) + HalfLabels(r.turns) + [FollowUpPoll(got)]
      == Prologue(r) + (HalfLabels(r.turns) + [FollowUpPoll(got)]);
  }

  lemma SmallAfter(ts: seq<Turn>, got: seq<Message>)
    requires ts != [] && SmallTurns(ts)
    ensures SmallTurns(WithFollowUps(ts, got))
  {
    var us := WithFollowUps(ts, got);
    forall i | 0 <= i < |us| ensures |Queued(us[i])| <= 1 {
      assert Queued(us[i]) == Queued(ts[i]);
    }
  }

  // ----- Entry points -----

  /** Every queued message is delivered, in hand, or still queued, in the order it was enqueued. */
  ghost predicate QueuesConserved(agent: Agent, r: Run, s0: seq<Message>, f0: seq<Message>)
    reads agent.steeringQueue, agent.followUpQueue
  {
    && agent.steeringQueue.enqueued == s0 + SteeringDelivered(r.turns) + SteeringInHand(r)
         + agent.steeringQueue.messages
    && agent.followUpQueue.enqueued == f0 + FollowUpsDelivered(r.turns) + FollowUpsInHand(r)
         + agent.followUpQueue.messages
  }

  /** What a run from `messages` with `tools` leaves behind, finished or at the end of its script. */
  ghost predicate Ran(agent: Agent, r: Run, messages: seq<Message>, tools: seq<Tool>, script: seq<Script>,
                      sequential: bool)
    reads agent
  {
    && PlaysOut(r, script, sequential)
    && RunOk(r) && r.start == Context(messages, tools)
    && agent.trace == Trace(r)
    && agent.messages == messages + NewMessages(r)
  }

  /** runAgentLoop, on the agent's own snapshot and queues. */
  method RunAgentLoop(agent: Agent, prompts: seq<Message>, skip: bool, sequential: bool, script: seq<Script>)
    returns (newMessages: seq<Message>, finished: bool, ghost r: Run)
    requires agent.Valid() && agent.activeRun && agent.trace == []
    modifies agent`messages, agent`streaming, agent`pendingToolCalls, agent`trace, agent.steeringQueue,
             agent.followUpQueue
    ensures agent.Valid() && newMessages == NewMessages(r) && finished == r.finished
    ensures Ran(agent, r, old(agent.messages), agent.tools, script, sequential)
    ensures r.prompts == DeclareToolChanges(old(agent.messages), agent.tools, prompts)
    ensures QueuesConserved(agent, r, old(agent.steeringQueue.drained), old(agent.followUpQueue.drained))
    ensures r.skipped == skip
    ensures old(agent.steeringQueue.mode) == old(agent.followUpQueue.mode) == OneAtATime ==> SmallTurns(r.turns)
  {
    hide Ended, OpenCalls, Streaming, Commit, DeclareToolChanges, NewMessages, RunOk, Trace, SteeringDelivered,
         FollowUpsDelivered, SmallTurns;
    var initial := DeclareToolChanges(agent.messages, agent.tools, prompts);
    ghost var start := Context(agent.messages, agent.tools);
    var context := Context(agent.messages + initial, agent.tools);
    ghost var labels := Say(agent, AgentStart, [], []);
    labels := Say(agent, TurnStart, [], labels);
    CommitAll(agent, initial, [AgentStart, TurnStart]);
    newMessages, finished, r := RunLoop(agent, context, initial, skip, sequential, script, start);
    TranscriptIsNewMessages(r);
    EndedNothing();
  }

  /** runAgentLoopContinue: needs a transcript that does not end with an assistant message. */
  method RunAgentLoopContinue(agent: Agent, sequential: bool, script: seq<Script>)
    returns (result: Result<seq<Message>>, finished: bool, ghost r: Run)
    requires agent.Valid() && agent.activeRun && agent.trace == []
    modifies agent`messages, agent`streaming, agent`pendingToolCalls, agent`trace, agent.steeringQueue,
             agent.followUpQueue
    ensures agent.Valid()
    ensures result.Ok? <==> old(agent.messages) != [] && !old(agent.messages)[|old(agent.messages)|-1].Assistant?
    ensures result.Ok? ==>
      && result.value == NewMessages(r) && finished == r.finished && r.prompts == [] && !r.skipped
      && Ran(agent, r, old(agent.messages), agent.tools, script, sequential)
      && QueuesConserved(agent, r, old(agent.steeringQueue.drained), old(agent.followUpQueue.drained))
      && (old(agent.steeringQueue.mode) == old(agent.followUpQueue.mode) == OneAtATime ==> SmallTurns(r.turns))
  {
    hide Ended, OpenCalls, Streaming, Commit, DeclareToolChanges, NewMessages, RunOk, Trace, SteeringDelivered,
         FollowUpsDelivered, SmallTurns;
    finished := true;
    r := Run(Context([], []), [], false, [], [], false);
    if agent.messages == [] {
      return Err("Cannot continue: no messages in context"), finished, r;
    }
    if agent.messages[|agent.messages|-1].Assistant? {
      return Err("Cannot continue from message role: assistant"), finished, r;
    }
    ghost var start := Context(agent.messages, agent.tools);
    var context := Context(agent.messages, agent.tools);
    ghost var labels := Say(agent, AgentStart, [], []);
    labels := Say(agent, TurnStart, [], labels);
    CommitNothing();
    var newMessages;
    newMessages, finished, r := RunLoop(agent, context, [], false, sequential, script, start);
    TranscriptIsNewMessages(r);
    EndedNothing();
    result := Ok(newMessages);
  }

  lemma EndedNothing()
    ensures Ended([]) == []
  {
  }

  lemma CommitNothing()
    ensures Commit([]) == []
  {
  }

  /** prompt: refused while a run is active; a finished run leaves the agent idle. */
  method Prompt(agent: Agent, prompts: seq<Message>, sequential: bool, script: seq<Script>)
    returns (result: Result<bool>, ghost r: Run)
    requires agent.Valid()
    modifies agent, agent.steeringQueue, agent.followUpQueue
    ensures agent.Valid()
    ensures result.Err? <==> old(agent.activeRun)
    ensures result.Err? ==> agent.messages == old(agent.messages) && agent.trace == old(agent.trace) && agent.activeRun
    ensures result.Ok? ==>
      && Ran(agent, r, old(agent.messages), old(agent.tools), script, sequential) && agent.tools == old(agent.tools)
      && r.prompts == DeclareToolChanges(old(agent.messages), old(agent.tools), prompts) && !r.skipped
      && QueuesConserved(agent, r, old(agent.steeringQueue.drained), old(agent.followUpQueue.drained))
      && result.value == r.finished && agent.isStreaming == agent.activeRun == !r.finished
  {
    result, r := RunPrompt(agent, prompts, false, sequential, script);
  }

  /** runPromptMessages inside runWithLifecycle. */
  method RunPrompt(agent: Agent, prompts: seq<Message>, skip: bool, sequential: bool, script: seq<Script>)
    returns (result: Result<bool>, ghost r: Run)
    requires agent.Valid()
    modifies agent, agent.steeringQueue, agent.followUpQueue
    ensures agent.Valid()
    ensures result.Err? <==> old(agent.activeRun)
    ensures result.Err? ==> agent.messages == old(agent.messages) && agent.trace == old(agent.trace) && agent.activeRun
    ensures result.Ok? ==>
      && Ran(agent, r, old(agent.messages), old(agent.tools), script, sequential) && agent.tools == old(agent.tools)
      && r.prompts == DeclareToolChanges(old(agent.messages), old(agent.tools), prompts)
      && QueuesConserved(agent, r, old(agent.steeringQueue.drained), old(agent.followUpQueue.drained))
      && result.value == r.finished && agent.isStreaming == agent.activeRun == !r.finished
      && r.skipped == skip
      && (old(agent.steeringQueue.mode) == old(agent.followUpQueue.mode) == OneAtATime ==> SmallTurns(r.turns))
  {
    hide Ended, OpenCalls, Streaming, DeclareToolChanges, NewMessages, RunOk, Trace, SteeringDelivered,
         FollowUpsDelivered, SmallTurns;
    r := Run(Context([], []), [], false, [], [], false);
    if agent.activeRun {
      return Err("Agent is already processing."), r;
    }
    agent.Begin();
    var newMessages, finished;
    newMessages, finished, r := RunAgentLoop(agent, prompts, skip, sequential, script);
    if finished {
      agent.FinishRun();
    }
    result := Ok(finished);
  }

  datatype Continued = FromSteering | FromFollowUps | FromTranscript

  /**
   * The first turn of a continued run injects at most one queued message, the drained ones included,
   * exactly unless a queued follow-up started it and the initial steering poll took a message too.
   */
  ghost predicate OneFirst(r: Run, drained: seq<Message>, from: Continued) {
    r.turns != [] ==> (|drained| + |Queued(r.turns[0])| <= 1 <==> !(from == FromFollowUps && r.first != []))
  }

  lemma FirstTurnQueues(r: Run, drained: seq<Message>, from: Continued)
    requires RunOk(r) && SmallTurns(r.turns)
    requires if from == FromTranscript then drained == [] else |drained| == 1
    requires from == FromSteering ==> r.skipped
    ensures OneFirst(r, drained, from)
  {
    if r.turns != [] {
      assert FirstTurn(r, r.turns[0]);
    }
  }

  const ANSWER := Assistant(Stop, [], "answer")
  const LATER := Other("user", "later")
  const NOW := Other("user", "now")
  const FAILURE := Assistant(Error, [], "")

  /** A turn that injects "now" and whose reply fails. */
  function SharedTurn(): Turn {
    TurnRecord(None, [], [NOW], [], Context([ANSWER, LATER], []), None, [MessageStart(FAILURE), MessageEnd(FAILURE)],
               FAILURE, [], [], [], BatchWorld(false, []), Proceed, [], [])
  }

  /** A run that the queued follow-up "later" started, with "now" taken by the initial steering poll. */
  function SharedRun(): Run {
    Run(Context([ANSWER], []), [LATER], false, [NOW], [SharedTurn()], true)
  }

  /** A follow-up was queued alone, steering arrived before the initial poll: the first turn injects both. */
  lemma FollowUpAndSteeringShareATurn()
    ensures var r := SharedRun();
      && RunOk(r) && r.finished && r.prompts == DeclareToolChanges(r.start.messages, r.start.tools, [LATER])
      && r.turns[0].before.messages == [ANSWER, LATER] && Injected(r.turns[0]) == [NOW]
      && |[LATER]| + |Queued(r.turns[0])| == 2
  {
    hide DeclareToolChanges;
    NothingToDeclare([ANSWER], LATER);
    NothingToDeclare([ANSWER, LATER], NOW);
    assert [ANSWER] + [LATER] == [ANSWER, LATER] && [] + [NOW] == [NOW];
    assert SharedRun().turns == [SharedTurn()];
    assert TurnOk(SharedTurn()) && FirstTurn(SharedRun(), SharedTurn());
  }

  lemma NothingToDeclare(transcript: seq<Message>, m: Message)
    requires !m.System? && forall i :: 0 <= i < |transcript| ==> !transcript[i].System?
    ensures DeclareToolChanges(transcript, [], [m]) == [m]
  {
    assert Baseline([m]) == [m];
    assert [] + (transcript + [m]) == transcript + [m];
    ReplayOrdinary([], transcript + [m]);
    assert CurrentTools([]) == [];
  }

  /** All messages are system messages, or there are none: nothing to continue from. */
  predicate NothingToContinue(ms: seq<Message>) {
    forall i :: 0 <= i < |ms| ==> ms[i].System?
  }

  /** The queue branch of continue; a drained queue that yields nothing is unchanged. */
  method ContinueFromQueues(agent: Agent, sequential: bool, script: seq<Script>)
    returns (result: Result<Continued>, ghost drained: seq<Message>, ghost r: Run)
    requires agent.Valid() && !agent.activeRun
    modifies agent, agent.steeringQueue, agent.followUpQueue
    ensures agent.Valid()
    ensures result.Err? <==> old(agent.steeringQueue.messages) == [] == old(agent.followUpQueue.messages)
    ensures result.Err? ==>
      && agent.messages == old(agent.messages)
      && agent.steeringQueue.messages == old(agent.steeringQueue.messages)
      && agent.followUpQueue.messages == old(agent.followUpQueue.messages)
    ensures result.Ok? ==>
      && Ran(agent, r, old(agent.messages), old(agent.tools), script, sequential)
      && r.prompts == DeclareToolChanges(old(agent.messages), old(agent.tools), drained)
      && result.value != FromTranscript && (r.skipped <==> result.value == FromSteering)
      && (result.value == FromSteering ==> drained == old(agent.steeringQueue.Peek()) != [])
      && (result.value == FromFollowUps ==>
            old(agent.steeringQueue.messages) == [] && drained == old(agent.followUpQueue.Peek()) != [])
      && QueuesConserved(agent, r,
           old(agent.steeringQueue.drained) + (if result.value == FromSteering then drained else []),
           old(agent.followUpQueue.drained) + (if result.value == FromFollowUps then drained else []))
      && agent.isStreaming == agent.activeRun == !r.finished
      && (old(agent.steeringQueue.mode) == old(agent.followUpQueue.mode) == OneAtATime ==>
            SmallTurns(r.turns) && OneFirst(r, drained, result.value))
  {
    hide Ended, OpenCalls, Streaming, DeclareToolChanges, NewMessages, RunOk, Trace, SteeringDelivered,
         FollowUpsDelivered, SmallTurns, PlaysOut, SteeringInHand, FollowUpsInHand, OneFirst;
    r := Run(Context([], []), [], false, [], [], false);
    ghost var small := agent.steeringQueue.mode == agent.followUpQueue.mode == OneAtATime;
    var started;
    var queued := agent.steeringQueue.Drain();
    drained := queued;
    if queued != [] {
      started, r := RunPrompt(agent, queued, true, sequential, script);
      if small {
        FirstTurnQueues(r, drained, FromSteering);
      }
      return Ok(FromSteering), drained, r;
    }
    queued := agent.followUpQueue.Drain();
    drained := queued;
    if queued != [] {
      started, r := RunPrompt(agent, queued, false, sequential, script);
      if small {
        FirstTurnQueues(r, drained, FromFollowUps);
      }
      return Ok(FromFollowUps), drained, r;
    }
    result := Err("Cannot continue from message role: assistant");
  }

  /** runContinuation inside runWithLifecycle, on a transcript that does not end with an assistant message. */
  method ContinueTranscript(agent: Agent, sequential: bool, script: seq<Script>) returns (ghost r: Run)
    requires agent.Valid() && !agent.activeRun
    requires agent.messages != [] && !agent.messages[|agent.messages|-1].Assistant?
    modifies agent, agent.steeringQueue, agent.followUpQueue
    ensures agent.Valid() && Ran(agent, r, old(agent.messages), old(agent.tools), script, sequential) && r.prompts == []
    ensures !r.skipped
    ensures QueuesConserved(agent, r, old(agent.steeringQueue.drained) + [], old(agent.followUpQueue.drained) + [])
    ensures agent.isStreaming == agent.activeRun == !r.finished
    ensures old(agent.steeringQueue.mode) == old(agent.followUpQueue.mode) == OneAtATime ==>
      SmallTurns(r.turns) && OneFirst(r, [], FromTranscript)
  {
    hide Ended, OpenCalls, Streaming, DeclareToolChanges, NewMessages, RunOk, Trace, SteeringDelivered,
         FollowUpsDelivered, SmallTurns, PlaysOut, SteeringInHand, FollowUpsInHand, OneFirst;
    ghost var small := agent.steeringQueue.mode == agent.followUpQueue.mode == OneAtATime;
    agent.Begin();
    var inner, finished;
    inner, finished, r := RunAgentLoopContinue(agent, sequential, script);
    if finished {
      agent.FinishRun();
    }
    if small {
      FirstTurnQueues(r, [], FromTranscript);
    }
  }

  /**
   * continue: after an assistant message it prompts with queued steering (whose initial poll is then
   * skipped), else with queued follow-ups; otherwise it continues the transcript.
   */
  method ContinueAgent(agent: Agent, sequential: bool, script: seq<Script>)
    returns (result: Result<Continued>, ghost drained: seq<Message>, ghost r: Run)
    requires agent.Valid()
    modifies agent, agent.steeringQueue, agent.followUpQueue
    ensures agent.Valid()
    ensures old(agent.activeRun) || NothingToContinue(old(agent.messages)) ==> result.Err?
    ensures result.Err? ==>
      && agent.messages == old(agent.messages)
      && agent.steeringQueue.messages == old(agent.steeringQueue.messages)
      && agent.followUpQueue.messages == old(agent.followUpQueue.messages)
    ensures result.Err? && !old(agent.activeRun) && !NothingToContinue(old(agent.messages)) ==>
      old(agent.messages)[|old(agent.messages)|-1].Assistant?
        && old(agent.steeringQueue.messages) == [] == old(agent.followUpQueue.messages)
    ensures result.Ok? ==>
      && Ran(agent, r, old(agent.messages), old(agent.tools), script, sequential)
      && r.prompts == (if result.value == FromTranscript then []
           else DeclareToolChanges(old(agent.messages), old(agent.tools), drained))
      && (result.value == FromTranscript <==> !old(agent.messages)[|old(agent.messages)|-1].Assistant?)
      && (r.skipped <==> result.value == FromSteering)
      && (result.value == FromSteering ==> drained == old(agent.steeringQueue.Peek()) != [])
      && (result.value == FromFollowUps ==>
            old(agent.steeringQueue.messages) == [] && drained == old(agent.followUpQueue.Peek()) != [])
      && QueuesConserved(agent, r,
           old(agent.steeringQueue.drained) + (if result.value == FromSteering then drained else []),
           old(agent.followUpQueue.drained) + (if result.value == FromFollowUps then drained else []))
      && agent.isStreaming == agent.activeRun == !r.finished
      && (old(agent.steeringQueue.mode) == old(agent.followUpQueue.mode) == OneAtATime ==>
            SmallTurns(r.turns) && OneFirst(r, drained, result.value))
  {
    hide Ended, OpenCalls, Streaming, DeclareToolChanges, NewMessages, RunOk, Trace, SteeringDelivered,
         FollowUpsDelivered, SmallTurns, PlaysOut, SteeringInHand, FollowUpsInHand, OneFirst, Ran,
         QueuesConserved;
    r := Run(Context([], []), [], false, [], [], false);
    drained := [];
    if agent.activeRun {
      return Err("Agent is already processing. Wait for completion before continuing."), drained, r;
    }
    if NothingToContinue(agent.messages) {
      return Err("No messages to continue from"), drained, r;
    }
    if agent.messages[|agent.messages|-1].Assistant? {
      result, drained, r := ContinueFromQueues(agent, sequential, script);
      return;
    }
    r := ContinueTranscript(agent, sequential, script);
    result := Ok(FromTranscript);
  }
}
