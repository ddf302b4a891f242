/**
 * The tool executors of shell/pi/packages/agent/src/agent-loop.ts.  Tools, hooks and the abort
 * signal are the environment: their answers are arbitrary, and the parallel executor is driven by
 * an arbitrary scheduler for any number of steps, after which every call settles.
 */
module ToolExecution {
  import opened Wrappers
  import opened AgentMessages
  import opened AgentTrace
  import opened AgentState
  import opened ToolBatch
  import opened ToolChanges

  const TRUNCATED :=
    " was not executed: the response hit the output token limit, so its arguments may be truncated. Re-issue the tool "
    + "call with complete arguments."

  function TruncatedOutcome(call: ToolCall): Outcome {
    ErrorOutcome("Tool call \"" + call.name + "\"" + TRUNCATED)
  }

  /** Every call reports the truncation. */
  ghost predicate AllTruncated(calls: seq<ToolCall>, outcomes: seq<Outcome>) {
    |outcomes| == |calls| && forall k :: 0 <= k < |calls| ==> outcomes[k] == TruncatedOutcome(calls[k])
  }

  lemma TruncatedFails(calls: seq<ToolCall>, outcomes: seq<Outcome>)
    requires AllTruncated(calls, outcomes)
    ensures |outcomes| == |calls| && forall k :: 0 <= k < |calls| ==> outcomes[k].isError && !outcomes[k].terminate
  {
    hide TRUNCATED;
  }

  /** Emit one label; the run's trace is t0 followed by this batch's labels. */
  method Fire(agent: Agent, ghost calls: seq<ToolCall>, ghost t0: seq<Label>, ghost labels: seq<Label>, l: Label)
    returns (ghost extended: seq<Label>)
    requires agent.Valid() && agent.activeRun && agent.trace == t0 + labels
    modifies agent`messages, agent`streaming, agent`pendingToolCalls, agent`trace
    ensures agent.Valid() && agent.trace == t0 + extended
    ensures extended == labels + [l] && Observe(calls, extended) == Advance(calls, Observe(calls, labels), l)
  {
    agent.Emit(l);
    extended := labels + [l];
    Push(calls, labels, l);
  }

  // ----- Preparing one call -----

  datatype Preparation = Immediate(outcome: Outcome) | Prepared

  /** The answer to a call that does not get to run: a missing tool first, then a failure, an abort, a block. */
  function Refusal(tools: seq<Tool>, call: ToolCall, preflight: Preflight, aborted: bool): Outcome {
    if !HasName(tools, call.name) then ErrorOutcome("Tool " + call.name + " not found")
    else if preflight.Throws? then ErrorOutcome(preflight.message)
    else if aborted || preflight.Allows? then ABORTED
    else Outcome(preflight.reason, true, preflight.terminate)
  }

  /** prepareToolCall.  The signal may fire meanwhile; once it has, it stays so. */
  method PrepareToolCall(tools: seq<Tool>, call: ToolCall, abortedBefore: bool, w: CallWorld)
    returns (p: Preparation, aborted: bool)
    ensures aborted == (abortedBefore || w.firesBefore)
    ensures p.Prepared? <==> HasName(tools, call.name) && w.preflight.Allows? && !aborted
    ensures p.Immediate? ==> p.outcome == Refusal(tools, call, w.preflight, aborted)
    ensures p.Immediate? ==> RefusedWith(p.outcome, tools, call, w.preflight, aborted)
  {
    aborted := abortedBefore || w.firesBefore;
    if !HasName(tools, call.name) {
      return Immediate(ErrorOutcome("Tool " + call.name + " not found")), aborted;
    }
    match w.preflight {
      case Throws(message) => p := Immediate(ErrorOutcome(message));
      case Blocks(reason, terminate) =>
        p := Immediate(if aborted then ABORTED else Outcome(reason, true, terminate));
      case Allows =>
        p := if aborted then Immediate(ABORTED) else Prepared;
    }
  }

  /** finalizeExecutedToolCall */
  function Finalize(executed: Outcome, after: Override): Outcome {
    match after
    case Fails(message) => ErrorOutcome(message)
    case Keeps => executed
    case Replaces(c, e, t) =>
      Outcome(if c.Some? then c.value else executed.content,
              if e.Some? then e.value else executed.isError,
              if t.Some? then t.value else executed.terminate)
  }

  lemma NothingToReport(tools: seq<Tool>, calls: seq<ToolCall>, w: BatchWorld)
    requires |w.calls| == |calls|
    ensures AllReport(tools, calls, w, [], [])
    ensures calls == [] ==> CutByAbort(w, 0)
  {
  }

  lemma OneMoreReport(tools: seq<Tool>, calls: seq<ToolCall>, w: BatchWorld, outcomes: seq<Outcome>,
                      answers: seq<Answer>, o: Outcome, a: Answer)
    requires AllReport(tools, calls, w, outcomes, answers) && |outcomes| < |calls|
    requires Reports(tools, calls[|outcomes|], w, |outcomes|, o, a)
    ensures AllReport(tools, calls, w, outcomes + [o], answers + [a])
  {
  }

  lemma ReportsFailUnknown(tools: seq<Tool>, calls: seq<ToolCall>, w: BatchWorld, outcomes: seq<Outcome>,
                           answers: seq<Answer>)
    requires AllReport(tools, calls, w, outcomes, answers)
    ensures UnknownToolsFail(tools, calls, outcomes)
  {
  }

  // ----- Sequential -----

  ghost predicate UnknownToolsFail(tools: seq<Tool>, calls: seq<ToolCall>, outcomes: seq<Outcome>)
    requires |outcomes| <= |calls|
  {
    forall k :: 0 <= k < |outcomes| && !HasName(tools, calls[k].name) ==> outcomes[k].isError
  }

  lemma PushOneByOne(calls: seq<ToolCall>, ls: seq<Label>, l: Label)
    requires OneByOne(calls, ls)
    requires l.ToolStart? ==> Observe(calls, ls).Active? && l.k == Observe(calls, ls).reported
    ensures OneByOne(calls, ls + [l])
  {
    forall i | 0 <= i < |ls + [l]| && (ls + [l])[i].ToolStart?
      ensures Observe(calls, (ls + [l])[..i]).Active? && (ls + [l])[i].k == Observe(calls, (ls + [l])[..i]).reported
    {
      assert (ls + [l])[..i] == ls[..i];
      assert ls[..|ls|] == ls;
    }
  }

  /** The batch right after call |outcomes| has started. */
  ghost function StartedNext(calls: seq<ToolCall>, outcomes: seq<Outcome>): Batch
    requires |outcomes| < |calls|
  {
    Active(Done(calls, outcomes).stages[|outcomes| := Running], |outcomes|, false)
  }

  lemma StartNext(calls: seq<ToolCall>, outcomes: seq<Outcome>, k: nat)
    requires k == |outcomes| < |calls|
    ensures Advance(calls, Done(calls, outcomes), ToolStart(k, calls[k])) == StartedNext(calls, outcomes)
  {
  }

  lemma UpdateNext(calls: seq<ToolCall>, outcomes: seq<Outcome>, k: nat, partial: string)
    requires k == |outcomes| < |calls|
    ensures Advance(calls, StartedNext(calls, outcomes), ToolUpdate(k, calls[k], partial))
      == StartedNext(calls, outcomes)
  {
  }

  lemma ReportNext(calls: seq<ToolCall>, outcomes: seq<Outcome>, k: nat, o: Outcome)
    requires k == |outcomes| < |calls|
    ensures var m := ResultMessage(calls[k], o);
            var b := Advance(calls, StartedNext(calls, outcomes), ToolEnd(k, calls[k], o));
            Advance(calls, Advance(calls, b, MessageStart(m)), MessageEnd(m)) == Done(calls, outcomes + [o])
  {
    var b := Advance(calls, StartedNext(calls, outcomes), ToolEnd(k, calls[k], o));
    assert b.stages == Done(calls, outcomes + [o]).stages;
  }

  lemma NothingStarted(calls: seq<ToolCall>)
    ensures Observe(calls, []) == Done(calls, []) && OneByOne(calls, [])
  {
    assert Fresh(|calls|).stages == Done(calls, []).stages;
  }

  /** execute and its callback: updates are forwarded until the tool settles. */
  method Execute(agent: Agent, calls: seq<ToolCall>, ghost outcomes: seq<Outcome>, ghost t0: seq<Label>,
                 ghost before: seq<Label>, k: nat, w: CallWorld)
    returns (o: Outcome, ghost labels: seq<Label>)
    requires agent.Valid() && agent.activeRun && agent.trace == t0 + before
    requires k == |outcomes| < |calls|
    requires Observe(calls, before) == StartedNext(calls, outcomes) && OneByOne(calls, before)
    modifies agent`messages, agent`streaming, agent`pendingToolCalls, agent`trace
    ensures agent.Valid() && agent.trace == t0 + labels
    ensures Observe(calls, labels) == StartedNext(calls, outcomes) && OneByOne(calls, labels)
    ensures Finalized(o, w.executed, w.after)
  {
    labels := before;
    var updates: nat :| true;
    for i := 0 to updates
      invariant agent.Valid() && agent.activeRun && agent.trace == t0 + labels
      invariant Observe(calls, labels) == StartedNext(calls, outcomes) && OneByOne(calls, labels)
    {
      var partial: string := *;
      UpdateNext(calls, outcomes, k, partial);
      PushOneByOne(calls, labels, ToolUpdate(k, calls[k], partial));
      labels := Fire(agent, calls, t0, labels, ToolUpdate(k, calls[k], partial));
    }
    o := Finalize(w.executed, w.after);
  }

  /** End the started call and commit its result message. */
  method Report(agent: Agent, calls: seq<ToolCall>, ghost outcomes: seq<Outcome>, ghost t0: seq<Label>,
                ghost before: seq<Label>, k: nat, o: Outcome)
    returns (ghost labels: seq<Label>)
    requires agent.Valid() && agent.activeRun && agent.trace == t0 + before
    requires k == |outcomes| < |calls|
    requires Observe(calls, before) == StartedNext(calls, outcomes) && OneByOne(calls, before)
    modifies agent`messages, agent`streaming, agent`pendingToolCalls, agent`trace
    ensures agent.Valid() && agent.trace == t0 + labels
    ensures Completed(calls, labels, outcomes + [o]) && OneByOne(calls, labels)
  {
    ReportNext(calls, outcomes, k, o);
    var result := ResultMessage(calls[k], o);
    PushOneByOne(calls, before, ToolEnd(k, calls[k], o));
    labels := Fire(agent, calls, t0, before, ToolEnd(k, calls[k], o));
    PushOneByOne(calls, labels, MessageStart(result));
    labels := Fire(agent, calls, t0, labels, MessageStart(result));
    PushOneByOne(calls, labels, MessageEnd(result));
    labels := Fire(agent, calls, t0, labels, MessageEnd(result));
  }

  method Start(agent: Agent, calls: seq<ToolCall>, ghost outcomes: seq<Outcome>, ghost t0: seq<Label>,
               ghost before: seq<Label>, k: nat)
    returns (ghost labels: seq<Label>)
    requires agent.Valid() && agent.activeRun && agent.trace == t0 + before
    requires k == |outcomes| < |calls|
    requires Completed(calls, before, outcomes) && OneByOne(calls, before)
    modifies agent`messages, agent`streaming, agent`pendingToolCalls, agent`trace
    ensures agent.Valid() && agent.trace == t0 + labels
    ensures Observe(calls, labels) == StartedNext(calls, outcomes) && OneByOne(calls, labels)
  {
    StartNext(calls, outcomes, k);
    PushOneByOne(calls, before, ToolStart(k, calls[k]));
    labels := Fire(agent, calls, t0, before, ToolStart(k, calls[k]));
  }

  /** executeToolCallsSequential: an abort stops the batch after the current call. */
  method ExecuteSequential(agent: Agent, tools: seq<Tool>, calls: seq<ToolCall>, w: BatchWorld)
    returns (outcomes: seq<Outcome>, ghost labels: seq<Label>, ghost answers: seq<Answer>)
    requires agent.Valid() && agent.activeRun && |w.calls| == |calls|
    modifies agent`messages, agent`streaming, agent`pendingToolCalls, agent`trace
    ensures agent.Valid() && agent.trace == old(agent.trace) + labels
    ensures Completed(calls, labels, outcomes) && OneByOne(calls, labels)
    ensures AllReport(tools, calls, w, outcomes, answers) && UnknownToolsFail(tools, calls, outcomes)
    ensures forall k :: 0 <= k < |answers| ==> !answers[k].Unlaunched?
    ensures CutByAbort(w, |outcomes|)
  {
    hide Advance, Observe, Done, OneByOne, AllReport, RefusedWith, Finalized;
    ghost var t0 := agent.trace;
    outcomes, labels, answers := [], [], [];
    var aborted := w.fired;
    NothingStarted(calls);
    NothingToReport(tools, calls, w);
    var k := 0;
    while k < |calls|
      invariant agent.Valid() && agent.activeRun && agent.trace == t0 + labels
      invariant k == |outcomes| <= |calls|
      invariant Completed(calls, labels, outcomes) && OneByOne(calls, labels)
      invariant AllReport(tools, calls, w, outcomes, answers)
      invariant forall j :: 0 <= j < |answers| ==> !answers[j].Unlaunched?
      invariant aborted == Fired(w, k) && forall j :: 0 < j <= k ==> !Fired(w, j)
    {
      labels := Start(agent, calls, outcomes, t0, labels, k);
      var p, o;
      ghost var answer;
      p, aborted := PrepareToolCall(tools, calls[k], aborted, w.calls[k]);
      if p.Immediate? {
        o := p.outcome;
        answer := Refused;
      } else {
        o, labels := Execute(agent, calls, outcomes, t0, labels, k, w.calls[k]);
        answer := Ran;
      }
      labels := Report(agent, calls, outcomes, t0, labels, k, o);
      OneMoreReport(tools, calls, w, outcomes, answers, o, answer);
      outcomes, answers := outcomes + [o], answers + [answer];
      aborted := aborted || w.calls[k].firesLater;
      k := k + 1;
      if aborted {
        break;
      }
    }
    ReportsFailUnknown(tools, calls, w, outcomes, answers);
  }

  /** failToolCallsFromTruncatedMessage: no call runs, every call reports the truncation. */
  method FailTruncated(agent: Agent, calls: seq<ToolCall>) returns (outcomes: seq<Outcome>, ghost labels: seq<Label>)
    requires agent.Valid() && agent.activeRun
    modifies agent`messages, agent`streaming, agent`pendingToolCalls, agent`trace
    ensures agent.Valid() && agent.trace == old(agent.trace) + labels
    ensures Completed(calls, labels, outcomes) && OneByOne(calls, labels)
    ensures AllTruncated(calls, outcomes)
  {
    hide Advance, Observe, Done, OneByOne, TruncatedOutcome;
    ghost var t0 := agent.trace;
    outcomes, labels := [], [];
    NothingStarted(calls);
    for k := 0 to |calls|
      invariant agent.Valid() && agent.activeRun && agent.trace == t0 + labels
      invariant k == |outcomes| && Completed(calls, labels, outcomes) && OneByOne(calls, labels)
      invariant forall j :: 0 <= j < k ==> outcomes[j] == TruncatedOutcome(calls[j])
    {
      labels := Start(agent, calls, outcomes, t0, labels, k);
      labels := Report(agent, calls, outcomes, t0, labels, k, TruncatedOutcome(calls[k]));
      outcomes := outcomes + [TruncatedOutcome(calls[k])];
    }
  }

  // ----- Parallel -----

  /** A call's place in the parallel executor; Returned no longer accepts updates. */
  datatype Task = Waiting | Executing | Returned(executed: Outcome) | Settled(outcome: Outcome)

  ghost function StageOf(t: Task): Stage {
    if t.Settled? then Finished(t.outcome) else Running
  }

  /** The monitor's view of the tasks, with the first `reported` results committed. */
  ghost function Picture(calls: seq<ToolCall>, tasks: seq<Task>, reported: nat): Batch
    requires |tasks| <= |calls|
  {
    Active(seq(|calls|, k requires 0 <= k < |calls| => if k < |tasks| then StageOf(tasks[k]) else Unstarted),
      reported, false)
  }

  /** A settled call reports its answer; a returned one holds its own tool's result. */
  ghost predicate Accounted(tools: seq<Tool>, call: ToolCall, w: BatchWorld, k: nat, t: Task, a: Answer)
    requires k < |w.calls|
  {
    match t
    case Settled(o) => Reports(tools, call, w, k, o, a)
    case Returned(executed) => Ready(tools, call, w, k) && a.Ran? && executed == w.calls[k].executed
    case Executing => Ready(tools, call, w, k) && a.Ran?
    case Waiting => Ready(tools, call, w, k) && a.Unlaunched?
  }

  ghost predicate AllAccounted(tools: seq<Tool>, calls: seq<ToolCall>, w: BatchWorld, tasks: seq<Task>,
                               answers: seq<Answer>) {
    && |answers| == |tasks| <= |calls| == |w.calls|
    && forall k :: 0 <= k < |tasks| ==> Accounted(tools, calls[k], w, k, tasks[k], answers[k])
  }

  lemma NothingAccounted(tools: seq<Tool>, calls: seq<ToolCall>, w: BatchWorld)
    requires |w.calls| == |calls|
    ensures AllAccounted(tools, calls, w, [], [])
    ensures calls == [] ==> CutByAbort(w, 0)
  {
  }

  lemma AccountOne(tools: seq<Tool>, calls: seq<ToolCall>, w: BatchWorld, tasks: seq<Task>, answers: seq<Answer>,
                   t: Task, a: Answer)
    requires AllAccounted(tools, calls, w, tasks, answers) && |tasks| < |calls|
    requires Accounted(tools, calls[|tasks|], w, |tasks|, t, a)
    ensures AllAccounted(tools, calls, w, tasks + [t], answers + [a])
  {
  }

  /** Only call k changes hands. */
  lemma AccountAt(tools: seq<Tool>, calls: seq<ToolCall>, w: BatchWorld, tasks: seq<Task>, answers: seq<Answer>,
                  k: nat, t: Task, a: Answer)
    requires AllAccounted(tools, calls, w, tasks, answers) && k < |tasks|
    requires Accounted(tools, calls[k], w, k, t, a)
    ensures AllAccounted(tools, calls, w, tasks[k := t], answers[k := a])
  {
  }

  /** Refused calls stay refused and launched ones run; no other call is refused. */
  ghost predicate AnswersFrom(before: seq<Answer>, answers: seq<Answer>) {
    && |answers| == |before|
    && forall k :: 0 <= k < |answers| ==>
         if before[k].Unlaunched? then !answers[k].Refused? else answers[k] == before[k]
  }

  lemma PictureEmpty(calls: seq<ToolCall>)
    ensures Observe(calls, []) == Picture(calls, [], 0)
  {
    assert Fresh(|calls|).stages == Picture(calls, [], 0).stages;
  }

  lemma PictureStart(calls: seq<ToolCall>, tasks: seq<Task>, k: nat, o: Outcome)
    requires k == |tasks| < |calls|
    ensures Advance(calls, Picture(calls, tasks, 0), ToolStart(k, calls[k])) == Picture(calls, tasks + [Waiting], 0)
    ensures Advance(calls, Picture(calls, tasks + [Waiting], 0), ToolEnd(k, calls[k], o))
      == Picture(calls, tasks + [Settled(o)], 0)
  {
    assert Picture(calls, tasks, 0).stages[k := Running] == Picture(calls, tasks + [Waiting], 0).stages;
    assert Picture(calls, tasks + [Waiting], 0).stages[k := Finished(o)]
      == Picture(calls, tasks + [Settled(o)], 0).stages;
  }

  predicate NoneLaunched(tasks: seq<Task>) {
    forall k :: 0 <= k < |tasks| ==> tasks[k].Settled? || tasks[k].Waiting?
  }

  lemma NothingPrepared()
    ensures NoneLaunched([])
  {
  }

  lemma PrepareOne(tasks: seq<Task>, t: Task)
    requires NoneLaunched(tasks) && (t.Settled? || t.Waiting?)
    ensures NoneLaunched(tasks + [t])
  {
  }

  /** Lines 606 to 654: start and prepare the calls in source order; prepared ones wait. */
  method PreflightAll(agent: Agent, tools: seq<Tool>, calls: seq<ToolCall>, w: BatchWorld)
    returns (tasks: seq<Task>, aborted: bool, ghost labels: seq<Label>, ghost answers: seq<Answer>)
    requires agent.Valid() && agent.activeRun && |w.calls| == |calls|
    modifies agent`messages, agent`streaming, agent`pendingToolCalls, agent`trace
    ensures agent.Valid() && agent.trace == old(agent.trace) + labels
    ensures |tasks| <= |calls| && CutByAbort(w, |tasks|) && aborted == Fired(w, |tasks|)
    ensures Observe(calls, labels) == Picture(calls, tasks, 0)
    ensures NoneLaunched(tasks) && AllAccounted(tools, calls, w, tasks, answers)
    ensures forall k :: 0 <= k < |tasks| ==> (tasks[k].Settled? <==> answers[k].Refused?)
  {
    hide Advance, Observe, Picture, NoneLaunched, AllAccounted, RefusedWith;
    ghost var t0 := agent.trace;
    tasks, labels, answers := [], [], [];
    aborted := w.fired;
    PictureEmpty(calls);
    NothingPrepared();
    NothingAccounted(tools, calls, w);
    while |tasks| < |calls|
      invariant agent.Valid() && agent.activeRun && agent.trace == t0 + labels
      invariant |tasks| <= |calls|
      invariant Observe(calls, labels) == Picture(calls, tasks, 0)
      invariant NoneLaunched(tasks) && AllAccounted(tools, calls, w, tasks, answers) && |answers| == |tasks|
      invariant forall j :: 0 <= j < |tasks| ==> (tasks[j].Settled? <==> answers[j].Refused?)
      invariant aborted == Fired(w, |tasks|) && forall j :: 0 < j <= |tasks| ==> !Fired(w, j)
      decreases |calls| - |tasks|
    {
      var k := |tasks|;
      PictureStart(calls, tasks, k, ABORTED);
      labels := Fire(agent, calls, t0, labels, ToolStart(k, calls[k]));
      var p;
      p, aborted := PrepareToolCall(tools, calls[k], aborted, w.calls[k]);
      if p.Immediate? {
        PictureStart(calls, tasks, k, p.outcome);
        labels := Fire(agent, calls, t0, labels, ToolEnd(k, calls[k], p.outcome));
        PrepareOne(tasks, Settled(p.outcome));
        AccountOne(tools, calls, w, tasks, answers, Settled(p.outcome), Refused);
        tasks, answers := tasks + [Settled(p.outcome)], answers + [Refused];
      } else {
        PrepareOne(tasks, Waiting);
        AccountOne(tools, calls, w, tasks, answers, Waiting, Unlaunched);
        tasks, answers := tasks + [Waiting], answers + [Unlaunched];
      }
      aborted := aborted || w.calls[k].firesLater;
      if aborted {
        break;
      }
    }
  }

  /** What the scheduler may do next. */
  datatype Choice =
    | Launch
    | Update(k: nat, partial: string)
    | Return(k: nat)
    | Finish(k: nat)
    | Abort

  lemma RePicture(calls: seq<ToolCall>, tasks: seq<Task>, k: nat, t: Task)
    requires |tasks| <= |calls| && k < |tasks| && !tasks[k].Settled?
    ensures Picture(calls, tasks[k := t], 0).stages == Picture(calls, tasks, 0).stages[k := StageOf(t)]
    ensures !t.Settled? ==> Picture(calls, tasks[k := t], 0) == Picture(calls, tasks, 0)
  {
    var a, b := Picture(calls, tasks, 0).stages, Picture(calls, tasks[k := t], 0).stages;
    assert b == a[k := StageOf(t)];
    if !t.Settled? {
      assert a[k := Running] == a;
    }
  }

  lemma PictureSettle(calls: seq<ToolCall>, tasks: seq<Task>, k: nat, o: Outcome)
    requires |tasks| <= |calls| && k < |tasks| && !tasks[k].Settled?
    ensures Advance(calls, Picture(calls, tasks, 0), ToolEnd(k, calls[k], o))
      == Picture(calls, tasks[k := Settled(o)], 0)
  {
    RePicture(calls, tasks, k, Settled(o));
  }

  lemma PictureUpdate(calls: seq<ToolCall>, tasks: seq<Task>, k: nat, partial: string)
    requires |tasks| <= |calls| && k < |tasks| && !tasks[k].Settled?
    ensures Advance(calls, Picture(calls, tasks, 0), ToolUpdate(k, calls[k], partial)) == Picture(calls, tasks, 0)
  {
  }

  /** Everything the concurrent phase keeps while its tasks interleave. */
  ghost predicate Interleaving(tools: seq<Tool>, calls: seq<ToolCall>, w: BatchWorld, tasks: seq<Task>,
                               answers: seq<Answer>, labels: seq<Label>) {
    |answers| == |tasks| <= |calls| && Observe(calls, labels) == Picture(calls, tasks, 0)
    && AllAccounted(tools, calls, w, tasks, answers)
  }

  /** A call that settled without being launched did so because of an abort. */
  ghost predicate UnlaunchedByAbort(tasks: seq<Task>, answers: seq<Answer>, aborted: bool)
    requires |answers| == |tasks|
  {
    forall k :: 0 <= k < |tasks| && tasks[k].Settled? && answers[k].Unlaunched? ==> aborted
  }

  lemma AbortedReports(tools: seq<Tool>, call: ToolCall, w: BatchWorld, k: nat)
    requires k < |w.calls| && Ready(tools, call, w, k)
    ensures Reports(tools, call, w, k, ABORTED, Unlaunched)
  {
  }

  lemma FinalizeReports(tools: seq<Tool>, call: ToolCall, w: BatchWorld, k: nat)
    requires k < |w.calls| && Ready(tools, call, w, k)
    ensures Reports(tools, call, w, k, Finalize(w.calls[k].executed, w.calls[k].after), Ran)
  {
  }

  /** One scheduler choice; a choice that is not enabled does nothing. */
  method Schedule(agent: Agent, ghost tools: seq<Tool>, calls: seq<ToolCall>, w: BatchWorld, tasks: seq<Task>,
                  ghost answers: seq<Answer>, launch: nat, aborted: bool, ghost t0: seq<Label>,
                  ghost before: seq<Label>, choice: Choice)
    returns (tasks': seq<Task>, launch': nat, aborted': bool, ghost labels: seq<Label>, ghost answers': seq<Answer>)
    requires agent.Valid() && agent.activeRun && agent.trace == t0 + before
    requires launch <= |tasks| && Interleaving(tools, calls, w, tasks, answers, before)
    requires UnlaunchedByAbort(tasks, answers, aborted)
    modifies agent`messages, agent`streaming, agent`pendingToolCalls, agent`trace
    ensures agent.Valid() && agent.trace == t0 + labels
    ensures |tasks'| == |tasks| && launch' <= |tasks'| && Interleaving(tools, calls, w, tasks', answers', labels)
    ensures (aborted ==> aborted') && UnlaunchedByAbort(tasks', answers', aborted')
    ensures AnswersFrom(answers, answers')
    ensures launch < launch' && tasks[launch].Waiting? ==>
      tasks'[launch] == if aborted then Settled(ABORTED) else Executing
    ensures choice.Launch? && launch < |tasks| ==> launch' == launch + 1
    ensures choice.Return? && choice.k < |tasks| && tasks[choice.k].Executing? ==> tasks'[choice.k].Returned?
    ensures choice.Finish? && choice.k < |tasks| && tasks[choice.k].Returned? ==> tasks'[choice.k].Settled?
    ensures choice.Update? && choice.k < |tasks| && tasks[choice.k].Executing? ==>
      labels == before + [ToolUpdate(choice.k, calls[choice.k], choice.partial)]
  {
    hide Advance, Observe, Picture, Reports, Finalized, Ready;
    tasks', launch', aborted', labels, answers' := tasks, launch, aborted, before, answers;
    match choice {
      case Launch =>
        if launch < |tasks| {
          launch' := launch + 1;
          if tasks[launch].Waiting? {
            if aborted {
              PictureSettle(calls, tasks, launch, ABORTED);
              labels := Fire(agent, calls, t0, before, ToolEnd(launch, calls[launch], ABORTED));
              AbortedReports(tools, calls[launch], w, launch);
              AccountAt(tools, calls, w, tasks, answers, launch, Settled(ABORTED), Unlaunched);
              tasks', answers' := tasks[launch := Settled(ABORTED)], answers[launch := Unlaunched];
            } else {
              RePicture(calls, tasks, launch, Executing);
              AccountAt(tools, calls, w, tasks, answers, launch, Executing, Ran);
              tasks', answers' := tasks[launch := Executing], answers[launch := Ran];
            }
          }
        }
      case Update(k, partial) =>
        // updates are accepted only until the tool returns
        if k < |tasks| && tasks[k].Executing? {
          PictureUpdate(calls, tasks, k, partial);
          labels := Fire(agent, calls, t0, before, ToolUpdate(k, calls[k], partial));
        }
      case Return(k) =>
        if k < |tasks| && tasks[k].Executing? {
          RePicture(calls, tasks, k, Returned(w.calls[k].executed));
          tasks', answers' := tasks[k := Returned(w.calls[k].executed)], answers[k := Ran];
        }
      case Finish(k) =>
        if k < |tasks| && tasks[k].Returned? {
          var o := Finalize(tasks[k].executed, w.calls[k].after);
          PictureSettle(calls, tasks, k, o);
          labels := Fire(agent, calls, t0, before, ToolEnd(k, calls[k], o));
          FinalizeReports(tools, calls[k], w, k);
          AccountAt(tools, calls, w, tasks, answers, k, Settled(o), Ran);
          tasks', answers' := tasks[k := Settled(o)], answers[k := Ran];
        }
      case Abort => aborted' := true;
    }
  }

  /** The concurrent phase: any interleaving of launches, updates, returns, ends and aborts. */
  method RunConcurrently(agent: Agent, ghost tools: seq<Tool>, calls: seq<ToolCall>, w: BatchWorld,
                         initial: seq<Task>, ghost given: seq<Answer>, abortedBefore: bool, ghost t0: seq<Label>,
                         ghost before: seq<Label>)
    returns (tasks: seq<Task>, ghost labels: seq<Label>, aborted: bool, ghost answers: seq<Answer>)
    requires agent.Valid() && agent.activeRun && agent.trace == t0 + before
    requires Interleaving(tools, calls, w, initial, given, before)
    requires forall k :: 0 <= k < |initial| ==> (initial[k].Settled? <==> given[k].Refused?)
    modifies agent`messages, agent`streaming, agent`pendingToolCalls, agent`trace
    ensures agent.Valid() && agent.trace == t0 + labels
    ensures |tasks| == |initial| && Interleaving(tools, calls, w, tasks, answers, labels)
    ensures forall k :: 0 <= k < |tasks| ==> tasks[k].Settled?
    ensures abortedBefore ==> aborted
    ensures AnswersFrom(given, answers) && UnlaunchedByAbort(tasks, answers, aborted)
  {
    hide Observe, Picture, AllAccounted, Reports, Finalized, AnswersFrom, Ready;
    tasks, labels, aborted, answers := initial, before, abortedBefore, given;
    SameAnswers(given);
    var launch: nat := 0;
    var steps: nat :| true;
    for step := 0 to steps
      invariant agent.Valid() && agent.activeRun && agent.trace == t0 + labels
      invariant |tasks| == |initial| && launch <= |tasks| && Interleaving(tools, calls, w, tasks, answers, labels)
      invariant (abortedBefore ==> aborted) && |answers| == |tasks| && UnlaunchedByAbort(tasks, answers, aborted)
      invariant AnswersFrom(given, answers)
    {
      var choice: Choice := *;
      ghost var last := answers;
      tasks, launch, aborted, labels, answers :=
        Schedule(agent, tools, calls, w, tasks, answers, launch, aborted, t0, labels, choice);
      LaterAnswers(given, last, answers);
    }
    // Promise.all: the batch waits until every call has settled
    for k := 0 to |tasks|
      invariant agent.Valid() && agent.activeRun && agent.trace == t0 + labels
      invariant |tasks| == |initial| && Interleaving(tools, calls, w, tasks, answers, labels)
      invariant |answers| == |tasks| && UnlaunchedByAbort(tasks, answers, aborted) && AnswersFrom(given, answers)
      invariant forall j :: 0 <= j < k ==> tasks[j].Settled?
    {
      if !tasks[k].Settled? {
        NotRefused(tools, calls, w, tasks, answers, k);
        var own := if tasks[k].Returned? then tasks[k].executed else w.calls[k].executed;
        var o := if tasks[k].Waiting? && aborted then ABORTED else Finalize(own, w.calls[k].after);
        ghost var a := if tasks[k].Waiting? && aborted then Unlaunched else Ran;
        PictureSettle(calls, tasks, k, o);
        labels := Fire(agent, calls, t0, labels, ToolEnd(k, calls[k], o));
        if a.Unlaunched? {
          AbortedReports(tools, calls[k], w, k);
        } else {
          FinalizeReports(tools, calls[k], w, k);
        }
        AccountAt(tools, calls, w, tasks, answers, k, Settled(o), a);
        AnswerAt(given, answers, k, a);
        tasks, answers := tasks[k := Settled(o)], answers[k := a];
      }
    }
  }

  lemma SameAnswers(answers: seq<Answer>)
    ensures AnswersFrom(answers, answers)
  {
  }

  lemma LaterAnswers(a: seq<Answer>, b: seq<Answer>, c: seq<Answer>)
    requires AnswersFrom(a, b) && AnswersFrom(b, c)
    ensures AnswersFrom(a, c)
  {
  }

  lemma AnswerAt(given: seq<Answer>, answers: seq<Answer>, k: nat, a: Answer)
    requires AnswersFrom(given, answers) && k < |answers| && !a.Refused?
    requires answers[k].Unlaunched? || a == answers[k]
    ensures AnswersFrom(given, answers[k := a])
  {
  }

  lemma NotRefused(tools: seq<Tool>, calls: seq<ToolCall>, w: BatchWorld, tasks: seq<Task>, answers: seq<Answer>,
                   k: nat)
    requires AllAccounted(tools, calls, w, tasks, answers) && k < |tasks| && !tasks[k].Settled?
    ensures k < |answers| && !answers[k].Refused? && k < |w.calls| && Ready(tools, calls[k], w, k)
    ensures tasks[k].Waiting? <==> answers[k].Unlaunched?
    ensures tasks[k].Returned? ==> tasks[k].executed == w.calls[k].executed
  {
  }

  lemma PictureReport(calls: seq<ToolCall>, outcomes: seq<Outcome>, tasks: seq<Task>, k: nat)
    requires |tasks| == |outcomes| <= |calls| && k < |tasks|
    requires forall j :: 0 <= j < |tasks| ==> tasks[j] == Settled(outcomes[j])
    ensures var m := ResultMessage(calls[k], outcomes[k]);
            Advance(calls, Advance(calls, Picture(calls, tasks, k), MessageStart(m)), MessageEnd(m))
              == Picture(calls, tasks, k + 1)
  {
  }

  lemma PictureDone(calls: seq<ToolCall>, outcomes: seq<Outcome>, tasks: seq<Task>)
    requires |tasks| == |outcomes| <= |calls|
    requires forall j :: 0 <= j < |tasks| ==> tasks[j] == Settled(outcomes[j])
    ensures Picture(calls, tasks, |tasks|) == Done(calls, outcomes)
  {
    assert Picture(calls, tasks, |tasks|).stages == Done(calls, outcomes).stages;
  }

  lemma SettledReport(tools: seq<Tool>, calls: seq<ToolCall>, w: BatchWorld, tasks: seq<Task>,
                      outcomes: seq<Outcome>, answers: seq<Answer>)
    requires AllAccounted(tools, calls, w, tasks, answers) && |outcomes| == |tasks|
    requires forall k :: 0 <= k < |tasks| ==> tasks[k] == Settled(outcomes[k])
    ensures AllReport(tools, calls, w, outcomes, answers)
  {
  }

  /** executeToolCallsParallel */
  method ExecuteParallel(agent: Agent, tools: seq<Tool>, calls: seq<ToolCall>, w: BatchWorld)
    returns (outcomes: seq<Outcome>, aborted: bool, ghost labels: seq<Label>, ghost answers: seq<Answer>)
    requires agent.Valid() && agent.activeRun && |w.calls| == |calls|
    modifies agent`messages, agent`streaming, agent`pendingToolCalls, agent`trace
    ensures agent.Valid() && agent.trace == old(agent.trace) + labels
    ensures Completed(calls, labels, outcomes)
    ensures AllReport(tools, calls, w, outcomes, answers) && UnknownToolsFail(tools, calls, outcomes)
    ensures forall k :: 0 <= k < |answers| && answers[k].Unlaunched? ==> aborted
    ensures CutByAbort(w, |outcomes|)
  {
    hide Observe, Picture, Reports, CutByAbort, Fired;
    ghost var t0 := agent.trace;
    var tasks;
    tasks, aborted, labels, answers := PreflightAll(agent, tools, calls, w);
    tasks, labels, aborted, answers := RunConcurrently(agent, tools, calls, w, tasks, answers, aborted, t0, labels);
    outcomes := seq(|tasks|, k requires 0 <= k < |tasks| => tasks[k].outcome);
    SettledReport(tools, calls, w, tasks, outcomes, answers);
    ReportsFailUnknown(tools, calls, w, outcomes, answers);
    hide AllReport, AllAccounted, AnswersFrom;
    for k := 0 to |outcomes|
      invariant agent.Valid() && agent.activeRun && agent.trace == t0 + labels
      invariant Observe(calls, labels) == Picture(calls, tasks, k)
    {
      PictureReport(calls, outcomes, tasks, k);
      labels := Fire(agent, calls, t0, labels, MessageStart(ResultMessage(calls[k], outcomes[k])));
      labels := Fire(agent, calls, t0, labels, MessageEnd(ResultMessage(calls[k], outcomes[k])));
    }
    PictureDone(calls, outcomes, tasks);
  }

  // ----- Dispatch -----

  /** executeToolCalls, or the truncation path for a reply cut off by the token limit. */
  method ExecuteToolCalls(agent: Agent, tools: seq<Tool>, reply: Message, w: BatchWorld, sequential: bool,
                          sequentialTools: set<string>)
    returns (outcomes: seq<Outcome>, terminate: bool, ghost labels: seq<Label>, ghost answers: seq<Answer>)
    requires agent.Valid() && agent.activeRun && reply.Assistant? && |w.calls| == |reply.calls|
    modifies agent`messages, agent`streaming, agent`pendingToolCalls, agent`trace
    ensures agent.Valid() && agent.trace == old(agent.trace) + labels
    ensures Completed(reply.calls, labels, outcomes)
    ensures (reply.stop == Length ==>
      && |outcomes| == |reply.calls|
      && forall k :: 0 <= k < |outcomes| ==> outcomes[k].isError && !outcomes[k].terminate)
    ensures sequential || (exists c :: c in reply.calls && c.name in sequentialTools) ==> OneByOne(reply.calls, labels)
    ensures reply.stop != Length ==> AllReport(tools, reply.calls, w, outcomes, answers) && CutByAbort(w, |outcomes|)
    ensures UnknownToolsFail(tools, reply.calls, outcomes)
    ensures terminate == (reply.stop != Length && ShouldTerminate(outcomes))
    ensures reply.stop == Length ==> AllTruncated(reply.calls, outcomes)
  {
    hide AllTruncated, Observe, Done, AllReport, CutByAbort, OneByOne;
    answers := [];
    if reply.stop == Length {
      outcomes, labels := FailTruncated(agent, reply.calls);
      TruncatedFails(reply.calls, outcomes);
      terminate := false;
    } else {
      if sequential || exists c :: c in reply.calls && c.name in sequentialTools {
        outcomes, labels, answers := ExecuteSequential(agent, tools, reply.calls, w);
      } else {
        var aborted;
        outcomes, aborted, labels, answers := ExecuteParallel(agent, tools, reply.calls, w);
      }
      terminate := ShouldTerminate(outcomes);
    }
  }
}
