/**
 * The contract of a tool batch, as a monitor over its labels: calls start in source order, each
 * started call gets updates and then one end, and its result message is committed once, in source
 * order, after its end.  Everything below holds of every accepted trace, however the executors
 * interleave the calls.
 */
module ToolBatch {
  import opened Wrappers
  import opened AgentMessages
  import opened AgentTrace
  import opened ToolChanges

  datatype Stage = Unstarted | Running | Finished(outcome: Outcome)

  datatype Batch =
    | Active(stages: seq<Stage>, reported: nat, writing: bool)
    | Rejected

  function Fresh(n: nat): Batch {
    Active(seq(n, _ => Unstarted), 0, false)
  }

  function ResultMessage(call: ToolCall, o: Outcome): Message {
    ToolResult(call.id, o)
  }

  function Advance(calls: seq<ToolCall>, b: Batch, l: Label): Batch {
    if b.Rejected? || |b.stages| != |calls| || b.reported > |calls| then Rejected
    else
      match l
      case ToolStart(k, call) =>
        if k < |calls| && !b.writing && call == calls[k] && b.stages[k] == Unstarted
          && (k == 0 || b.stages[k-1] != Unstarted)
        then b.(stages := b.stages[k := Running]) else Rejected
      case ToolUpdate(k, call, _) =>
        if k < |calls| && !b.writing && call == calls[k] && b.stages[k] == Running then b else Rejected
      case ToolEnd(k, call, o) =>
        if k < |calls| && !b.writing && call == calls[k] && b.stages[k] == Running
        then b.(stages := b.stages[k := Finished(o)]) else Rejected
      case MessageStart(m) =>
        if b.reported < |calls| && !b.writing && b.stages[b.reported].Finished?
           && m == ResultMessage(calls[b.reported], b.stages[b.reported].outcome)
        then b.(writing := true) else Rejected
      case MessageEnd(m) =>
        if b.reported < |calls| && b.writing && b.stages[b.reported].Finished?
           && m == ResultMessage(calls[b.reported], b.stages[b.reported].outcome)
        then b.(reported := b.reported + 1, writing := false) else Rejected
      case _ => Rejected
  }

  function Observe(calls: seq<ToolCall>, ls: seq<Label>): Batch {
    if ls == [] then Fresh(|calls|) else Advance(calls, Observe(calls, ls[..|ls|-1]), ls[|ls|-1])
  }

  lemma Push(calls: seq<ToolCall>, ls: seq<Label>, l: Label)
    ensures Observe(calls, ls + [l]) == Advance(calls, Observe(calls, ls), l)
  {
    assert (ls + [l])[..|ls|] == ls;
  }

  /** The batch is over: the first |outcomes| calls are finished and reported, no other started. */
  ghost predicate Completed(calls: seq<ToolCall>, ls: seq<Label>, outcomes: seq<Outcome>) {
    && |outcomes| <= |calls|
    && Observe(calls, ls) == Done(calls, outcomes)
  }

  function Done(calls: seq<ToolCall>, outcomes: seq<Outcome>): (b: Batch)
    requires |outcomes| <= |calls|
    ensures b.Active?
  {
    Active(seq(|calls|, k requires 0 <= k < |calls| => if k < |outcomes| then Finished(outcomes[k]) else Unstarted),
           |outcomes|, false)
  }

  function Results(calls: seq<ToolCall>, outcomes: seq<Outcome>): (r: seq<Message>)
    requires |outcomes| <= |calls|
    ensures |r| == |outcomes|
    ensures forall k :: 0 <= k < |r| ==> r[k] == ResultMessage(calls[k], outcomes[k])
  {
    seq(|outcomes|, k requires 0 <= k < |outcomes| => ResultMessage(calls[k], outcomes[k]))
  }

  // ----- What every accepted trace satisfies -----

  lemma {:induction false} ObservePrefix(calls: seq<ToolCall>, ls: seq<Label>, i: nat)
    requires !Observe(calls, ls).Rejected? && i <= |ls|
    ensures !Observe(calls, ls[..i]).Rejected?
  {
    if i < |ls| {
      ObservePrefix(calls, ls[..|ls|-1], i);
      assert ls[..|ls|-1][..i] == ls[..i];
    } else {
      assert ls[..i] == ls;
    }
  }

  /** A batch is a legal stretch of a turn after its reply: no message nests, no event leaves the turn. */
  lemma {:induction false} BatchWalks(calls: seq<ToolCall>, ls: seq<Label>)
    requires !Observe(calls, ls).Rejected?
    ensures Walk(Replied, ls) == if Observe(calls, ls).writing then InResult else Replied
  {
    if ls != [] {
      BatchWalks(calls, ls[..|ls|-1]);
    }
  }

  lemma {:induction false} BatchSize(calls: seq<ToolCall>, ls: seq<Label>)
    requires !Observe(calls, ls).Rejected?
    ensures |Observe(calls, ls).stages| == |calls| && Observe(calls, ls).reported <= |calls|
  {
    if ls != [] {
      BatchSize(calls, ls[..|ls|-1]);
    }
  }

  /** Only result messages are committed: the reported calls' results, in source order. */
  lemma {:induction false} BatchCommits(calls: seq<ToolCall>, ls: seq<Label>)
    requires !Observe(calls, ls).Rejected?
    ensures var b := Observe(calls, ls);
      && |Ended(ls)| == b.reported <= |calls| == |b.stages|
      && (forall k :: 0 <= k < b.reported ==>
            b.stages[k].Finished? && Ended(ls)[k] == ResultMessage(calls[k], b.stages[k].outcome))
  {
    if ls != [] {
      BatchCommits(calls, ls[..|ls|-1]);
    }
  }

  lemma CompletedResults(calls: seq<ToolCall>, ls: seq<Label>, outcomes: seq<Outcome>)
    requires Completed(calls, ls, outcomes)
    ensures Ended(ls) == Results(calls, outcomes)
    ensures Walk(Replied, ls) == Replied
  {
    BatchCommits(calls, ls);
    BatchWalks(calls, ls);
  }

  /** A tool label names its call; a result message is that of the next call to report. */
  predicate Concerns(b: Batch, l: Label, k: nat) {
    || ((l.ToolStart? || l.ToolUpdate? || l.ToolEnd?) && l.k == k)
    || ((l.MessageStart? || l.MessageEnd?) && b.Active? && b.reported == k)
  }

  /** The labels of call k, its result message included. */
  function Of(calls: seq<ToolCall>, ls: seq<Label>, k: nat): seq<Label> {
    if ls == [] then []
    else
      var init, l := ls[..|ls|-1], ls[|ls|-1];
      if Concerns(Observe(calls, init), l, k) then Of(calls, init, k) + [l] else Of(calls, init, k)
  }

  ghost predicate Updates(ls: seq<Label>, k: nat, call: ToolCall) {
    forall i :: 0 <= i < |ls| ==> ls[i].ToolUpdate? && ls[i].k == k && ls[i].call == call
  }

  /** What call k has emitted before its result, given its stage. */
  ghost predicate CallHistory(call: ToolCall, k: nat, ls: seq<Label>, s: Stage) {
    match s
    case Unstarted => ls == []
    case Running => ls != [] && ls[0] == ToolStart(k, call) && Updates(ls[1..], k, call)
    case Finished(o) =>
      |ls| >= 2 && ls[0] == ToolStart(k, call) && Updates(ls[1..|ls|-1], k, call) && ls[|ls|-1] == ToolEnd(k, call, o)
  }

  /** How much of its result call k has emitted: nothing, the start of the message, or all of it. */
  function ResultLabels(calls: seq<ToolCall>, b: Batch, k: nat): seq<Label>
    requires b.Active? && k < |calls| == |b.stages|
  {
    if !b.stages[k].Finished? then []
    else
      var m := ResultMessage(calls[k], b.stages[k].outcome);
      if k < b.reported then [MessageStart(m), MessageEnd(m)]
      else if k == b.reported && b.writing then [MessageStart(m)]
      else []
  }

  ghost predicate CallLife(calls: seq<ToolCall>, b: Batch, k: nat, ls: seq<Label>)
    requires b.Active? && k < |calls| == |b.stages|
  {
    var result := ResultLabels(calls, b, k);
    |result| <= |ls| && ls[|ls|-|result|..] == result && CallHistory(calls[k], k, ls[..|ls|-|result|], b.stages[k])
  }

  /** Start, updates, one end, then one result, in that order, whatever the other calls do in between. */
  lemma {:induction false} CallLifeCycle(calls: seq<ToolCall>, ls: seq<Label>, k: nat)
    requires !Observe(calls, ls).Rejected? && k < |calls|
    ensures |Observe(calls, ls).stages| == |calls| && CallLife(calls, Observe(calls, ls), k, Of(calls, ls, k))
  {
    hide CallLife, Advance, Concerns;
    if ls == [] {
      NothingEmitted(calls, k);
    } else {
      var init, l := ls[..|ls|-1], ls[|ls|-1];
      AdvanceAccepts(calls, Observe(calls, init), l);
      BatchCommits(calls, init);
      BatchSize(calls, ls);
      CallLifeCycle(calls, init, k);
      LifeStep(calls, Observe(calls, init), l, k, Of(calls, init, k));
    }
  }

  /** In a completed batch each finished call has emitted all of it, and no other call anything. */
  lemma CompletedCallEmits(calls: seq<ToolCall>, ls: seq<Label>, outcomes: seq<Outcome>, k: nat)
    requires Completed(calls, ls, outcomes) && k < |calls|
    ensures k >= |outcomes| ==> Of(calls, ls, k) == []
    ensures (k < |outcomes| ==>
      && var mine, m := Of(calls, ls, k), ResultMessage(calls[k], outcomes[k]);
      && |mine| >= 4 && mine[|mine|-2..] == [MessageStart(m), MessageEnd(m)]
      && CallHistory(calls[k], k, mine[..|mine|-2], Finished(outcomes[k])))
  {
    CallLifeCycle(calls, ls, k);
  }

  lemma NothingEmitted(calls: seq<ToolCall>, k: nat)
    requires k < |calls|
    ensures !Observe(calls, []).Rejected? && |Observe(calls, []).stages| == |calls|
    ensures CallLife(calls, Observe(calls, []), k, [])
  {
  }

  lemma AdvanceAccepts(calls: seq<ToolCall>, b: Batch, l: Label)
    requires !Advance(calls, b, l).Rejected?
    ensures !b.Rejected? && |b.stages| == |calls|
  {
  }

  /** What one accepted label does to the stage of call k. */
  ghost predicate StageMoves(call: ToolCall, k: nat, s: Stage, l: Label, s': Stage) {
    match l
    case ToolStart(i, c) => if i == k then s == Unstarted && s' == Running && c == call else s' == s
    case ToolUpdate(i, c, _) => s' == s && (i == k ==> s == Running && c == call)
    case ToolEnd(i, c, o) => if i == k then s == Running && s' == Finished(o) && c == call else s' == s
    case _ => s' == s
  }

  lemma StageStep(calls: seq<ToolCall>, b: Batch, l: Label, k: nat)
    requires !b.Rejected? && !Advance(calls, b, l).Rejected? && k < |calls| == |b.stages|
    ensures |Advance(calls, b, l).stages| == |calls|
    ensures StageMoves(calls[k], k, b.stages[k], l, Advance(calls, b, l).stages[k])
  {
  }

  /** What one accepted label adds to the result of call k: only that call's own message labels do. */
  lemma ResultStep(calls: seq<ToolCall>, b: Batch, l: Label, k: nat)
    requires !b.Rejected? && !Advance(calls, b, l).Rejected? && k < |calls| == |b.stages|
    requires forall i :: 0 <= i < b.reported <= |calls| ==> b.stages[i].Finished?
    ensures var b' := Advance(calls, b, l);
      && |b'.stages| == |calls|
      && (ResultLabels(calls, b', k) == ResultLabels(calls, b, k)
        + if (l.MessageStart? || l.MessageEnd?) && b.reported == k then [l] else [])
      && ((l.ToolStart? || l.ToolUpdate? || l.ToolEnd?) && l.k == k ==> ResultLabels(calls, b, k) == [])
  {
    var b' := Advance(calls, b, l);
    if l.MessageEnd? && b.reported == k {
      assert ResultLabels(calls, b, k) == [MessageStart(l.m)];
    }
  }

  lemma HistoryStep(call: ToolCall, k: nat, before: seq<Label>, s: Stage, l: Label, s': Stage)
    requires CallHistory(call, k, before, s) && StageMoves(call, k, s, l, s')
    ensures (CallHistory(call, k,
      if (l.ToolStart? || l.ToolUpdate? || l.ToolEnd?) && l.k == k then before + [l] else before, s'))
  {
    if (l.ToolStart? || l.ToolUpdate? || l.ToolEnd?) && l.k == k {
      var after := before + [l];
      if l.ToolUpdate? {
        assert after[1..] == before[1..] + [l];
      } else if l.ToolEnd? {
        assert after[1..|after|-1] == before[1..];
      } else {
        assert after[1..] == [];
      }
    }
  }

  /** What a call has emitted, split before its result. */
  lemma LifeSplits(calls: seq<ToolCall>, b: Batch, k: nat, mine: seq<Label>) returns (told: seq<Label>)
    requires b.Active? && k < |calls| == |b.stages| && CallLife(calls, b, k, mine)
    ensures mine == told + ResultLabels(calls, b, k) && CallHistory(calls[k], k, told, b.stages[k])
  {
    told := mine[..|mine|-|ResultLabels(calls, b, k)|];
    hide ResultLabels, CallHistory;
  }

  lemma LifeJoins(calls: seq<ToolCall>, b: Batch, k: nat, told: seq<Label>, mine: seq<Label>)
    requires b.Active? && k < |calls| == |b.stages|
    requires mine == told + ResultLabels(calls, b, k) && CallHistory(calls[k], k, told, b.stages[k])
    ensures CallLife(calls, b, k, mine)
  {
    hide ResultLabels, CallHistory;
    var result := ResultLabels(calls, b, k);
    assert mine[|mine|-|result|..] == result && mine[..|mine|-|result|] == told;
  }

  lemma LifeStep(calls: seq<ToolCall>, b: Batch, l: Label, k: nat, mine: seq<Label>)
    requires !b.Rejected? && !Advance(calls, b, l).Rejected?
    requires k < |calls| == |b.stages| == |Advance(calls, b, l).stages|
    requires forall i :: 0 <= i < b.reported <= |calls| ==> b.stages[i].Finished?
    requires CallLife(calls, b, k, mine)
    ensures CallLife(calls, Advance(calls, b, l), k, if Concerns(b, l, k) then mine + [l] else mine)
  {
    StageStep(calls, b, l, k);
    ResultStep(calls, b, l, k);
    hide Advance, CallHistory, StageMoves, ResultLabels, CallLife;
    var b' := Advance(calls, b, l);
    var told := LifeSplits(calls, b, k, mine);
    HistoryStep(calls[k], k, told, b.stages[k], l, b'.stages[k]);
    var after := if Concerns(b, l, k) then mine + [l] else mine;
    if (l.ToolStart? || l.ToolUpdate? || l.ToolEnd?) && l.k == k {
      assert mine == told && after == (told + [l]) + [];
      LifeJoins(calls, b', k, told + [l], after);
    } else {
      assert told + (ResultLabels(calls, b, k) + [l]) == mine + [l];
      LifeJoins(calls, b', k, told, after);
    }
  }

  /** An id is pending only while some call with that id is running. */
  lemma {:induction false} OpenIsRunning(calls: seq<ToolCall>, ls: seq<Label>, id: string)
    requires !Observe(calls, ls).Rejected? && id in OpenCalls(ls)
    ensures |Observe(calls, ls).stages| == |calls|
    ensures exists k :: 0 <= k < |calls| && calls[k].id == id && Observe(calls, ls).stages[k] == Running
  {
    var init, l := ls[..|ls|-1], ls[|ls|-1];
    BatchSize(calls, init);
    var b, b' := Observe(calls, init), Observe(calls, ls);
    if id in OpenCalls(init) {
      OpenIsRunning(calls, init, id);
      var k :| 0 <= k < |calls| && calls[k].id == id && b.stages[k] == Running;
      assert b'.stages[k] == Running;
    } else {
      assert l.ToolStart? && b'.stages[l.k] == Running;
    }
  }

  predicate Started(b: Batch, k: nat) {
    b.Active? && k < |b.stages| && b.stages[k] != Unstarted
  }

  /** Whatever has started, every call before it has. */
  lemma {:induction false} StartedPrefix(calls: seq<ToolCall>, ls: seq<Label>)
    requires !Observe(calls, ls).Rejected?
    ensures forall j, k :: 0 <= j <= k && Started(Observe(calls, ls), k) ==> Started(Observe(calls, ls), j)
    ensures forall i :: 0 <= i < |ls| && ls[i].ToolStart? ==> Started(Observe(calls, ls), ls[i].k)
  {
    BatchSize(calls, ls);
    if ls != [] {
      var init, l := ls[..|ls|-1], ls[|ls|-1];
      StartedPrefix(calls, init);
      var b, b' := Observe(calls, init), Observe(calls, ls);
      assert l.ToolStart? && l.k > 0 ==> Started(b, l.k - 1);
      assert forall k: nat :: Started(b', k) <==> Started(b, k) || (l.ToolStart? && l.k == k);
      forall i | 0 <= i < |ls| && ls[i].ToolStart? ensures Started(b', ls[i].k) {
        assert i < |init| ==> init[i] == ls[i];
      }
    }
  }

  /** Calls start in source order, each once. */
  lemma {:induction false} StartsInOrder(calls: seq<ToolCall>, ls: seq<Label>, i: nat, j: nat)
    requires !Observe(calls, ls).Rejected? && i < j < |ls| && ls[i].ToolStart? && ls[j].ToolStart?
    ensures ls[i].k < ls[j].k
  {
    var init := ls[..|ls|-1];
    if j < |init| {
      StartsInOrder(calls, init, i, j);
    } else {
      StartedPrefix(calls, init);
      assert init[i] == ls[i] && !Started(Observe(calls, init), ls[j].k);
    }
  }

  /** A running call is pending while no other call with its id has ended since it started. */
  lemma {:induction false} RunningIsPending(calls: seq<ToolCall>, ls: seq<Label>, k: nat)
    requires !Observe(calls, ls).Rejected? && k < |calls|
    ensures |Observe(calls, ls).stages| == |calls|
    ensures (Observe(calls, ls).stages[k] == Running ==>
      exists i: nat ::
        && i < |ls| && ls[i] == ToolStart(k, calls[k])
        && (calls[k].id in OpenCalls(ls) || exists j :: i < j < |ls| && ls[j].ToolEnd? && ls[j].call.id == calls[k].id))
  {
    BatchSize(calls, ls);
    if ls != [] && Observe(calls, ls).stages[k] == Running {
      var init, l := ls[..|ls|-1], ls[|ls|-1];
      BatchSize(calls, init);
      var at: nat := |init|;
      if Observe(calls, init).stages[k] == Running {
        RunningIsPending(calls, init, k);
        at :| at < |init| && init[at] == ToolStart(k, calls[k])
          && (calls[k].id in OpenCalls(init)
              || exists j :: at < j < |init| && init[j].ToolEnd? && init[j].call.id == calls[k].id);
        if calls[k].id !in OpenCalls(init) {
          var j :| at < j < |init| && init[j].ToolEnd? && init[j].call.id == calls[k].id;
          assert ls[j] == init[j];
        }
      }
      assert ls[at] == ToolStart(k, calls[k]);
    }
  }

  /** A completed batch leaves no call pending, even with repeated call ids. */
  lemma CompletedLeavesNothingOpen(calls: seq<ToolCall>, ls: seq<Label>, outcomes: seq<Outcome>)
    requires Completed(calls, ls, outcomes)
    ensures OpenCalls(ls) == {}
  {
    if id :| id in OpenCalls(ls) {
      OpenIsRunning(calls, ls, id);
      assert false;
    }
  }

  /** Calls that run one at a time: each starts only after all earlier results are committed. */
  ghost predicate OneByOne(calls: seq<ToolCall>, ls: seq<Label>) {
    forall i :: 0 <= i < |ls| && ls[i].ToolStart? ==>
      Observe(calls, ls[..i]).Active? && ls[i].k == Observe(calls, ls[..i]).reported
  }

  /** shouldTerminateToolBatch */
  predicate ShouldTerminate(outcomes: seq<Outcome>) {
    outcomes != [] && forall k :: 0 <= k < |outcomes| ==> outcomes[k].terminate
  }

  // ----- What a call reports -----

  /** What argument validation and beforeToolCall may answer. */
  datatype Preflight = Throws(message: string) | Blocks(reason: string, terminate: bool) | Allows

  /** What afterToolCall may answer: each field left out keeps the executed value. */
  datatype Override =
    | Fails(message: string)
    | Keeps
    | Replaces(content: Option<string>, isError: Option<bool>, terminate: Option<bool>)

  /**
   * What the environment answers about one call: validation and beforeToolCall, the tool, afterToolCall, and
   * whether the abort signal fires before the call is ready to run, or later but before it is reported.
   */
  datatype CallWorld = CallWorld(
    preflight: Preflight, executed: Outcome, after: Override, firesBefore: bool, firesLater: bool)

  /** The same for the calls of a reply, with whether the signal has fired already. */
  datatype BatchWorld = BatchWorld(fired: bool, calls: seq<CallWorld>)

  /** The signal has fired by the end of the first n calls. */
  function Fired(w: BatchWorld, n: nat): bool
    requires n <= |w.calls|
  {
    if n == 0 then w.fired else Fired(w, n - 1) || w.calls[n-1].firesBefore || w.calls[n-1].firesLater
  }

  /** Call k gets to run: its tool exists, validation and hook allow it, and the signal has not fired. */
  predicate Ready(tools: seq<Tool>, call: ToolCall, w: BatchWorld, k: nat)
    requires k < |w.calls|
  {
    HasName(tools, call.name) && w.calls[k].preflight.Allows? && !Fired(w, k) && !w.calls[k].firesBefore
  }

  /** How a call was answered: refused before it ran, never launched, or run. */
  datatype Answer = Refused | Unlaunched | Ran

  /** The tool's own answer, each field replaced where the hook names it; an error if the hook threw. */
  ghost predicate Finalized(o: Outcome, executed: Outcome, after: Override) {
    && (after.Fails? ==> o.content == after.message && o.isError && !o.terminate)
    && (after.Keeps? ==>
          && o.content == executed.content && o.isError == executed.isError
          && o.terminate == executed.terminate)
    && (after.Replaces? ==>
          && (if after.content.Some? then o.content == after.content.value else o.content == executed.content)
          && (if after.isError.Some? then o.isError == after.isError.value else o.isError == executed.isError)
          && (if after.terminate.Some? then o.terminate == after.terminate.value
              else o.terminate == executed.terminate))
  }

  /** What a call that was refused reports: a missing tool first, then a failure, an abort, a block. */
  ghost predicate RefusedWith(o: Outcome, tools: seq<Tool>, call: ToolCall, p: Preflight, aborted: bool) {
    var known := HasName(tools, call.name);
    && o.isError
    && (!known ==> o.content == "Tool " + call.name + " not found")
    && (known && p.Throws? ==> o.content == p.message)
    && (known && !p.Throws? && aborted ==> o.content == "Operation aborted")
    && (known && p.Blocks? && !aborted ==> o.content == p.reason)
    && (o.terminate <==> known && p.Blocks? && !aborted && p.terminate)
  }

  /** What call k reports, given how it was answered. */
  ghost predicate Reports(tools: seq<Tool>, call: ToolCall, w: BatchWorld, k: nat, o: Outcome, a: Answer)
    requires k < |w.calls|
  {
    match a
    case Refused =>
      && !Ready(tools, call, w, k)
      && RefusedWith(o, tools, call, w.calls[k].preflight, Fired(w, k) || w.calls[k].firesBefore)
    case Unlaunched => Ready(tools, call, w, k) && o.isError && !o.terminate && o.content == "Operation aborted"
    case Ran => Ready(tools, call, w, k) && Finalized(o, w.calls[k].executed, w.calls[k].after)
  }

  ghost predicate AllReport(tools: seq<Tool>, calls: seq<ToolCall>, w: BatchWorld, outcomes: seq<Outcome>,
                            answers: seq<Answer>) {
    && |answers| == |outcomes| <= |calls| == |w.calls|
    && forall k :: 0 <= k < |outcomes| ==> Reports(tools, calls[k], w, k, outcomes[k], answers[k])
  }

  /** The batch goes on to the next call exactly while the signal has not fired. */
  ghost predicate CutByAbort(w: BatchWorld, n: nat) {
    && n <= |w.calls| && (w.calls != [] ==> n > 0)
    && (forall k :: 0 < k < n ==> !Fired(w, k))
    && (n < |w.calls| ==> Fired(w, n))
  }

  function ErrorOutcome(message: string): Outcome {
    Outcome(message, true, false)
  }

  const ABORTED := ErrorOutcome("Operation aborted")
}
