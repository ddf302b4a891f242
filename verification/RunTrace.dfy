/**
 * What the labels of a run show by themselves.  The theorems read nothing but the trace: what stops a
 * run, what makes it go on, when the queues are polled and what the next request is made from.
 */
module RunTrace {
  import opened Wrappers
  import opened AgentMessages
  import opened AgentTrace
  import opened ToolBatch
  import opened RunHistory

  // ----- Finding the turn of a label -----

  /** The labels of one turn between those of the turns before it and the rest of the trace. */
  ghost predicate TurnAt(r: Run, i: nat, a: seq<Label>, rest: seq<Label>) {
    && i < |r.turns|
    && a == Prologue(r) + TurnLabels(r.turns[..i])
    && Trace(r) == a + LastLabels(r.turns[..i+1]) + rest
    && (i + 1 == |r.turns| ==> rest == if r.finished then [AgentEnd(NewMessages(r))] else [])
    && (i + 1 < |r.turns| ==> rest != [] && rest[0].NextTurn?)
  }

  lemma {:induction false} LabelsOfTurn(ts: seq<Turn>, i: nat) returns (rest: seq<Label>)
    requires i < |ts|
    ensures TurnLabels(ts) == TurnLabels(ts[..i]) + LastLabels(ts[..i+1]) + rest
    ensures i + 1 == |ts| ==> rest == []
    ensures i + 1 < |ts| ==> LastLabels(ts[..i+2]) <= rest
  {
    hide LastLabels;
    var init := ts[..|ts|-1];
    assert TurnLabels(ts) == TurnLabels(init) + LastLabels(ts);
    if i + 1 == |ts| {
      rest := [];
      assert ts[..i+1] == ts;
    } else {
      var before := LabelsOfTurn(init, i);
      rest := before + LastLabels(ts);
      assert init[..i] == ts[..i] && init[..i+1] == ts[..i+1];
      if i + 2 == |ts| {
        assert ts[..i+2] == ts;
      } else {
        assert init[..i+2] == ts[..i+2];
      }
    }
  }

  lemma {:induction false} TurnOfPosition(ts: seq<Turn>, p: nat) returns (i: nat)
    requires p < |TurnLabels(ts)|
    ensures i < |ts| && |TurnLabels(ts[..i])| <= p < |TurnLabels(ts[..i])| + |LastLabels(ts[..i+1])|
  {
    hide LastLabels;
    var init := ts[..|ts|-1];
    if p < |TurnLabels(init)| {
      i := TurnOfPosition(init, p);
      assert init[..i] == ts[..i] && init[..i+1] == ts[..i+1];
    } else {
      i := |ts| - 1;
      assert ts[..i+1] == ts;
    }
  }

  predicate OfATurn(l: Label) {
    l.Requested? || l.Decided? || l.NextTurn?
  }

  /** A request, a decision or a preparation lies among the labels of some turn. */
  lemma Around(r: Run, p: nat) returns (i: nat, a: seq<Label>, rest: seq<Label>)
    requires p < |Trace(r)| && OfATurn(Trace(r)[p])
    ensures TurnAt(r, i, a, rest) && |a| <= p < |a| + |LastLabels(r.turns[..i+1])|
    ensures Trace(r)[p] == LastLabels(r.turns[..i+1])[p-|a|]
  {
    hide LastLabels, TurnLabels, NewMessages;
    CommitShape(r.prompts);
    var labels := TurnLabels(r.turns);
    var end := if r.finished then [AgentEnd(NewMessages(r))] else [];
    var start := |Prologue(r)|;
    assert Trace(r) == Prologue(r) + labels + end;
    assert p >= start && p - start < |labels|;
    i := TurnOfPosition(r.turns, p - start);
    var more := LabelsOfTurn(r.turns, i);
    a, rest := Prologue(r) + TurnLabels(r.turns[..i]), more + end;
    assert Trace(r) == a + LastLabels(r.turns[..i+1]) + rest;
    if i + 1 < |r.turns| {
      NextLabel(r.turns[..i+2]);
    }
  }

  lemma NextLabel(ts: seq<Turn>)
    requires |ts| >= 2
    ensures |LastLabels(ts)| > 0 && LastLabels(ts)[0].NextTurn?
  {
  }

  /** Where the request and the decision stand among the labels of a turn. */
  lemma MiddleShape(t: Turn)
    requires TurnOk(t)
    ensures var m, c := Middle(t), Commit(Injected(t));
      && |m| >= |c| + 3
      && m == c + [Requested(Asked(t).messages, Asked(t).tools)]
              + (t.stream + t.batch + [Decided(t.decision), TurnEnd(t.reply, TurnResults(t))])
      && m[|m|-2..] == [Decided(t.decision), TurnEnd(t.reply, TurnResults(t))]
      && (forall k :: 0 <= k < |m| && m[k].Requested? ==> k == |c|)
      && (forall k :: 0 <= k < |m| && m[k].Decided? ==> k == |m| - 2)
      && (forall k :: 0 <= k < |m| ==> !m[k].NextTurn?)
  {
    hide Commit, Injected, Asked, TurnResults;
    var c, q := Commit(Injected(t)), [Requested(Asked(t).messages, Asked(t).tools)];
    CommitShape(Injected(t));
    if !Failed(t) {
      BatchShape(t.reply.calls, t.batch);
    }
    assert forall k :: 0 <= k < |t.batch| ==> InBatch(t.batch[k]);
    hide Answered, Completed;
    var e := [Decided(t.decision), TurnEnd(t.reply, TurnResults(t))];
    assert Middle(t) == c + q + (t.stream + t.batch + e);
    OneRequestOneDecision(c, Requested(Asked(t).messages, Asked(t).tools), t.stream + t.batch,
                          Decided(t.decision), TurnEnd(t.reply, TurnResults(t)));
  }

  lemma OneRequestOneDecision(before: seq<Label>, request: Label, between: seq<Label>, decision: Label, end: Label)
    requires forall l <- before :: !OfATurn(l)
    requires forall l <- between :: !OfATurn(l)
    requires request.Requested? && decision.Decided? && end.TurnEnd?
    ensures var m := before + [request] + (between + [decision, end]);
      && m[|m|-2..] == [decision, end]
      && (forall k :: 0 <= k < |m| && m[k].Requested? ==> k == |before|)
      && (forall k :: 0 <= k < |m| && m[k].Decided? ==> k == |m| - 2)
      && (forall k :: 0 <= k < |m| ==> !m[k].NextTurn?)
  {
    var m := before + [request] + (between + [decision, end]);
    forall k | 0 <= k < |m|
      ensures m[k].Requested? ==> k == |before|
      ensures m[k].Decided? ==> k == |m| - 2
      ensures !m[k].NextTurn?
    {
      if k < |before| {
        assert m[k] == before[k] && before[k] in before;
      } else if |before| < k < |m| - 2 {
        var b := between[k-|before|-1];
        assert m[k] == b && b in between;
      }
    }
  }

  function OpeningOf(ts: seq<Turn>): seq<Label>
    requires ts != []
  {
    if |ts| == 1 then [] else Opening(ts[|ts|-1])
  }

  /** The labels of the i-th turn are its opening, its middle and its closing. */
  lemma TurnParts(r: Run, i: nat)
    requires RunOk(r) && i < |r.turns|
    ensures var t, opening := r.turns[i], OpeningOf(r.turns[..i+1]);
      && TurnOk(t) && LastLabels(r.turns[..i+1]) == opening + Middle(t) + Closing(t)
      && (forall l <- opening :: !l.Decided? && !l.Requested?)
      && (forall l <- Closing(t) :: l.SteeringPoll? || l.FollowUpPoll?)
  {
    hide Middle, TurnOk;
  }

  /** From a decision on: the end of its turn, the polls after it, and the rest. */
  lemma FromDecision(r: Run, p: nat) returns (i: nat, rest: seq<Label>)
    requires RunOk(r) && p < |Trace(r)| && Trace(r)[p].Decided?
    ensures i < |r.turns| && TurnOk(r.turns[i])
    ensures var t := r.turns[i];
      Trace(r)[p..] == [Decided(t.decision), TurnEnd(t.reply, TurnResults(t))] + Closing(t) + rest
    ensures i + 1 == |r.turns| ==> rest == if r.finished then [AgentEnd(NewMessages(r))] else []
    ensures i + 1 < |r.turns| ==> rest != [] && rest[0].NextTurn?
  {
    hide Middle, TurnOk, LastLabels, NewMessages, TurnLabels, Prologue, RunOk, Opening, Closing, OpeningOf, Trace;
    var a;
    i, a, rest := Around(r, p);
    var t := r.turns[i];
    TurnParts(r, i);
    MiddleShape(t);
    CutAt(a, OpeningOf(r.turns[..i+1]), Middle(t), Closing(t), rest, p, |Middle(t)| - 2);
  }

  /** From a request on: the streamed reply, the tool batch, the end of the turn and its polls. */
  lemma FromRequest(r: Run, p: nat) returns (i: nat, rest: seq<Label>)
    requires RunOk(r) && p < |Trace(r)| && Trace(r)[p].Requested?
    ensures i < |r.turns| && TurnOk(r.turns[i])
    ensures var t := r.turns[i];
      Trace(r)[p..] == [Requested(Asked(t).messages, Asked(t).tools)]
        + (t.stream + t.batch + [Decided(t.decision), TurnEnd(t.reply, TurnResults(t))]) + Closing(t) + rest
    ensures i + 1 == |r.turns| ==> rest == if r.finished then [AgentEnd(NewMessages(r))] else []
    ensures i + 1 < |r.turns| ==> rest != [] && rest[0].NextTurn?
  {
    hide Middle, TurnOk, LastLabels, NewMessages, TurnLabels, Prologue, RunOk, Opening, Closing, OpeningOf, Trace;
    var a;
    i, a, rest := Around(r, p);
    var t := r.turns[i];
    TurnParts(r, i);
    MiddleShape(t);
    hide TurnResults, Asked;
    var m, c := Middle(t), Commit(Injected(t));
    CutAt(a, OpeningOf(r.turns[..i+1]), m, Closing(t), rest, p, |c|);
    assert m[|c|..] == [Requested(Asked(t).messages, Asked(t).tools)]
      + (t.stream + t.batch + [Decided(t.decision), TurnEnd(t.reply, TurnResults(t))]);
  }

  lemma InConcat(b: seq<Label>, c: seq<Label>, d: seq<Label>, q: nat)
    requires q < |b + c + d|
    ensures q < |b| ==> (b + c + d)[q] in b
    ensures |b| <= q < |b| + |c| ==> (b + c + d)[q] == c[q-|b|]
    ensures q >= |b| + |c| ==> (b + c + d)[q] in d
  {
  }

  /** The only place of a label in a concatenation, and what follows it. */
  lemma CutAt(a: seq<Label>, b: seq<Label>, c: seq<Label>, d: seq<Label>, e: seq<Label>, p: nat, k: nat)
    requires |a| <= p < |a| + |b + c + d| && k < |c|
    requires var l := (a + (b + c + d) + e)[p]; l !in b && l !in d && forall j :: 0 <= j < |c| && c[j] == l ==> j == k
    ensures p == |a| + |b| + k && (a + (b + c + d) + e)[p..] == c[k..] + d + e
  {
    InConcat(b, c, d, p - |a|);
  }

  // ----- What stops a run -----

  lemma Suffix(ls: seq<Label>, p: nat, s: seq<Label>)
    requires p <= |ls| && ls[p..] == s
    ensures |ls| == p + |s| && forall k :: 0 <= k < |s| ==> ls[p+k] == s[k]
  {
  }

  /** What a stretch at the end of a turn says of the labels from its decision on. */
  ghost predicate TurnEnds(ls: seq<Label>, p: nat, d: Decision, reply: Message, results: seq<Message>) {
    p + 1 < |ls| && ls[p] == Decided(d) && ls[p+1] == TurnEnd(reply, results)
  }

  /** The same on the trace, with the polls after it and the label after those. */
  lemma AfterDecision(r: Run, p: nat) returns (i: nat)
    requires RunOk(r) && p < |Trace(r)| && Trace(r)[p].Decided?
    ensures i < |r.turns| && TurnOk(r.turns[i])
    ensures var t, ls, next := r.turns[i], Trace(r), p + 2 + |Closing(r.turns[i])|;
      && TurnEnds(ls, p, t.decision, t.reply, TurnResults(t))
      && next <= |ls| && ls[p+2..next] == Closing(t)
      && (Continues(t) ==> if next == |ls| then !r.finished else ls[next].NextTurn?)
      && (!Continues(t) ==> r.finished && |ls| == next + 1 && ls[next] == AgentEnd(NewMessages(r)))
  {
    hide Trace, TurnOk, Closing, TurnResults, NewMessages, Continues;
    var rest;
    i, rest := FromDecision(r, p);
    var t := r.turns[i];
    NextRequestHasACause(r, i);
    OnlyLastIsCutShort(r, i);
    hide RunOk;
    EndOfTurn(Trace(r), p, t.decision, t.reply, TurnResults(t), Closing(t), rest);
  }

  lemma OnlyLastIsCutShort(r: Run, i: nat)
    requires RunOk(r) && i < |r.turns|
    ensures !Continues(r.turns[i]) ==> i + 1 == |r.turns| && r.finished
  {
    NextRequestHasACause(r, i);
  }

  lemma EndOfTurn(ls: seq<Label>, p: nat, d: Decision, reply: Message, results: seq<Message>, closing: seq<Label>,
                  rest: seq<Label>)
    requires p < |ls| && ls[p..] == [Decided(d), TurnEnd(reply, results)] + closing + rest
    ensures TurnEnds(ls, p, d, reply, results)
    ensures var next := p + 2 + |closing|;
      next <= |ls| && ls[p+2..next] == closing && ls[next..] == rest
  {
    Suffix(ls, p, [Decided(d), TurnEnd(reply, results)] + closing + rest);
  }

  /** An end decision stops the run: its turn ends, the agent ends, and nothing else happens. */
  lemma EndStopsTheRun(r: Run, p: nat)
    requires RunOk(r) && p < |Trace(r)| && Trace(r)[p] == Decided(End)
    ensures r.finished && |Trace(r)| == p + 3
    ensures Trace(r)[p+1].TurnEnd? && Trace(r)[p+2] == AgentEnd(NewMessages(r))
  {
    var i := AfterDecision(r, p);
    hide RunOk, TurnOk, Trace, NewMessages, TurnResults;
    assert r.turns[i].decision == End;
  }

  /** The reply to a request: the first message that ends after it. */
  ghost predicate EndsReply(ls: seq<Label>, p: nat) {
    && p < |ls| && ls[p].MessageEnd?
    && exists q :: 0 <= q < p && ls[q].Requested? && forall j :: q < j < p ==> !ls[j].MessageEnd?
  }

  /** From the end of a reply to the decision of its turn. */
  lemma FromReply(r: Run, p: nat) returns (i: nat)
    requires RunOk(r) && EndsReply(Trace(r), p)
    ensures i < |r.turns| && TurnOk(r.turns[i]) && r.turns[i].reply == Trace(r)[p].m
    ensures var t, d := r.turns[i], p + 1 + |r.turns[i].batch|;
      TurnEnds(Trace(r), d, t.decision, t.reply, TurnResults(t))
  {
    hide RunOk, Trace, TurnResults, Closing, Asked, TurnOk;
    var ls := Trace(r);
    var q :| 0 <= q < p && ls[q].Requested? && forall j :: q < j < p ==> !ls[j].MessageEnd?;
    var rest;
    i, rest := FromRequest(r, q);
    var t := r.turns[i];
    GoodStream(t);
    StreamEndsOnce(ls, q, Requested(Asked(t).messages, Asked(t).tools), t.stream, t.reply, t.batch, t.decision,
      TurnResults(t), Closing(t) + rest, p);
  }

  lemma GoodStream(t: Turn)
    requires TurnOk(t)
    ensures StreamOk(t.stream, t.reply)
  {
  }

  lemma StreamEndsOnce(ls: seq<Label>, q: nat, l: Label, stream: seq<Label>, reply: Message, batch: seq<Label>,
                       d: Decision, results: seq<Message>, rest: seq<Label>, p: nat)
    requires q < p < |ls| && StreamOk(stream, reply)
    requires ls[q..] == [l] + (stream + batch + [Decided(d), TurnEnd(reply, results)]) + rest
    requires ls[p].MessageEnd? && forall j :: q < j < p ==> !ls[j].MessageEnd?
    ensures ls[p] == MessageEnd(reply) && TurnEnds(ls, p + 1 + |batch|, d, reply, results)
  {
    var all := [l] + (stream + batch + [Decided(d), TurnEnd(reply, results)]) + rest;
    Suffix(ls, q, all);
    assert forall k :: 0 <= k < |stream| ==> ls[q+1+k] == stream[k];
    assert ls[q+|stream|] == MessageEnd(reply);
    assert p == q + |stream|;
  }

  /** A failed or aborted reply stops the run: no tool, poll or request follows it. */
  lemma FailedReplyStopsTheRun(r: Run, p: nat)
    requires RunOk(r) && EndsReply(Trace(r), p)
    requires Trace(r)[p].m.Assistant? && (Trace(r)[p].m.stop == Error || Trace(r)[p].m.stop == Aborted)
    ensures r.finished && |Trace(r)| == p + 4
    ensures Trace(r)[p+1].Decided? && Trace(r)[p+2] == TurnEnd(Trace(r)[p].m, [])
    ensures Trace(r)[p+3] == AgentEnd(NewMessages(r))
  {
    hide RunOk, Trace, NewMessages, EndsReply;
    var i := FromReply(r, p);
    var t := r.turns[i];
    FailedTurn(t);
    hide TurnOk, TurnResults;
    var j := AfterDecision(r, p + 1);
    FailedTurn(r.turns[j]);
  }

  lemma FailedTurn(t: Turn)
    requires TurnOk(t) && (t.reply.stop == Error || t.reply.stop == Aborted)
    ensures t.batch == [] && TurnResults(t) == [] && Closing(t) == [] && !Continues(t)
  {
  }

  // ----- What makes it go on -----

  /** Some call of the reply was not answered by a result that asks to terminate. */
  predicate ToolsContinue(reply: Message, results: seq<Message>)
    requires reply.Assistant?
  {
    && reply.calls != []
    && (reply.stop == Length || results == []
        || exists k :: 0 <= k < |results| && !(results[k].ToolResult? && results[k].outcome.terminate))
  }

  lemma MoreIsToolsContinue(t: Turn)
    requires TurnOk(t) && !(t.reply.stop == Error || t.reply.stop == Aborted)
    ensures More(t) <==> ToolsContinue(t.reply, TurnResults(t))
  {
    var results := TurnResults(t);
    if t.reply.calls != [] && t.reply.stop != Length && results != [] {
      assert |results| == |t.outcomes|;
      if k :| 0 <= k < |t.outcomes| && !t.outcomes[k].terminate {
        assert !(results[k].ToolResult? && results[k].outcome.terminate);
      }
    }
  }

  /**
   * After any other decision the queues are polled, steering first and follow-ups only when neither tools nor
   * steering continue the run; another turn is prepared exactly when tools, a poll that took something or
   * a continue decision ask for one, and otherwise the agent ends.
   */
  lemma DecisionsDecide(r: Run, p: nat)
    requires RunOk(r) && p < |Trace(r)| && Trace(r)[p].Decided? && Trace(r)[p].decision != End
    ensures p + 1 < |Trace(r)| && Trace(r)[p+1].TurnEnd? && Trace(r)[p+1].reply.Assistant?
    ensures var reply, results, d := Trace(r)[p+1].reply, Trace(r)[p+1].results, Trace(r)[p].decision;
      reply.stop == Error || reply.stop == Aborted || (
        && p + 2 < |Trace(r)| && Trace(r)[p+2].SteeringPoll?
        && var natural := ToolsContinue(reply, results) || Trace(r)[p+2].got != [];
        && (!natural ==> p + 3 < |Trace(r)| && Trace(r)[p+3].FollowUpPoll?)
        && var next := if natural then p + 3 else p + 4;
        && (if natural || Trace(r)[p+3].got != [] || d == Continue
            then if next == |Trace(r)| then !r.finished else Trace(r)[next].NextTurn?
            else r.finished && |Trace(r)| == next + 1 && Trace(r)[next] == AgentEnd(NewMessages(r))))
  {
    hide RunOk, Trace, NewMessages, Answered, Completed, StreamOk;
    var i := AfterDecision(r, p);
    var t := r.turns[i];
    if !(t.reply.stop == Error || t.reply.stop == Aborted) {
      MoreIsToolsContinue(t);
      ClosingPolls(t);
      hide Closing, TurnOk, ToolsContinue, More, TurnResults;
      var ls, c := Trace(r), Closing(t);
      assert ls[p+2..p+2+|c|] == c && ls[p+2] == c[0] == SteeringPoll(t.steering);
      if !More(t) && t.steering == [] {
        assert ls[p+3] == c[1] == FollowUpPoll(t.followUps);
      }
    }
  }

  lemma ClosingPolls(t: Turn)
    requires TurnOk(t) && !Stops(t)
    ensures More(t) || t.steering != [] ==> Closing(t) == [SteeringPoll(t.steering)] && t.followUps == []
    ensures !(More(t) || t.steering != []) ==> Closing(t) == [SteeringPoll(t.steering), FollowUpPoll(t.followUps)]
  {
  }

  // ----- What goes into the next request -----

  lemma FromNextTurn(r: Run, p: nat) returns (i: nat)
    requires RunOk(r) && p < |Trace(r)| && Trace(r)[p].NextTurn?
    ensures 0 < i < |r.turns| && TurnOk(r.turns[i]) && TurnOk(r.turns[i-1]) && Follows(r.turns[i-1], r.turns[i])
    ensures |Closing(r.turns[i-1])| <= p && Trace(r)[p-|Closing(r.turns[i-1])|..p] == Closing(r.turns[i-1])
    ensures Opening(r.turns[i]) + Middle(r.turns[i]) <= Trace(r)[p..]
  {
    hide Middle, TurnOk, LastLabels, NewMessages, TurnLabels, Prologue, RunOk, Opening, Closing, OpeningOf, Trace,
         Follows;
    var a, rest;
    i, a, rest := Around(r, p);
    var t := r.turns[i];
    TurnParts(r, i);
    MiddleShape(t);
    PreparesInOpening(r.turns[..i+1], Trace(r), a, rest, p);
    ChainedTurns(r, i);
    EndOfPrevious(r.turns, i);
    EndsWith(Trace(r), Prologue(r), TurnLabels(r.turns[..i]), LastLabels(r.turns[..i+1]), rest, Closing(r.turns[i-1]));
  }

  lemma EndsWith(ls: seq<Label>, start: seq<Label>, before: seq<Label>, turn: seq<Label>, rest: seq<Label>,
                 c: seq<Label>)
    requires ls == start + before + turn + rest && |c| <= |before| && before[|before|-|c|..] == c
    ensures var p := |start + before|; |c| <= p <= |ls| && ls[p-|c|..p] == c
  {
  }

  lemma ChainedTurns(r: Run, i: nat)
    requires RunOk(r) && 0 < i < |r.turns|
    ensures TurnOk(r.turns[i-1]) && TurnOk(r.turns[i]) && Follows(r.turns[i-1], r.turns[i])
  {
  }

  /** The labels of the earlier turns end with the polls of the last of them. */
  lemma EndOfPrevious(ts: seq<Turn>, i: nat)
    requires 0 < i <= |ts|
    ensures var c, ls := Closing(ts[i-1]), TurnLabels(ts[..i]);
      |c| <= |ls| && ls[|ls|-|c|..] == c
  {
    hide Middle, Opening, Closing;
    assert ts[..i][..i-1] == ts[..i-1];
  }

  lemma PreparesInOpening(ts: seq<Turn>, ls: seq<Label>, a: seq<Label>, rest: seq<Label>, p: nat)
    requires ts != [] && ls == a + LastLabels(ts) + rest && |a| <= p < |a| + |LastLabels(ts)| && ls[p].NextTurn?
    requires forall l <- Middle(ts[|ts|-1]) :: !l.NextTurn?
    ensures |ts| > 1 && p == |a| && Opening(ts[|ts|-1]) + Middle(ts[|ts|-1]) <= ls[p..]
  {
    hide Middle;
    var t := ts[|ts|-1];
    var q := p - |a|;
    var opening := OpeningOf(ts);
    assert LastLabels(ts) == opening + Middle(t) + Closing(t) && ls[p] == LastLabels(ts)[q];
    InConcat(opening, Middle(t), Closing(t), q);
    assert q < |opening|;
  }

  /** From `start` on, `ms` are committed and then a request is made. */
  ghost predicate InjectsAt(ls: seq<Label>, start: nat, ms: seq<Message>) {
    var end := start + |Commit(ms)|;
    end < |ls| && ls[start..end] == Commit(ms) && ls[end].Requested?
  }

  /** Steering is polled again, or not, before the turn starts. */
  ghost predicate StartsTurn(ls: seq<Label>, p: nat, repolls: bool) {
    && p + 2 < |ls|
    && if repolls then ls[p+1].SteeringPoll? && ls[p+2] == TurnStart else ls[p+1] == TurnStart
  }

  /**
   * A turn is prepared directly after a poll.  Only if that took nothing is steering polled again, before the
   * turn starts; then come the prepared messages and those of the poll that took some, up to tool declarations,
   * and then the request.
   */
  lemma PreparedTurnOnTrace(r: Run, p: nat) returns (ms: seq<Message>)
    requires RunOk(r) && p < |Trace(r)| && Trace(r)[p].NextTurn?
    ensures p > 0 && (Trace(r)[p-1].SteeringPoll? || Trace(r)[p-1].FollowUpPoll?)
    ensures StartsTurn(Trace(r), p, Trace(r)[p-1].got == [])
    ensures InjectsAt(Trace(r), if Trace(r)[p-1].got == [] then p + 3 else p + 2, ms)
    ensures var queued := if Trace(r)[p-1].got == [] then Trace(r)[p+1].got else Trace(r)[p-1].got;
      NonSystem(ms) == NonSystem(Trace(r)[p].prepared) + NonSystem(queued)
  {
    hide RunOk, Trace, TurnOk, Follows, Closing, Opening, Middle, Injected, InjectsAt, StartsTurn, Commit;
    var i := FromNextTurn(r, p);
    var t := r.turns[i];
    ms := Injected(t);
    DeliveredMessagesAreInjected(t);
    CarriedIsLastPoll(r.turns[i-1], t);
    LastOf(Trace(r), p, Closing(r.turns[i-1]));
    OpeningThenCommit(t, Trace(r), p);
  }

  lemma LastOf(ls: seq<Label>, p: nat, c: seq<Label>)
    requires 0 < |c| <= p <= |ls| && ls[p-|c|..p] == c
    ensures ls[p-1] == c[|c|-1]
  {
  }

  lemma CarriedIsLastPoll(u: Turn, t: Turn)
    requires TurnOk(u) && TurnOk(t) && Follows(u, t)
    ensures Closing(u) != []
    ensures var l := Closing(u)[|Closing(u)|-1];
      (l.SteeringPoll? || l.FollowUpPoll?) && l.got == t.carried
  {
    ClosingPolls(u);
  }

  lemma StretchAt(ls: seq<Label>, p: nat, o: seq<Label>, m: seq<Label>, k: nat)
    requires p <= |ls| && o + m <= ls[p..] && k < |m|
    ensures p + |o| + k < |ls| && forall j :: 0 <= j < |o| ==> ls[p+j] == o[j]
    ensures ls[p+|o|..p+|o|+k] == m[..k] && ls[p+|o|+k] == m[k]
  {
    assert forall j :: 0 <= j < |o| ==> ls[p+j] == (o + m)[j];
    assert ls[p..][|o|..|o|+k] == m[..k];
  }

  lemma OpeningThenCommit(t: Turn, ls: seq<Label>, p: nat)
    requires p <= |ls| && TurnOk(t) && Opening(t) + Middle(t) <= ls[p..]
    ensures p + 1 < |ls| && ls[p] == NextTurn(t.prepared)
    ensures StartsTurn(ls, p, t.carried == [])
    ensures t.carried == [] ==> ls[p+1] == SteeringPoll(t.repolled)
    ensures Queued(t) == if t.carried == [] then t.repolled else t.carried
    ensures InjectsAt(ls, if t.carried == [] then p + 3 else p + 2, Injected(t))
  {
    hide Middle, Commit, Injected, TurnOk, Asked, TurnResults;
    MiddleShape(t);
    var o, m, c := Opening(t), Middle(t), Commit(Injected(t));
    StretchAt(ls, p, o, m, |c|);
    assert m[..|c|] == c;
  }

  /** The first turn injects what the initial poll took. */
  lemma FirstTurnOnTrace(r: Run) returns (ms: seq<Message>)
    requires RunOk(r) && r.turns != []
    ensures NonSystem(ms) == NonSystem(r.first) && InjectsAt(Trace(r), |Prologue(r)|, ms)
  {
    hide RunOk, Injected, Middle, Commit, Prologue, Trace, TurnOk;
    var t := r.turns[0];
    ms := Injected(t);
    FirstInjected(r);
    TraceStarts(r);
    MiddleShape(t);
    StretchAt(Trace(r), 0, Prologue(r), Middle(t), |Commit(ms)|);
    assert Middle(t)[..|Commit(ms)|] == Commit(ms);
  }

  lemma FirstInjected(r: Run)
    requires RunOk(r) && r.turns != []
    ensures TurnOk(r.turns[0]) && NonSystem(Injected(r.turns[0])) == NonSystem(r.first)
  {
    hide Injected, TurnOk;
    var t := r.turns[0];
    DeliveredMessagesAreInjected(t);
    assert FirstTurn(r, t);
    assert NonSystem(t.prepared) == [];
  }

  lemma TraceStarts(r: Run)
    requires r.turns != []
    ensures Prologue(r) + Middle(r.turns[0]) <= Trace(r)[0..]
  {
    var rest := LabelsOfTurn(r.turns, 0);
    hide Middle, Prologue, NewMessages, Closing, LastLabels;
    FirstLabels(r.turns);
    StartsWith(Prologue(r), Middle(r.turns[0]), Closing(r.turns[0]), rest,
      if r.finished then [AgentEnd(NewMessages(r))] else []);
  }

  lemma FirstLabels(ts: seq<Turn>)
    requires ts != []
    ensures TurnLabels(ts[..0]) + LastLabels(ts[..1]) == Middle(ts[0]) + Closing(ts[0])
  {
    hide Middle, Closing, Opening;
  }

  lemma StartsWith(a: seq<Label>, m: seq<Label>, c: seq<Label>, rest: seq<Label>, end: seq<Label>)
    ensures a + m <= (a + (m + c + rest) + end)[0..]
  {
    assert a + (m + c + rest) + end == (a + m) + (c + rest + end);
  }

  /**
   * What a request is made from: the context a hook chose, or else the previous request with its reply and
   * results, then the injected messages, unless a hook overrides the request itself.
   */
  lemma RequestsAreMadeFrom(r: Run, i: nat)
    requires RunOk(r) && i < |r.turns|
    ensures var u := r.turns[i];
      && (u.replaced.Some? ==> u.before == u.replaced.value)
      && (u.replaced.None? && i == 0 ==> u.before == Context(r.start.messages + r.prompts, r.start.tools))
      && (u.replaced.None? && i > 0 ==>
            && var t := r.turns[i-1];
            && u.before.messages == Asked(t).messages + [t.reply] + Results(t.reply.calls, t.outcomes)
            && u.before.tools == Asked(t).tools)
      && (u.overridden.Some? ==> Asked(u) == u.overridden.value)
      && (u.overridden.None? ==>
            Asked(u).messages == u.before.messages + Injected(u) && Asked(u).tools == u.before.tools)
  {
    hide Injected, TurnOk;
    if i > 0 {
      assert Follows(r.turns[i-1], r.turns[i]);
    } else {
      assert FirstTurn(r, r.turns[0]);
    }
  }

  // ----- What the tools of a run report -----

  lemma GoodTurn(r: Run, i: nat)
    requires RunOk(r) && i < |r.turns|
    ensures TurnOk(r.turns[i])
  {
    hide TurnOk;
  }

  /**
   * The k-th result of a turn is that of its k-th call: the truncation if the reply was cut off, and otherwise
   * what that call's own tool answered, or why it was refused, with the tools the reply was asked with.
   */
  lemma ResultsAreAnswers(r: Run, i: nat, k: nat)
    requires RunOk(r) && i < |r.turns| && k < |TurnResults(r.turns[i])|
    ensures var t, m := r.turns[i], TurnResults(r.turns[i])[k];
      && !Failed(t) && k < |t.reply.calls| && m.ToolResult? && m.callId == t.reply.calls[k].id
      && (t.reply.stop == Length ==> m.outcome.isError && !m.outcome.terminate)
      && (t.reply.stop != Length ==>
            && k < |t.answers|
            && Reports(Asked(t).tools, t.reply.calls[k], t.world, k, m.outcome, t.answers[k]))
  {
    hide Asked, Reports, CutByAbort, RunOk;
    var t := r.turns[i];
    GoodTurn(r, i);
    hide StreamOk, Completed;
  }

  /** Every call of a reply has a result, unless the signal fired after the last one reported and not before. */
  lemma ResultsStopAtAbort(r: Run, i: nat)
    requires RunOk(r) && i < |r.turns| && !Failed(r.turns[i])
    ensures var t, n := r.turns[i], |TurnResults(r.turns[i])|;
      && (t.reply.calls != [] ==> n > 0)
      && (n < |t.reply.calls| ==> t.reply.stop != Length && Fired(t.world, n))
      && (t.reply.stop != Length ==> forall k :: 0 < k < n ==> !Fired(t.world, k))
  {
    hide Asked, AllReport;
    assert TurnOk(r.turns[i]);
  }
}
