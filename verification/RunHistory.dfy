/**
 * The history of a run: one record per turn.  A history determines the run's whole trace, its
 * transcript and what became of every queued message; the lemmas state what holds of every
 * well-formed history.  AgentLoop proves that runLoop produces exactly such histories.
 */
module RunHistory {
  import opened Wrappers
  import opened AgentMessages
  import opened AgentTrace
  import opened ToolBatch
  import opened ToolChanges

  datatype Context = Context(messages: seq<Message>, tools: seq<Tool>)

  datatype TurnRecord = TurnRecord(
    replaced: Option<Context>,     // context chosen by prepareNextTurn, if any
    prepared: seq<Message>,        // messages added by prepareNextTurn
    carried: seq<Message>,         // queued messages taken after the previous turn
    repolled: seq<Message>,        // steering taken while preparing, when nothing was carried
    before: Context,               // context when the messages are injected
    overridden: Option<Context>,   // context chosen by prepareRequest, if any
    stream: seq<Label>,            // events of the streamed reply
    reply: Message,
    batch: seq<Label>,             // labels of the tool batch
    outcomes: seq<Outcome>,
    answers: seq<Answer>,          // how the calls were answered
    world: BatchWorld,             // what tools and hooks say about them
    decision: Decision,
    steering: seq<Message>,        // steering taken after the turn
    followUps: seq<Message>        // follow-ups taken after the turn
  )

  /** Replies are assistant messages; a batch reports a prefix of its calls. */
  type Turn = t: TurnRecord |
      t.reply.Assistant? && |t.outcomes| <= |t.reply.calls| == |t.world.calls|
    witness TurnRecord(None, [], [], [], Context([], []), None, [], Assistant(Stop, [], ""), [], [], [],
                       BatchWorld(false, []), Proceed, [], [])

  // ----- One turn -----

  function Queued(t: Turn): seq<Message> {
    if t.carried != [] then t.carried else t.repolled
  }

  /** The messages put in front of the request, tool declarations included. */
  function Injected(t: Turn): seq<Message> {
    DeclareToolChanges(t.before.messages, t.before.tools, t.prepared + Queued(t))
  }

  /** The context a hook chose, or the current one. */
  function Chosen(hook: Option<Context>, current: Context): Context {
    if hook.Some? then hook.value else current
  }

  function Asked(t: Turn): Context {
    Chosen(t.overridden, Context(t.before.messages + Injected(t), t.before.tools))
  }

  function TurnResults(t: Turn): seq<Message>
  {
    Results(t.reply.calls, t.outcomes)
  }

  function After(t: Turn): Context
  {
    Context(Asked(t).messages + [t.reply] + TurnResults(t), Asked(t).tools)
  }

  /** What the turn adds to newMessages. */
  function Added(t: Turn): seq<Message>
  {
    Injected(t) + [t.reply] + TurnResults(t)
  }

  predicate Failed(t: Turn) {
    t.reply.stop == Error || t.reply.stop == Aborted
  }

  /** The turn asks for another request because of its tool results. */
  predicate More(t: Turn)
  {
    !Failed(t) && t.reply.calls != [] && (t.reply.stop == Length || !ShouldTerminate(t.outcomes))
  }

  predicate Stops(t: Turn) {
    Failed(t) || t.decision == End
  }

  /** Another request follows: from tools, queues, or one forced by the decision. */
  predicate Continues(t: Turn)
  {
    !Stops(t) && (More(t) || t.steering != [] || t.followUps != [] || t.decision == Continue)
  }

  function Carry(t: Turn): seq<Message> {
    if t.steering != [] then t.steering else t.followUps
  }

  /** The streamed reply is one message: start, updates, end with the final reply. */
  ghost predicate StreamOk(stream: seq<Label>, reply: Message) {
    && |stream| >= 2 && stream[0].MessageStart? && stream[|stream|-1] == MessageEnd(reply)
    && forall i :: 0 < i < |stream| - 1 ==> stream[i].MessageUpdate?
  }

  /** What the calls report: the truncation if the reply was cut off, else what their tools or refusals say. */
  ghost predicate Answered(t: Turn) {
    if t.reply.stop == Length then
      && |t.outcomes| == |t.reply.calls|
      && forall k :: 0 <= k < |t.outcomes| ==> t.outcomes[k].isError && !t.outcomes[k].terminate
    else AllReport(Asked(t).tools, t.reply.calls, t.world, t.outcomes, t.answers) && CutByAbort(t.world, |t.outcomes|)
  }

  ghost predicate TurnOk(t: Turn) {
    && StreamOk(t.stream, t.reply)
    && (if Failed(t) then t.batch == [] && t.outcomes == []
        else Completed(t.reply.calls, t.batch, t.outcomes) && Answered(t))
    && (Stops(t) ==> t.steering == [] && t.followUps == [])
    && (More(t) || t.steering != [] ==> t.followUps == [])
    && (t.carried != [] ==> t.repolled == [])
  }

  // ----- Its labels -----

  function Commit(ms: seq<Message>): seq<Label> {
    if ms == [] then [] else Commit(ms[..|ms|-1]) + [MessageStart(ms[|ms|-1]), MessageEnd(ms[|ms|-1])]
  }

  /** Between the previous turn's polls and the new turn's messages. */
  function Opening(t: Turn): seq<Label> {
    [NextTurn(t.prepared)] + (if t.carried == [] then [SteeringPoll(t.repolled)] else []) + [TurnStart]
  }

  function Middle(t: Turn): seq<Label>
  {
    Commit(Injected(t)) + [Requested(Asked(t).messages, Asked(t).tools)] + t.stream + t.batch
    + [Decided(t.decision), TurnEnd(t.reply, TurnResults(t))]
  }

  /** The polls after a turn: steering first, follow-ups only when nothing else continues the run. */
  function Closing(t: Turn): seq<Label>
  {
    if Stops(t) then []
    else if More(t) || t.steering != [] then [SteeringPoll(t.steering)]
    else [SteeringPoll(t.steering), FollowUpPoll(t.followUps)]
  }

  // ----- A run -----

  /** first: messages taken by the initial steering poll, unless it was skipped. */
  datatype Run = Run(
    start: Context, prompts: seq<Message>, skipped: bool, first: seq<Message>, turns: seq<Turn>, finished: bool)

  ghost predicate Follows(t: Turn, u: Turn)
  {
    && Continues(t)
    && u.carried == Carry(t)
    && u.before == Chosen(u.replaced, After(t))
  }

  ghost predicate FirstTurn(r: Run, t: Turn) {
    && t.replaced == None && t.prepared == [] && t.carried == r.first && t.repolled == []
    && t.before == Context(r.start.messages + r.prompts, r.start.tools)
  }

  /** Good turns, each following from the one before. */
  ghost predicate Chain(r: Run) {
    && (forall i {:trigger TurnOk(r.turns[i])} :: 0 <= i < |r.turns| ==> TurnOk(r.turns[i]))
    && (r.skipped ==> r.first == [])
    && (r.turns != [] ==> FirstTurn(r, r.turns[0]))
    && (forall i, j {:trigger Follows(r.turns[i], r.turns[j])} ::
          0 <= i < j < |r.turns| && j == i + 1 ==> Follows(r.turns[i], r.turns[j]))
  }

  /** A history cut short stopped before a request its last turn asks for; a finished one did not. */
  ghost predicate RunOk(r: Run) {
    && Chain(r)
    && (r.finished ==> r.turns != [] && !Continues(r.turns[|r.turns|-1]))
    && (!r.finished && r.turns != [] ==> Continues(r.turns[|r.turns|-1]))
  }

  /** The labels the last turn adds; only the first turn has no opening of its own. */
  function LastLabels(ts: seq<Turn>): seq<Label>
    requires ts != []
  {
    var t := ts[|ts|-1];
    (if |ts| == 1 then [] else Opening(t)) + Middle(t) + Closing(t)
  }

  /** The labels of the turns, in order. */
  function TurnLabels(ts: seq<Turn>): seq<Label> {
    if ts == [] then [] else TurnLabels(ts[..|ts|-1]) + LastLabels(ts)
  }

  function AllAdded(ts: seq<Turn>): seq<Message>
  {
    if ts == [] then [] else AllAdded(ts[..|ts|-1]) + Added(ts[|ts|-1])
  }

  function NewMessages(r: Run): seq<Message>
  {
    r.prompts + AllAdded(r.turns)
  }

  function FirstPoll(r: Run): Label {
    if r.skipped then PollSkipped else SteeringPoll(r.first)
  }

  function Prologue(r: Run): seq<Label> {
    [AgentStart, TurnStart] + Commit(r.prompts) + [FirstPoll(r)]
  }

  /** The whole trace of a run, determined by its history. */
  function Trace(r: Run): seq<Label>
  {
    Prologue(r) + TurnLabels(r.turns) + if r.finished then [AgentEnd(NewMessages(r))] else []
  }

  // ----- The folds over the pieces of a turn -----

  /** What a stretch of labels does to every fold. */
  ghost predicate Effect(ls: seq<Label>, p: Phase, q: Phase, ended: seq<Message>, steering: seq<Message>,
                         followUps: seq<Message>) {
    && Walk(p, ls) == q && Ended(ls) == ended
    && SteeringTaken(ls) == steering && FollowUpsTaken(ls) == followUps
  }

  lemma EffectConcat(a: seq<Label>, b: seq<Label>, p: Phase, q: Phase, r: Phase, e: seq<Message>, e': seq<Message>,
                     s: seq<Message>, s': seq<Message>, f: seq<Message>, f': seq<Message>)
    requires Effect(a, p, q, e, s, f) && Effect(b, q, r, e', s', f')
    ensures Effect(a + b, p, r, e + e', s + s', f + f')
  {
    WalkConcat(p, a, b);
    EndedConcat(a, b);
    SteeringConcat(a, b);
    FollowUpsConcat(a, b);
  }

  lemma EffectOne(l: Label, p: Phase)
    ensures Effect([l], p, Next(p, l), if l.MessageEnd? then [l.m] else [],
                   if l.SteeringPoll? then l.got else [], if l.FollowUpPoll? then l.got else [])
  {
    assert [l][..0] == [];
  }

  lemma EffectNone(p: Phase)
    ensures Effect([], p, p, [], [], [])
  {
  }

  /** Concatenation of stretches that take nothing from the queues. */
  lemma QuietConcat(a: seq<Label>, b: seq<Label>, p: Phase, q: Phase, r: Phase, e: seq<Message>, e': seq<Message>)
    requires Effect(a, p, q, e, [], []) && Effect(b, q, r, e', [], [])
    ensures Effect(a + b, p, r, e + e', [], [])
  {
    EffectConcat(a, b, p, q, r, e, e', [], [], [], []);
  }

  lemma {:induction false} CommitEffect(ms: seq<Message>)
    ensures Effect(Commit(ms), Injecting, Injecting, ms, [], [])
  {
    if ms == [] {
      EffectNone(Injecting);
    } else {
      hide Effect;
      var init, m := ms[..|ms|-1], ms[|ms|-1];
      CommitEffect(init);
      EffectOne(MessageStart(m), Injecting);
      EffectOne(MessageEnd(m), InInjected);
      QuietConcat([MessageStart(m)], [MessageEnd(m)], Injecting, InInjected, Injecting, [], [m]);
      assert [MessageStart(m)] + [MessageEnd(m)] == [MessageStart(m), MessageEnd(m)];
      QuietConcat(Commit(init), [MessageStart(m), MessageEnd(m)], Injecting, Injecting, Injecting, init, [m]);
      assert init + [m] == ms;
    }
  }

  lemma {:induction false} UpdatesEffect(ls: seq<Label>)
    requires forall i :: 0 <= i < |ls| ==> ls[i].MessageUpdate?
    ensures Effect(ls, InReply, InReply, [], [], [])
  {
    if ls != [] {
      UpdatesEffect(ls[..|ls|-1]);
    }
  }

  lemma StreamEffect(stream: seq<Label>, reply: Message)
    requires StreamOk(stream, reply)
    ensures Effect(stream, Awaiting, Replied, [reply], [], [])
  {
    var first, updates, last := stream[..1], stream[1..|stream|-1], stream[|stream|-1..];
    assert first == [stream[0]] && last == [MessageEnd(reply)];
    EffectOne(stream[0], Awaiting);
    UpdatesEffect(updates);
    EffectOne(MessageEnd(reply), InReply);
    QuietConcat(first, updates, Awaiting, InReply, InReply, [], []);
    QuietConcat(first + updates, last, Awaiting, InReply, Replied, [], [reply]);
    assert first + updates + last == stream;
  }

  lemma {:induction false} BatchTakesNothing(calls: seq<ToolCall>, ls: seq<Label>)
    requires !Observe(calls, ls).Rejected?
    ensures SteeringTaken(ls) == [] && FollowUpsTaken(ls) == []
  {
    if ls != [] {
      BatchTakesNothing(calls, ls[..|ls|-1]);
    }
  }

  lemma BatchEffect(t: Turn)
    requires TurnOk(t)
    ensures Effect(t.batch, Replied, Replied, TurnResults(t), [], [])
  {
    if !Failed(t) {
      CompletedResults(t.reply.calls, t.batch, t.outcomes);
      BatchTakesNothing(t.reply.calls, t.batch);
    }
  }

  lemma MiddleEffect(t: Turn)
    requires TurnOk(t)
    ensures Effect(Middle(t), Injecting, BetweenTurns, Added(t), [], [])
  {
    hide Effect, Walk, Ended, SteeringTaken, FollowUpsTaken, Commit, Injected, Asked, StreamOk, Results, Observe;
    var c, q, e := Commit(Injected(t)), [Requested(Asked(t).messages, Asked(t).tools)],
      [Decided(t.decision), TurnEnd(t.reply, TurnResults(t))];
    CommitEffect(Injected(t));
    EffectOne(q[0], Injecting);
    StreamEffect(t.stream, t.reply);
    BatchEffect(t);
    EffectOne(e[0], Replied);
    EffectOne(e[1], Replied);
    QuietConcat([e[0]], [e[1]], Replied, Replied, BetweenTurns, [], []);
    assert [e[0]] + [e[1]] == e;
    QuietConcat(c, q, Injecting, Injecting, Awaiting, Injected(t), []);
    QuietConcat(c + q, t.stream, Injecting, Awaiting, Replied, Injected(t) + [], [t.reply]);
    QuietConcat(c + q + t.stream, t.batch, Injecting, Replied, Replied, Injected(t) + [] + [t.reply], TurnResults(t));
    QuietConcat(c + q + t.stream + t.batch, e, Injecting, Replied, BetweenTurns,
      Injected(t) + [] + [t.reply] + TurnResults(t), []);
    assert Injected(t) + [] + [t.reply] + TurnResults(t) + [] == Added(t);
  }

  lemma OpeningEffect(t: Turn)
    requires t.carried != [] ==> t.repolled == []
    ensures Effect(Opening(t), BetweenTurns, Injecting, [], t.repolled, [])
  {
    var n, s := NextTurn(t.prepared), SteeringPoll(t.repolled);
    EffectOne(n, BetweenTurns);
    EffectOne(s, BetweenTurns);
    EffectOne(TurnStart, BetweenTurns);
    if t.carried == [] {
      EffectConcat([n], [s], BetweenTurns, BetweenTurns, BetweenTurns, [], [], [], t.repolled, [], []);
      EffectConcat([n] + [s], [TurnStart], BetweenTurns, BetweenTurns, Injecting, [], [], [] + t.repolled, [], [], []);
      assert [] + t.repolled + [] == t.repolled;
    } else {
      EffectConcat([n], [TurnStart], BetweenTurns, BetweenTurns, Injecting, [], [], [], [], [], []);
      assert [n] + [] == [n];
    }
  }

  lemma ClosingEffect(t: Turn)
    requires TurnOk(t)
    ensures Effect(Closing(t), BetweenTurns, BetweenTurns, [], t.steering, t.followUps)
  {
    hide Effect, Walk, Ended, SteeringTaken, FollowUpsTaken, StreamOk, Completed, Answered;
    EffectNone(BetweenTurns);
    var s, f := SteeringPoll(t.steering), FollowUpPoll(t.followUps);
    EffectOne(s, BetweenTurns);
    EffectOne(f, BetweenTurns);
    EffectConcat([s], [f], BetweenTurns, BetweenTurns, BetweenTurns, [], [], t.steering, [], [], t.followUps);
    assert [s] + [f] == [s, f] && t.steering + [] == t.steering && [] + t.followUps == t.followUps;
  }

  // ----- Deliveries -----

  /** Queued messages a turn injects, by the queue they came from. */
  function SteeringDelivered(ts: seq<Turn>): seq<Message> {
    if ts == [] then []
    else if |ts| == 1 || ts[|ts|-2].followUps == [] then SteeringDelivered(ts[..|ts|-1]) + Queued(ts[|ts|-1])
    else SteeringDelivered(ts[..|ts|-1])
  }

  function FollowUpsDelivered(ts: seq<Turn>): seq<Message> {
    if ts == [] then []
    else if |ts| == 1 || ts[|ts|-2].followUps == [] then FollowUpsDelivered(ts[..|ts|-1])
    else FollowUpsDelivered(ts[..|ts|-1]) + Queued(ts[|ts|-1])
  }

  /** Taken from a queue but not injected yet: at most the last poll. */
  function SteeringInHand(r: Run): seq<Message> {
    if r.turns == [] then r.first else r.turns[|r.turns|-1].steering
  }

  function FollowUpsInHand(r: Run): seq<Message> {
    if r.turns == [] then [] else r.turns[|r.turns|-1].followUps
  }

  function Shorter(r: Run): Run
    requires r.turns != []
  {
    r.(turns := r.turns[..|r.turns|-1], finished := false)
  }

  lemma ShorterOk(r: Run)
    requires RunOk(r) && r.turns != []
    ensures RunOk(Shorter(r))
  {
    hide TurnOk, Continues, Carry, Chosen, After;
    var n := |r.turns|;
    if n > 1 {
      assert Follows(r.turns[n-2], r.turns[n-1]);
    }
  }

  lemma LastTurn(r: Run)
    requires RunOk(r) && r.turns != []
    ensures RunOk(Shorter(r)) && TurnOk(r.turns[|r.turns|-1])
    ensures |r.turns| == 1 ==> FirstTurn(r, r.turns[0])
    ensures |r.turns| > 1 ==> TurnOk(r.turns[|r.turns|-2]) && Follows(r.turns[|r.turns|-2], r.turns[|r.turns|-1])
  {
    ShorterOk(r);
  }

  lemma LastLabelsEffect(ts: seq<Turn>)
    requires ts != [] && TurnOk(ts[|ts|-1])
    ensures var t := ts[|ts|-1];
            Effect(LastLabels(ts), if |ts| == 1 then Injecting else BetweenTurns, BetweenTurns, Added(t),
                   (if |ts| == 1 then [] else t.repolled) + t.steering, t.followUps)
  {
    hide Effect, Walk, Ended, SteeringTaken, FollowUpsTaken, Middle, Closing, Opening, Injected, Asked, StreamOk,
         Completed;
    var t := ts[|ts|-1];
    MiddleEffect(t);
    ClosingEffect(t);
    EffectConcat(Middle(t), Closing(t), Injecting, BetweenTurns, BetweenTurns, Added(t), [], [], t.steering, [],
      t.followUps);
    assert Added(t) + [] == Added(t) && [] + t.steering == t.steering && [] + t.followUps == t.followUps;
    if |ts| == 1 {
      assert [] + Middle(t) == Middle(t);
    } else {
      OpeningEffect(t);
      EffectConcat(Opening(t), Middle(t) + Closing(t), BetweenTurns, Injecting, BetweenTurns,
                   [], Added(t), t.repolled, t.steering, [], t.followUps);
      assert [] + Added(t) == Added(t);
      assert Opening(t) + (Middle(t) + Closing(t)) == Opening(t) + Middle(t) + Closing(t);
    }
  }

  /** Every fold over a run's turns at once. */
  lemma {:induction false} TurnsEffect(r: Run)
    requires RunOk(r)
    ensures Walk(Injecting, TurnLabels(r.turns)) == if r.turns == [] then Injecting else BetweenTurns
    ensures Ended(TurnLabels(r.turns)) == AllAdded(r.turns)
    ensures r.first + SteeringTaken(TurnLabels(r.turns)) == SteeringDelivered(r.turns) + SteeringInHand(r)
    ensures FollowUpsTaken(TurnLabels(r.turns)) == FollowUpsDelivered(r.turns) + FollowUpsInHand(r)
    decreases |r.turns|
  {
    hide Walk, Next, Ended, SteeringTaken, FollowUpsTaken, LastLabels, RunOk, TurnOk, Follows, FirstTurn, Added,
         SteeringDelivered, FollowUpsDelivered;
    if r.turns == [] {
      NoTurns(r);
    } else {
      var s := Shorter(r);
      LastTurn(r);
      TurnsEffect(s);
      LastLabelsEffect(r.turns);
      var before, more := TurnLabels(s.turns), LastLabels(r.turns);
      WalkConcat(Injecting, before, more);
      EndedConcat(before, more);
      SteeringConcat(before, more);
      FollowUpsConcat(before, more);
      TurnDelivers(r, SteeringTaken(before), FollowUpsTaken(before));
    }
  }

  /** The queue part of one induction step, on the folds of the earlier turns. */
  lemma TurnDelivers(r: Run, steering: seq<Message>, followUps: seq<Message>)
    requires RunOk(r) && r.turns != []
    requires r.first + steering == SteeringDelivered(Shorter(r).turns) + SteeringInHand(Shorter(r))
    requires followUps == FollowUpsDelivered(Shorter(r).turns) + FollowUpsInHand(Shorter(r))
    ensures var t := r.turns[|r.turns|-1];
      && r.first + (steering + ((if |r.turns| == 1 then [] else t.repolled) + t.steering))
           == SteeringDelivered(r.turns) + t.steering
      && followUps + t.followUps == FollowUpsDelivered(r.turns) + t.followUps
  {
    hide RunOk, TurnOk, Follows, FirstTurn, SteeringDelivered, FollowUpsDelivered, Queued;
    LastTurn(r);
    var t := r.turns[|r.turns|-1];
    if |r.turns| == 1 {
      NoTurns(Shorter(r));
      FirstTurnDelivers(r);
      assert steering == [] by {
        assert |r.first + steering| == |r.first|;
      }
      assert r.first + (steering + ([] + t.steering)) == r.first + t.steering;
      assert followUps == [];
    } else {
      var last := r.turns[|r.turns|-2];
      NextTurnDelivers(r);
      Regroup(r.first, steering, SteeringDelivered(Shorter(r).turns), last.steering, t.repolled, t.steering);
    }
  }

  lemma Regroup(f: seq<Message>, taken: seq<Message>, delivered: seq<Message>, hand: seq<Message>, now: seq<Message>,
                next: seq<Message>)
    requires f + taken == delivered + hand
    ensures f + (taken + (now + next)) == delivered + (hand + now) + next
  {
    assert f + (taken + (now + next)) == (f + taken) + (now + next);
  }

  lemma NoTurns(r: Run)
    requires r.turns == []
    ensures TurnLabels(r.turns) == [] && Walk(Injecting, []) == Injecting && Ended([]) == [] == AllAdded(r.turns)
    ensures SteeringTaken([]) == [] && FollowUpsTaken([]) == []
    ensures SteeringDelivered(r.turns) == [] && FollowUpsDelivered(r.turns) == []
  {
  }

  lemma FirstTurnDelivers(r: Run)
    requires |r.turns| == 1 && FirstTurn(r, r.turns[0])
    ensures AllAdded(r.turns) == Added(r.turns[0])
    ensures SteeringDelivered(r.turns) == r.first && FollowUpsDelivered(r.turns) == []
  {
    hide Added;
    assert r.turns[..0] == [];
    assert Queued(r.turns[0]) == r.first;
  }

  /** What the previous turn left in hand is what this turn delivers, plus steering repolled. */
  lemma NextTurnDelivers(r: Run)
    requires |r.turns| >= 2 && TurnOk(r.turns[|r.turns|-2]) && TurnOk(r.turns[|r.turns|-1])
    requires Follows(r.turns[|r.turns|-2], r.turns[|r.turns|-1])
    ensures var t, last, s := r.turns[|r.turns|-1], r.turns[|r.turns|-2], Shorter(r);
      && SteeringDelivered(r.turns) == SteeringDelivered(s.turns) + (last.steering + t.repolled)
      && FollowUpsDelivered(r.turns) == FollowUpsDelivered(s.turns) + last.followUps
  {
    hide StreamOk, Completed, Injected, Asked, After;
    var t, last := r.turns[|r.turns|-1], r.turns[|r.turns|-2];
    assert last.steering != [] ==> last.followUps == [];
    if last.followUps == [] {
      assert Queued(t) == last.steering + t.repolled;
    } else {
      assert Queued(t) == last.followUps && last.steering + t.repolled == [];
    }
  }

  lemma SkippedTakesNothing(r: Run)
    requires RunOk(r)
    ensures r.skipped ==> r.first == []
  {
  }

  lemma PrologueEffect(r: Run)
    requires RunOk(r)
    ensures Effect(Prologue(r), Before, Injecting, r.prompts, r.first, [])
  {
    hide RunOk, Effect;
    SkippedTakesNothing(r);
    EffectOne(AgentStart, Before);
    EffectOne(TurnStart, BetweenTurns);
    QuietConcat([AgentStart], [TurnStart], Before, BetweenTurns, Injecting, [], []);
    assert [AgentStart] + [TurnStart] == [AgentStart, TurnStart];
    CommitEffect(r.prompts);
    QuietConcat([AgentStart, TurnStart], Commit(r.prompts), Before, Injecting, Injecting, [], r.prompts);
    EffectOne(FirstPoll(r), Injecting);
    EffectConcat([AgentStart, TurnStart] + Commit(r.prompts), [FirstPoll(r)], Before, Injecting, Injecting,
                 [] + r.prompts, [], [], r.first, [], []);
    assert [] + r.prompts + [] == r.prompts && [] + r.first == r.first;
  }

  lemma LastLabelEffect(r: Run)
    ensures var end := if r.finished then [AgentEnd(NewMessages(r))] else [];
            Walk(BetweenTurns, end) == (if r.finished then Over else BetweenTurns)
            && Ended(end) == [] && SteeringTaken(end) == [] && FollowUpsTaken(end) == []
  {
    EffectOne(AgentEnd(NewMessages(r)), BetweenTurns);
  }

  // ----- Theorems about every run -----

  /** The event grammar holds, and a finished run ends with its one agent_end. */
  lemma RunFollowsTheProtocol(r: Run)
    requires RunOk(r)
    ensures Walk(Before, Trace(r)) == if r.finished then Over else if r.turns == [] then Injecting else BetweenTurns
  {
    hide Walk, Ended, SteeringTaken, FollowUpsTaken, TurnLabels, Prologue, RunOk, SteeringDelivered,
         FollowUpsDelivered, AllAdded;
    PrologueEffect(r);
    TurnsEffect(r);
    LastLabelEffect(r);
    var end := if r.finished then [AgentEnd(NewMessages(r))] else [];
    EffectNone(Injecting);
    FinishedHoldsNothing(r);
    WalkConcat(Before, Prologue(r), TurnLabels(r.turns));
    WalkConcat(Before, Prologue(r) + TurnLabels(r.turns), end);
  }

  /** The committed messages are exactly newMessages. */
  lemma TranscriptIsNewMessages(r: Run)
    requires RunOk(r)
    ensures Ended(Trace(r)) == NewMessages(r)
  {
    hide Walk, Ended, SteeringTaken, FollowUpsTaken, TurnLabels, Prologue, RunOk, SteeringDelivered,
         FollowUpsDelivered, AllAdded;
    PrologueEffect(r);
    TurnsEffect(r);
    LastLabelEffect(r);
    var end := if r.finished then [AgentEnd(NewMessages(r))] else [];
    EndedConcat(Prologue(r), TurnLabels(r.turns));
    EndedConcat(Prologue(r) + TurnLabels(r.turns), end);
  }

  /** Polled messages are the delivered ones in order, then those in hand; nothing else. */
  lemma DeliveriesAreConserved(r: Run)
    requires RunOk(r)
    ensures SteeringTaken(Trace(r)) == SteeringDelivered(r.turns) + SteeringInHand(r)
    ensures FollowUpsTaken(Trace(r)) == FollowUpsDelivered(r.turns) + FollowUpsInHand(r)
    ensures r.finished ==> SteeringInHand(r) == [] && FollowUpsInHand(r) == []
  {
    hide Walk, Ended, SteeringTaken, FollowUpsTaken, TurnLabels, Prologue, RunOk, SteeringDelivered,
         FollowUpsDelivered, AllAdded;
    PrologueEffect(r);
    TurnsEffect(r);
    LastLabelEffect(r);
    var end := if r.finished then [AgentEnd(NewMessages(r))] else [];
    SteeringConcat(Prologue(r), TurnLabels(r.turns));
    SteeringConcat(Prologue(r) + TurnLabels(r.turns), end);
    FollowUpsConcat(Prologue(r), TurnLabels(r.turns));
    FollowUpsConcat(Prologue(r) + TurnLabels(r.turns), end);
    assert FollowUpsTaken(Prologue(r)) == [];
    FinishedHoldsNothing(r);
  }

  lemma FinishedHoldsNothing(r: Run)
    requires RunOk(r)
    ensures r.finished ==> r.turns != [] && SteeringInHand(r) == [] && FollowUpsInHand(r) == []
  {
    if r.finished {
      var t := r.turns[|r.turns|-1];
      assert TurnOk(t) && !Continues(t);
    }
  }

  function Bares(ms: seq<Message>): seq<Message> {
    seq(|ms|, i requires 0 <= i < |ms| => Bare(ms[i]))
  }

  /**
   * Every message prepared or delivered reaches the transcript, in order and unchanged but for the tool
   * fields of system messages; at most one empty system message is added in front, when none is there.
   */
  lemma DeliveredMessagesAreInjected(t: Turn)
    ensures NonSystem(Injected(t)) == NonSystem(t.prepared) + NonSystem(Queued(t))
    ensures var delivered := t.prepared + Queued(t);
      || Bares(Injected(t)) == Bares(delivered)
      || (LastSystem(delivered) < 0 && Bares(Injected(t)) == [System("", [], [])] + Bares(delivered))
  {
    var delivered := t.prepared + Queued(t);
    OnlyToolFieldsChange(t.before.messages, t.before.tools, delivered);
    NonSystemConcat(t.prepared, Queued(t));
    hide Injected, DeclareToolChanges;
    SameBares(delivered, DeclareToolChanges(t.before.messages, t.before.tools, delivered));
    InjectedIs(t);
  }

  lemma BaresBehind(m: Message, ms: seq<Message>)
    ensures Bares([m] + ms) == [Bare(m)] + Bares(ms)
  {
    hide Bare;
  }

  lemma SameLengthBares(ms: seq<Message>, r: seq<Message>)
    requires |r| == |ms| && forall j :: 0 <= j < |r| ==> Bare(r[j]) == Bare(ms[j])
    ensures Bares(r) == Bares(ms)
  {
    hide Bare;
  }

  lemma SameBares(ms: seq<Message>, r: seq<Message>)
    requires LastSystem(ms) >= 0 ==> |r| == |ms| && forall j :: 0 <= j < |r| ==> Bare(r[j]) == Bare(ms[j])
    requires LastSystem(ms) < 0 ==> r == ms || (r != [] && Bare(r[0]) == System("", [], []) && r[1..] == ms)
    ensures (|| Bares(r) == Bares(ms)
             || (LastSystem(ms) < 0 && Bares(r) == [System("", [], [])] + Bares(ms)))
  {
    hide LastSystem, Bare, Bares;
    if LastSystem(ms) >= 0 {
      SameLengthBares(ms, r);
    } else if r != ms {
      BaresBehind(r[0], r[1..]);
      assert r == [r[0]] + r[1..];
    }
  }

  lemma InjectedIs(t: Turn)
    ensures Injected(t) == DeclareToolChanges(t.before.messages, t.before.tools, t.prepared + Queued(t))
  {
  }

  ghost predicate NoHookReplacesContext(ts: seq<Turn>) {
    forall i :: 0 <= i < |ts| ==> ts[i].replaced == None && ts[i].overridden == None
  }

  /** Without context-replacing hooks the loop's context is the starting context plus newMessages. */
  lemma {:induction false} ContextIsTranscript(r: Run)
    requires RunOk(r) && NoHookReplacesContext(r.turns) && r.turns != []
    ensures After(r.turns[|r.turns|-1]) == Context(r.start.messages + NewMessages(r), r.start.tools)
    decreases |r.turns|
  {
    hide Injected, Asked, TurnOk, Added, After;
    var n := |r.turns|;
    var t := r.turns[n-1];
    if n == 1 {
      assert FirstTurn(r, t);
      assert r.turns[..0] == [];
      assert AllAdded(r.turns) == [] + Added(t);
    } else {
      ShorterOk(r);
      ContextIsTranscript(Shorter(r));
      assert Follows(r.turns[n-2], t);
      assert AllAdded(r.turns) == AllAdded(Shorter(r).turns) + Added(t);
    }
    ContextGrows(t);
    assert After(t).messages == t.before.messages + Added(t);
  }

  lemma ContextGrows(t: Turn)
    requires TurnOk(t) && t.overridden == None
    ensures After(t) == Context(t.before.messages + Added(t), t.before.tools)
  {
    hide Injected, TurnResults, TurnOk;
    assert t.before.messages + Injected(t) + [t.reply] + TurnResults(t)
      == t.before.messages + (Injected(t) + [t.reply] + TurnResults(t));
  }

  /** Some tool of the turn's context is shadowed by a later one of its name. */
  ghost predicate ShadowsATool(t: Turn) {
    Shadowed(Declared(t.before.messages, t.prepared + Queued(t)), t.before.tools)
  }

  /**
   * At a request whose context no hook overrode, the transcript declares exactly the tools, name by
   * name, if and only if none is shadowed.
   */
  lemma RequestsDeclareTheirTools(t: Turn)
    requires t.overridden == None
    ensures (forall n :: Find(CurrentTools(Asked(t).messages), n) == Find(Asked(t).tools, n)) <==> !ShadowsATool(t)
    ensures UniqueNames(t.before.tools) ==> !ShadowsATool(t)
  {
    hide Shadowed, Find, CurrentTools, Declared, DeclareToolChanges, UniqueNames;
    var tools, sent := t.before.tools, t.before.messages + Injected(t);
    ReplayIsExact(t.before.messages, tools, t.prepared + Queued(t));
    assert Asked(t).messages == sent && Asked(t).tools == tools;
    if ShadowsATool(t) {
      var n :| Find(CurrentTools(sent), n) != Find(tools, n);
      assert Find(CurrentTools(Asked(t).messages), n) != Find(Asked(t).tools, n);
    }
  }

  // ----- Scheduling -----

  function Requests(ls: seq<Label>): nat {
    if ls == [] then 0 else Requests(ls[..|ls|-1]) + if ls[|ls|-1].Requested? then 1 else 0
  }

  lemma {:induction false} RequestsConcat(a: seq<Label>, b: seq<Label>)
    ensures Requests(a + b) == Requests(a) + Requests(b)
  {
    if b == [] {
      assert a + b == a;
    } else {
      RequestsConcat(a, b[..|b|-1]);
      assert (a + b)[..|a + b|-1] == a + b[..|b|-1];
    }
  }

  lemma {:induction false} NoRequests(ls: seq<Label>)
    requires forall i :: 0 <= i < |ls| ==> !ls[i].Requested?
    ensures Requests(ls) == 0
  {
    if ls != [] {
      NoRequests(ls[..|ls|-1]);
    }
  }

  lemma {:induction false} CommitShape(ms: seq<Message>)
    ensures forall i :: 0 <= i < |Commit(ms)| ==> Commit(ms)[i].MessageStart? || Commit(ms)[i].MessageEnd?
  {
    if ms != [] {
      CommitShape(ms[..|ms|-1]);
    }
  }

  lemma {:induction false} BatchShape(calls: seq<ToolCall>, ls: seq<Label>)
    requires !Observe(calls, ls).Rejected?
    ensures forall i :: 0 <= i < |ls| ==> InBatch(ls[i])
  {
    if ls != [] {
      BatchShape(calls, ls[..|ls|-1]);
      forall i | 0 <= i < |ls| ensures InBatch(ls[i]) {
        assert i < |ls| - 1 ==> ls[..|ls|-1][i] == ls[i];
      }
    }
  }

  predicate InBatch(l: Label) {
    l.ToolStart? || l.ToolUpdate? || l.ToolEnd? || l.MessageStart? || l.MessageEnd?
  }

  lemma MiddleRequestsOnce(t: Turn)
    requires TurnOk(t)
    ensures Requests(Middle(t)) == 1
  {
    hide Injected, Asked, TurnResults, Commit;
    var c, q, e := Commit(Injected(t)), [Requested(Asked(t).messages, Asked(t).tools)],
      [Decided(t.decision), TurnEnd(t.reply, TurnResults(t))];
    CommitShape(Injected(t));
    NoRequests(c);
    NoRequests(t.stream);
    if !Failed(t) {
      BatchShape(t.reply.calls, t.batch);
    }
    NoRequests(t.batch);
    NoRequests(e);
    assert q[..0] == [];
    RequestsConcat(c, q);
    RequestsConcat(c + q, t.stream);
    RequestsConcat(c + q + t.stream, t.batch);
    RequestsConcat(c + q + t.stream + t.batch, e);
  }

  /** One provider request per turn, so the turns account for every request of the trace. */
  lemma {:induction false} OneRequestPerTurn(r: Run)
    requires RunOk(r)
    ensures Requests(TurnLabels(r.turns)) == |r.turns|
    decreases |r.turns|
  {
    hide Middle, Opening, Closing, TurnOk, Requests, RunOk;
    NoRequests([]);
    if r.turns != [] {
      LastTurn(r);
      OneRequestPerTurn(Shorter(r));
      LastRequestsOnce(r.turns);
      RequestsConcat(TurnLabels(Shorter(r).turns), LastLabels(r.turns));
    }
  }

  lemma LastRequestsOnce(ts: seq<Turn>)
    requires ts != [] && TurnOk(ts[|ts|-1])
    ensures Requests(LastLabels(ts)) == 1
  {
    hide Middle, TurnOk, Requests;
    var t := ts[|ts|-1];
    var opening := if |ts| == 1 then [] else Opening(t);
    MiddleRequestsOnce(t);
    NoRequests(opening);
    NoRequests(Closing(t));
    RequestsConcat(opening, Middle(t));
    RequestsConcat(opening + Middle(t), Closing(t));
  }

  /** A turn is followed by another request exactly when it has a cause, until the run is cut short. */
  lemma NextRequestHasACause(r: Run, i: nat)
    requires RunOk(r) && i < |r.turns|
    ensures i + 1 < |r.turns| ==> Continues(r.turns[i])
    ensures r.finished ==> (i + 1 < |r.turns| <==> Continues(r.turns[i]))
  {
    if i + 1 < |r.turns| {
      assert Follows(r.turns[i+1-1], r.turns[i+1]);
    }
  }

  /**
   * A continue decision on a turn with no other cause forces one request that carries no message
   * taken from a queue after the turn; only steering arriving while it is prepared joins it.
   */
  lemma ForcedRequestIsContextOnly(r: Run, i: nat)
    requires RunOk(r) && i < |r.turns|
    requires r.turns[i].decision == Continue && !Failed(r.turns[i])
    ensures r.finished ==> i + 1 < |r.turns|
    ensures !More(r.turns[i]) && r.turns[i].steering == [] && r.turns[i].followUps == [] && i + 1 < |r.turns| ==>
              r.turns[i+1].carried == [] && Queued(r.turns[i+1]) == r.turns[i+1].repolled
  {
    NextRequestHasACause(r, i);
    if i + 1 < |r.turns| {
      assert Follows(r.turns[i+1-1], r.turns[i+1]);
    }
  }

  ghost predicate FollowUpsAfterEmptySteering(ls: seq<Label>) {
    forall i :: 0 <= i < |ls| && ls[i].FollowUpPoll? ==> i > 0 && ls[i-1] == SteeringPoll([])
  }

  lemma PollOrderConcat(a: seq<Label>, b: seq<Label>)
    requires FollowUpsAfterEmptySteering(a) && FollowUpsAfterEmptySteering(b)
    ensures FollowUpsAfterEmptySteering(a + b)
  {
    forall i | 0 <= i < |a + b| && (a + b)[i].FollowUpPoll?
      ensures i > 0 && (a + b)[i-1] == SteeringPoll([])
    {
      if i < |a| {
        assert a[i].FollowUpPoll? && a[i-1] == SteeringPoll([]);
      } else {
        assert b[i-|a|].FollowUpPoll? && b[i-|a|-1] == SteeringPoll([]);
      }
    }
  }

  lemma MiddlePollOrder(t: Turn)
    requires TurnOk(t)
    ensures FollowUpsAfterEmptySteering(Middle(t))
  {
    hide Injected, Asked, TurnResults, Commit;
    CommitShape(Injected(t));
    if !Failed(t) {
      BatchShape(t.reply.calls, t.batch);
    }
    var c, q, e := Commit(Injected(t)), [Requested(Asked(t).messages, Asked(t).tools)],
      [Decided(t.decision), TurnEnd(t.reply, TurnResults(t))];
    PollOrderConcat(c, q);
    PollOrderConcat(c + q, t.stream);
    PollOrderConcat(c + q + t.stream, t.batch);
    PollOrderConcat(c + q + t.stream + t.batch, e);
  }

  lemma {:induction false} TurnsPollOrder(r: Run)
    requires RunOk(r)
    ensures FollowUpsAfterEmptySteering(TurnLabels(r.turns))
    decreases |r.turns|
  {
    hide LastLabels, RunOk, FollowUpsAfterEmptySteering;
    EmptyPollOrder();
    if r.turns != [] {
      LastTurn(r);
      TurnsPollOrder(Shorter(r));
      LastPollOrder(r.turns);
      PollOrderConcat(TurnLabels(Shorter(r).turns), LastLabels(r.turns));
    }
  }

  lemma EmptyPollOrder()
    ensures FollowUpsAfterEmptySteering([])
  {
  }

  lemma LastPollOrder(ts: seq<Turn>)
    requires ts != [] && TurnOk(ts[|ts|-1])
    ensures FollowUpsAfterEmptySteering(LastLabels(ts))
  {
    hide Middle;
    var t := ts[|ts|-1];
    var opening := if |ts| == 1 then [] else Opening(t);
    MiddlePollOrder(t);
    PollOrderConcat(opening, Middle(t));
    PollOrderConcat(opening + Middle(t), Closing(t));
  }

  /** Follow-ups are drained only directly after a steering poll that came back empty. */
  lemma FollowUpsWaitForSteering(r: Run)
    requires RunOk(r)
    ensures FollowUpsAfterEmptySteering(Trace(r))
  {
    hide Commit, TurnLabels, RunOk;
    CommitShape(r.prompts);
    TurnsPollOrder(r);
    PollOrderConcat([AgentStart, TurnStart], Commit(r.prompts));
    PollOrderConcat([AgentStart, TurnStart] + Commit(r.prompts), [FirstPoll(r)]);
    PollOrderConcat(Prologue(r), TurnLabels(r.turns));
    PollOrderConcat(Prologue(r) + TurnLabels(r.turns), if r.finished then [AgentEnd(NewMessages(r))] else []);
  }

  // ----- One message at a time -----

  ghost predicate SmallPolls(ls: seq<Label>) {
    forall i :: 0 <= i < |ls| && (ls[i].SteeringPoll? || ls[i].FollowUpPoll?) ==> |ls[i].got| <= 1
  }

  lemma SmallPollsSplit(a: seq<Label>, b: seq<Label>)
    requires SmallPolls(a + b)
    ensures SmallPolls(a) && SmallPolls(b)
  {
    forall i | 0 <= i < |a| && (a[i].SteeringPoll? || a[i].FollowUpPoll?) ensures |a[i].got| <= 1 {
      assert (a + b)[i] == a[i];
    }
    forall i | 0 <= i < |b| && (b[i].SteeringPoll? || b[i].FollowUpPoll?) ensures |b[i].got| <= 1 {
      assert (a + b)[|a| + i] == b[i];
    }
  }

  /** If every poll takes at most one message, every turn injects at most one queued message. */
  lemma {:induction false} OneQueuedMessagePerTurn(r: Run)
    requires RunOk(r) && |r.first| <= 1 && SmallPolls(TurnLabels(r.turns))
    ensures forall i :: 0 <= i < |r.turns| ==> |Queued(r.turns[i])| <= 1
    ensures |SteeringInHand(r)| <= 1 && |FollowUpsInHand(r)| <= 1
    decreases |r.turns|
  {
    hide LastLabels, RunOk, TurnOk, SmallPolls;
    if r.turns != [] {
      var n := |r.turns|;
      var t := r.turns[n-1];
      SmallPollsSplit(TurnLabels(Shorter(r).turns), LastLabels(r.turns));
      LastTurn(r);
      OneQueuedMessagePerTurn(Shorter(r));
      LastPollSizes(r.turns);
      LastQueueSize(r);
      hide Queued, Follows, FirstTurn;
      forall i | 0 <= i < n ensures |Queued(r.turns[i])| <= 1 {
        if i < n - 1 {
          assert Shorter(r).turns[i] == r.turns[i];
        }
      }
    }
  }

  lemma LastQueueSize(r: Run)
    requires RunOk(r) && r.turns != [] && |r.first| <= 1
    requires |SteeringInHand(Shorter(r))| <= 1 && |FollowUpsInHand(Shorter(r))| <= 1
    requires var t := r.turns[|r.turns|-1]; |r.turns| > 1 && t.carried == [] ==> |t.repolled| <= 1
    ensures |Queued(r.turns[|r.turns|-1])| <= 1
  {
    hide RunOk, TurnOk, Continues, After, Chosen;
    LastTurn(r);
  }

  lemma LastPollSizes(ts: seq<Turn>)
    requires ts != [] && TurnOk(ts[|ts|-1]) && SmallPolls(LastLabels(ts))
    ensures var t := ts[|ts|-1];
      && |t.steering| <= 1 && |t.followUps| <= 1
      && (|ts| > 1 && t.carried == [] ==> |t.repolled| <= 1)
  {
    hide Middle, Opening, Closing, SmallPolls;
    var t := ts[|ts|-1];
    var opening := if |ts| == 1 then [] else Opening(t);
    SmallPollsSplit(opening + Middle(t), Closing(t));
    SmallPollsSplit(opening, Middle(t));
    TurnPollSizes(t, opening);
  }

  lemma TurnPollSizes(t: Turn, opening: seq<Label>)
    requires TurnOk(t) && SmallPolls(opening) && SmallPolls(Closing(t))
    ensures |t.steering| <= 1 && |t.followUps| <= 1
    ensures opening == Opening(t) && t.carried == [] ==> |t.repolled| <= 1
  {
    if !Stops(t) {
      assert Closing(t)[0] == SteeringPoll(t.steering);
      if !More(t) && t.steering == [] {
        assert Closing(t)[1] == FollowUpPoll(t.followUps);
      }
    }
    if opening == Opening(t) && t.carried == [] {
      assert opening[1] == SteeringPoll(t.repolled);
    }
  }
}
