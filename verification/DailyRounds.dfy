/**
 * resolve_round of scripts/evolve.py once a day, with other activity in between: every class A question
 * meets its verdict window in one round.
 */
module DailyRounds {
  import opened Wrappers
  import opened Questions
  import opened QuestionStore
  import opened ResolutionRounds
  import opened ManualRounds

  /** An open class A question, not from the prediction market, with grace over its verdict window. */
  predicate Watched(q: Question) {
    && Open(q) && q.cell.Readable? && q.cell.spec.cls == Some("A")
    && q.cell.spec.source != Some("polymarket") && GraceCovers(q.cell.spec)
  }

  function Low(q: Question): int
    requires q.cell.Readable?
  {
    WindowLow(q, q.cell.spec)
  }

  /** The question still has the closing time and the window it had. */
  predicate SameWindow(q: Question, r: Question) {
    q.cell.Readable? && r.cell.Readable? && r.closesAt == q.closesAt && Low(r) == Low(q)
  }

  /** Untouched, or resolved and otherwise untouched. */
  predicate UndegradedFrom(q: Question, r: Question) {
    r == q || ResolvedFrom(q, r)
  }

  // ----- One round and one question -----

  /** Before its window a watched question is neither asked about nor changed. */
  lemma RoundBeforeWindow(q: Question, p: Question, r: Question, id: nat, now: int, w: World, asked: bool)
    requires Watched(q) && UndegradedFrom(q, p) && now < Low(q) && r == RoundEffect(p, id, now, w)
    requires asked <==> Due(p, now) && Asks(AfterTimeout(p, now), now)
    ensures !asked && r == p
  {
    if Open(p) {
      WindowBeforeTimeout(q, q.cell.spec);
      assert InWindow(q, q.cell.spec, Low(q));
      assert LooksAtQuotes(q, q.cell.spec, Low(q));
    }
  }

  /** In its window a watched question is asked about exactly if it is still open, and it is not degraded before. */
  lemma RoundInWindow(q: Question, p: Question, r: Question, id: nat, now: int, w: World, asked: bool)
    requires Watched(q) && UndegradedFrom(q, p) && InWindow(q, q.cell.spec, now) && r == RoundEffect(p, id, now, w)
    requires asked <==> Due(p, now) && Asks(AfterTimeout(p, now), now)
    ensures (asked <==> Open(p)) && SameWindow(q, r) && AfterTimeout(p, now) == p
  {
    WindowBeforeTimeout(q, q.cell.spec);
  }

  /** After its window a question is not asked about. */
  lemma RoundAfterWindow(q: Question, p: Question, r: Question, id: nat, now: int, w: World, asked: bool)
    requires SameWindow(q, p) && now >= Low(q) + DAY && r == RoundEffect(p, id, now, w)
    requires asked ==> Asks(AfterTimeout(p, now), now)
    ensures !asked && SameWindow(q, r)
  {
  }

  // ----- The history of one question -----

  ghost predicate FoundOpen(qs: QuestionTable, id: nat) {
    id in qs && Open(qs[id])
  }

  /** What rounds a to i did with a question that round a found as q, `slot` being the round in its window. */
  ghost predicate Followed(q: Question, id: nat, slot: nat, a: nat, i: nat, asks: seq<set<nat>>,
                           seen: seq<QuestionTable>, r: Question)
    requires |asks| == |seen| == i
  {
    && (forall j :: a <= j < i ==> (id in asks[j] <==> j == slot && FoundOpen(seen[j], id)))
    && (forall j :: a <= j < i && j <= slot ==> id in seen[j] && UndegradedFrom(q, seen[j][id]))
    && (if i <= slot then UndegradedFrom(q, r) else SameWindow(q, r))
  }

  ghost predicate InSlot(q: Question, start: int, slot: nat) {
    q.cell.Readable? && InWindow(q, q.cell.spec, start + slot * DAY)
  }

  lemma SlotOrder(q: Question, start: int, slot: nat, i: nat)
    requires InSlot(q, start, slot)
    ensures i < slot ==> start + i * DAY < Low(q)
    ensures i > slot ==> start + i * DAY >= Low(q) + DAY
  {
  }

  lemma FollowRound(q: Question, id: nat, start: int, slot: nat, a: nat, i: nat, asks: seq<set<nat>>,
                    seen: seq<QuestionTable>, before: QuestionTable, after: QuestionTable, w: World, asked: set<nat>)
    requires |asks| == |seen| == i && id in before && id in after
    requires Watched(q) && InSlot(q, start, slot) && Followed(q, id, slot, a, i, asks, seen, before[id])
    requires RoundEffects(before, after, start + i * DAY, w, asked)
    ensures Followed(q, id, slot, a, i + 1, asks + [asked], seen + [before], after[id])
  {
    hide Watched, SameWindow, RoundEffect, Asks, InWindow, UndegradedFrom;
    var now := start + i * DAY;
    assert after[id] == RoundEffect(before[id], id, now, w);
    SlotOrder(q, start, slot, i);
    if i < slot {
      RoundBeforeWindow(q, before[id], after[id], id, now, w, id in asked);
    } else if i == slot {
      RoundInWindow(q, before[id], after[id], id, now, w, id in asked);
    } else {
      RoundAfterWindow(q, before[id], after[id], id, now, w, id in asked);
    }
  }

  lemma FollowActivity(q: Question, id: nat, slot: nat, a: nat, i: nat, asks: seq<set<nat>>, seen: seq<QuestionTable>,
                       p: Question, r: Question)
    requires |asks| == |seen| == i && Followed(q, id, slot, a, i, asks, seen, p) && (r == p || ResolvedFrom(p, r))
    ensures Followed(q, id, slot, a, i, asks, seen, r)
  {
  }

  lemma FollowFromHere(q: Question, id: nat, slot: nat, i: nat, asks: seq<set<nat>>, seen: seq<QuestionTable>)
    requires |asks| == |seen| == i && Watched(q)
    ensures Followed(q, id, slot, i, i, asks, seen, q)
  {
  }

  // ----- All questions -----

  /** Every question that some round found watched is followed since that round. */
  ghost predicate AllFollowed(now: QuestionTable, start: int, i: nat, asks: seq<set<nat>>, seen: seq<QuestionTable>)
    requires |asks| == |seen| == i
  {
    forall a: nat, id, slot: nat ::
      a < i && id in seen[a] && Watched(seen[a][id]) && InSlot(seen[a][id], start, slot) ==>
        id in now && Followed(seen[a][id], id, slot, a, i, asks, seen, now[id])
  }

  lemma ActivityKeepsAll(before: QuestionTable, after: QuestionTable, start: int, i: nat, asks: seq<set<nat>>,
                         seen: seq<QuestionTable>)
    requires |asks| == |seen| == i && AllFollowed(before, start, i, asks, seen) && OnlyAddsAndResolves(before, after)
    ensures AllFollowed(after, start, i, asks, seen)
  {
    hide Followed, Watched, InSlot, ResolvedFrom;
    forall a: nat, id, slot: nat | a < i && id in seen[a] && Watched(seen[a][id]) && InSlot(seen[a][id], start, slot)
      ensures id in after && Followed(seen[a][id], id, slot, a, i, asks, seen, after[id])
    {
      FollowActivity(seen[a][id], id, slot, a, i, asks, seen, before[id], after[id]);
    }
  }

  lemma RoundKeepsAll(before: QuestionTable, after: QuestionTable, start: int, i: nat, asks: seq<set<nat>>,
                      seen: seq<QuestionTable>, w: World, asked: set<nat>)
    requires |asks| == |seen| == i && AllFollowed(before, start, i, asks, seen)
    requires RoundEffects(before, after, start + i * DAY, w, asked)
    ensures AllFollowed(after, start, i + 1, asks + [asked], seen + [before])
  {
    var asks', seen' := asks + [asked], seen + [before];
    assert before.Keys == after.Keys;
    forall a: nat, id, slot: nat | a < i + 1 && id in seen'[a] && Watched(seen'[a][id])
      && InSlot(seen'[a][id], start, slot)
      ensures id in after && Followed(seen'[a][id], id, slot, a, i + 1, asks', seen', after[id])
    {
      hide Followed, Watched, InSlot, RoundEffects;
      var q := seen'[a][id];
      if a == i {
        FollowFromHere(q, id, slot, i, asks, seen);
      } else {
        assert seen'[a] == seen[a];
      }
      assert id in before.Keys;
      FollowRound(q, id, start, slot, a, i, asks, seen, before, after, w, asked);
    }
  }

  /** Watched in round a's table, and its window opens between that round and the last of n. */
  ghost predicate WatchedFrom(seen: seq<QuestionTable>, a: nat, id: nat, start: int, n: nat) {
    a < |seen| && id in seen[a] && Watched(seen[a][id]) && start + a * DAY <= Low(seen[a][id]) <= start + (n - 1) * DAY
  }

  /**
   * Of the rounds from a on, only k asks about the question, if it is still open then, and nothing degrades
   * it before.
   */
  ghost predicate ReachedIn(q: Question, id: nat, start: int, a: nat, k: nat, asks: seq<set<nat>>,
                            seen: seq<QuestionTable>)
    requires |asks| == |seen|
  {
    && a <= k < |asks| && InSlot(q, start, k)
    && (forall j :: a <= j < |asks| ==> (id in asks[j] <==> j == k && FoundOpen(seen[j], id)))
    && (forall j :: a <= j <= k ==> id in seen[j] && UndegradedFrom(q, seen[j][id]))
  }

  ghost predicate ReachedOnce(q: Question, id: nat, start: int, a: nat, asks: seq<set<nat>>, seen: seq<QuestionTable>)
    requires |asks| == |seen|
  {
    exists k: nat :: ReachedIn(q, id, start, a, k, asks, seen)
  }

  lemma AllReached(now: QuestionTable, start: int, n: nat, asks: seq<set<nat>>, seen: seq<QuestionTable>)
    requires |asks| == |seen| == n && AllFollowed(now, start, n, asks, seen)
    ensures forall a: nat, id: nat :: WatchedFrom(seen, a, id, start, n) ==>
      ReachedOnce(seen[a][id], id, start, a, asks, seen)
  {
    forall a: nat, id: nat | WatchedFrom(seen, a, id, start, n)
      ensures ReachedOnce(seen[a][id], id, start, a, asks, seen)
    {
      var q := seen[a][id];
      var k := OneRoundInWindow(start + a * DAY, Low(q), n - 1 - a);
      assert InSlot(q, start, a + k);
      assert Followed(q, id, a + k, a, n, asks, seen, now[id]);
      assert ReachedIn(q, id, start, a, a + k, asks, seen);
    }
  }

  /** Any amount of other activity between two rounds. */
  method Meanwhile(st: Storage, valid: Spec -> bool)
    requires st.Valid()
    modifies st
    ensures st.Valid() && (old(LatestScored(st.predictions)) ==> LatestScored(st.predictions))
    ensures OnlyAddsAndResolves(old(st.questions), st.questions) && ScoresKept(old(st.predictions), st.predictions)
  {
    hide OnlyAddsAndResolves, ScoresKept, LatestScored, Consistent;
    ghost var first, scores := st.questions, st.predictions;
    NothingHappened(first, scores);
    var steps: nat :| true;
    for i := 0 to steps
      invariant st.Valid() && (old(LatestScored(st.predictions)) ==> LatestScored(st.predictions))
      invariant OnlyAddsAndResolves(first, st.questions) && ScoresKept(scores, st.predictions)
    {
      ghost var qs, ps := st.questions, st.predictions;
      OtherStep(st, valid);
      OnlyAddsTransitive(first, qs, st.questions);
      ScoresKeptTransitive(scores, ps, st.predictions);
    }
  }

  /**
   * `n` rounds a day apart with other activity before each: `seen[j]` is the table round j found and
   * `asks[j]` the questions it asked quotes for.
   */
  method RunDaily(st: Storage, start: int, n: nat, valid: Spec -> bool)
    returns (ghost asks: seq<set<nat>>, ghost seen: seq<QuestionTable>)
    requires st.Valid()
    modifies st
    ensures st.Valid() && OutcomesKept(old(st.questions), st.questions)
    ensures ScoresKept(old(st.predictions), st.predictions)
    ensures old(LatestScored(st.predictions)) ==> LatestScored(st.predictions)
    ensures |asks| == |seen| == n
    ensures forall a: nat, id: nat :: WatchedFrom(seen, a, id, start, n) ==>
      ReachedOnce(seen[a][id], id, start, a, asks, seen)
  {
    hide RoundEffects, OnlyAddsAndResolves, ScoresKept, LatestScored, OutcomesKept, Consistent, AllFollowed,
         WatchedFrom, ReachedOnce, Backlog, Newly, DueIds, Expired, DegradeToManual, Count;
    asks, seen := [], [];
    ghost var first, scores := st.questions, st.predictions;
    NothingYet(first, scores);
    NoRoundYet(first, start);
    var i := 0;
    while i < n
      invariant 0 <= i <= n && st.Valid() && |asks| == |seen| == i
      invariant OutcomesKept(first, st.questions) && ScoresKept(scores, st.predictions)
      invariant old(LatestScored(st.predictions)) ==> LatestScored(st.predictions)
      invariant AllFollowed(st.questions, start, i, asks, seen)
    {
      ghost var qs, ps := st.questions, st.predictions;
      Meanwhile(st, valid);
      ghost var found, was := st.questions, st.predictions;
      ActivityKeepsAll(qs, found, start, i, asks, seen);
      AddsKeepOutcomes(qs, found);
      var w: World := *;
      var stats, timeouts;
      ghost var asked;
      stats, timeouts, asked := ResolveRound(st, start + i * DAY, w);
      RoundKeepsAll(found, st.questions, start, i, asks, seen, w, asked);
      OutcomesKeptTransitive(first, qs, found);
      OutcomesKeptTransitive(first, found, st.questions);
      ScoresKeptTransitive(scores, ps, was);
      ScoresKeptTransitive(scores, was, st.predictions);
      asks, seen := asks + [asked], seen + [found];
      i := i + 1;
    }
    AllReached(st.questions, start, n, asks, seen);
  }

  lemma NoRoundYet(qs: QuestionTable, start: int)
    ensures AllFollowed(qs, start, 0, [], [])
  {
  }
}
