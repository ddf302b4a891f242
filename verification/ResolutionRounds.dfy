/**
 * The automatic rounds that resolve questions: src/predictor/resolution/auto_resolve.py and
 * resolve_round of scripts/evolve.py.  What quotes and language models answer is arbitrary.
 */
module ResolutionRounds {
  import opened Wrappers
  import opened Questions
  import opened QuestionStore

  // ----- What a round may do to the tables -----

  /** Only open questions of `ids` change, and they change by being resolved. */
  ghost predicate OnlyResolves(before: QuestionTable, after: QuestionTable, ids: set<nat>) {
    before.Keys == after.Keys && forall id :: id in before ==>
      after[id] == before[id] || (id in ids && Open(before[id]) && after[id].outcome.Some?
        && after[id].resolutionSource.Some?
        && after[id] == Resolved(before[id], after[id].outcome.value, after[id].resolutionSource.value))
  }

  ghost function Newly(before: QuestionTable, after: QuestionTable): set<nat> {
    set id | id in before && id in after && Open(before[id]) && !Open(after[id])
  }

  /** Predictions stay as they are; a score is written at most once. */
  ghost predicate ScoresKept(before: PredictionTable, after: PredictionTable) {
    forall k :: k in before ==>
      k in after && after[k] == before[k].(brier := after[k].brier) && (before[k].brier.Some? ==> after[k] == before[k])
  }

  lemma OnlyResolvesThenOne(a: QuestionTable, b: QuestionTable, ids: set<nat>, id: nat, outcome: bool, source: string)
    requires OnlyResolves(a, b, ids) && id in b && b[id] == a[id] && Open(b[id])
    ensures OnlyResolves(a, b[id := Resolved(b[id], outcome, source)], ids + {id})
    ensures Newly(a, b[id := Resolved(b[id], outcome, source)]) == Newly(a, b) + {id}
    ensures |Newly(a, b[id := Resolved(b[id], outcome, source)])| == |Newly(a, b)| + 1
  {
    var c := b[id := Resolved(b[id], outcome, source)];
    assert c.Keys == b.Keys;
    assert Newly(a, c) == Newly(a, b) + {id};
  }

  lemma OnlyResolvesKeepsOutcomes(a: QuestionTable, b: QuestionTable, ids: set<nat>)
    requires OnlyResolves(a, b, ids)
    ensures OutcomesKept(a, b)
  {
    forall id | id in a ensures id in b {
      assert id in a.Keys;
    }
  }

  lemma ScoringKeepsScores(a: PredictionTable, id: nat, pick: Option<nat>, outcome: bool)
    requires IsPick(a, id, pick)
    ensures ScoresKept(a, ScoreAt(a, pick, outcome))
  {
  }

  lemma ScoresKeptTransitive(a: PredictionTable, b: PredictionTable, c: PredictionTable)
    requires ScoresKept(a, b) && ScoresKept(b, c)
    ensures ScoresKept(a, c)
  {
  }

  // ----- Resolvers -----

  datatype Ruling = Ruling(outcome: bool, source: string)

  /**
   * What the environment answers about each question in one round: what quotes and the language model say
   * when they are asked and decide, whether a model client can be built, and the clock of the database.
   */
  datatype World = World(
    quotes: nat -> Option<Ruling>, model: nat -> Option<bool>, ready: nat -> bool, clock: nat -> int)

  datatype Verdict = Decided(outcome: bool, source: string) | Undecided | Raised

  /** MarketResolver.resolve: the time rules; the quotes decide what they decide. */
  method MarketVerdict(q: Question, s: Spec, now: int, quotes: Option<Ruling>) returns (v: Verdict, ghost asked: bool)
    ensures asked <==> LooksAtQuotes(q, s, now)
    ensures (asked <==>
      && q.closesAt <= now
      && ((s.grace.Absent? && now <= q.closesAt + 3 * DAY)
          || (s.grace.Days? && now <= q.closesAt + s.grace.days * DAY))
      && (if s.closeTimezone == Some("Asia/Shanghai") then now < q.closesAt + DAY
          else q.closesAt + DAY <= now < q.closesAt + 2 * DAY))
    ensures v.Raised? <==> q.closesAt <= now && (s.grace.Quoted? || s.grace.Malformed?)
    ensures v.Decided? <==> asked && quotes.Some?
    ensures v.Decided? ==> v.outcome == quotes.value.outcome && v.source == quotes.value.source
  {
    if now < q.closesAt {
      return Undecided, false;
    }
    if !GraceIsNumber(s.grace) {
      return Raised, false;
    }
    if now > q.closesAt + GraceDays(s.grace) * DAY {
      return Undecided, false;
    }
    var low := if s.closeTimezone != Some(SHANGHAI) then q.closesAt + DAY else q.closesAt;
    if now < low || now >= low + DAY {
      return Undecided, false;
    }
    return if quotes.Some? then Decided(quotes.value.outcome, quotes.value.source) else Undecided, true;
  }

  const MODEL := "llm_websearch"

  /** LLMResolver.resolve within `graceDays` of closing: two samples decide or are rejected, which is logged. */
  method LlmVerdict(st: Storage, id: nat, q: Question, graceDays: int, now: int, model: Option<bool>)
    returns (v: Verdict, ghost asked: bool)
    requires st.Valid()
    modifies st`log
    ensures asked <==> q.closesAt <= now <= q.closesAt + graceDays * DAY
    ensures v == if asked && model.Some? then Decided(model.value, "llm_websearch") else Undecided
    ensures st.log == if asked && model.None? then old(st.log) + [Guarded(id)] else old(st.log)
    ensures SameCounts(old(st.log), st.log) && OnlyGuarded(old(st.log), st.log)
  {
    asked := true;
    if now < q.closesAt || now > q.closesAt + graceDays * DAY {
      return Undecided, false;
    }
    if model.Some? {
      return Decided(model.value, MODEL), asked;
    }
    Log(st, Guarded(id));
    v := Undecided;
  }

  /** log_evolution */
  method Log(st: Storage, e: Event)
    modifies st`log
    ensures st.log == old(st.log) + [e]
    ensures forall k :: Count(st.log, k) == Count(old(st.log), k) + if KindOf(e) == k then 1 else 0
  {
    CountAppend(st.log, e);
    st.log := st.log + [e];
  }

  // ----- The automatic round -----

  datatype Kind = WasResolved | WasDegraded | WasPending

  ghost predicate Asks(q: Question, now: int) {
    && q.cell.Readable? && q.cell.spec.cls == Some("A") && q.cell.spec.source != Some("polymarket")
    && LooksAtQuotes(q, q.cell.spec, now)
  }

  /** Questions without a spec, of class C or an unknown class, from the market, or of class B without a client. */
  predicate StaysPending(q: Question, clientReady: bool) {
    || q.cell.NoSpec?
    || (q.cell.Readable? &&
        (q.cell.spec.source == Some("polymarket") || !Automatic(q.cell.spec)
          || (q.cell.spec.cls == Some("B") && !clientReady)))
  }

  /** The log grew by so many successes and failures, and by nothing else that is counted. */
  ghost predicate LogTally(before: seq<Event>, after: seq<Event>, oks: int, fails: int) {
    && Count(after, OkKind) == Count(before, OkKind) + oks
    && Count(after, FailedKind) == Count(before, FailedKind) + fails
    && Count(after, TimeoutKind) == Count(before, TimeoutKind)
    && Count(after, ArchivedKind) == Count(before, ArchivedKind)
  }

  /** What the resolver of a question's class decides. */
  function Ruled(q: Question, id: nat, now: int, w: World): Option<Ruling> {
    if !q.cell.Readable? || q.cell.spec.source == Some("polymarket") then None
    else
      var s := q.cell.spec;
      if s.cls == Some("A") && LooksAtQuotes(q, s, now) then w.quotes(id)
      else if s.cls == Some("B") && w.ready(id) && w.model(id).Some?
              && q.closesAt <= now <= q.closesAt + GraceDays(s.grace) * DAY
      then Some(Ruling(w.model(id).value, MODEL))
      else None
  }

  /** What auto_resolve makes of a question. */
  function AutoEffect(q: Question, id: nat, now: int, w: World): Question {
    var r := Ruled(q, id, now, w);
    if Due(q, now) && r.Some? then Resolved(q, r.value.outcome, r.value.source) else q
  }

  function KindAt(q: Question, id: nat, now: int, w: World): Kind {
    if StaysPending(q, w.ready(id)) then WasPending
    else if Ruled(q, id, now, w).Some? then WasResolved
    else WasDegraded
  }

  /** Predictions after an outcome was stored: the pick is scored, unless it came more than seven days late. */
  ghost predicate ScoredFor(ps: PredictionTable, after: PredictionTable, id: nat, outcome: bool, late: bool) {
    exists pick :: IsPick(ps, id, pick) && after == if late then ps else ScoreAt(ps, pick, outcome)
  }

  lemma ScoredForPick(ps: PredictionTable, after: PredictionTable, id: nat, pick: Option<nat>, outcome: bool,
                      late: bool)
    requires IsPick(ps, id, pick) && after == if late then ps else ScoreAt(ps, pick, outcome)
    ensures ScoredFor(ps, after, id, outcome, late) && ScoresKept(ps, after)
  {
  }

  /** One question of the automatic round: dispatch by class, store the verdict, log. */
  method ResolveDue(st: Storage, id: nat, now: int, w: World) returns (kind: Kind, ghost asked: bool)
    requires st.Valid() && id in st.questions && Due(st.questions[id], now)
    modifies st
    ensures st.Valid() && (old(LatestScored(st.predictions)) ==> LatestScored(st.predictions))
    ensures ScoresKept(old(st.predictions), st.predictions)
    ensures kind == KindAt(old(st.questions)[id], id, now, w)
    ensures st.questions == old(st.questions)[id := AutoEffect(old(st.questions)[id], id, now, w)]
    ensures !kind.WasResolved? ==> st.predictions == old(st.predictions) && st.modelStats == old(st.modelStats)
    ensures (kind.WasResolved? ==>
      && Ruled(old(st.questions)[id], id, now, w).Some?
      && ScoredFor(old(st.predictions), st.predictions, id, Ruled(old(st.questions)[id], id, now, w).value.outcome,
           w.clock(id) - old(st.questions)[id].closesAt > 7 * DAY))
    ensures asked <==> Asks(old(st.questions)[id], now)
    ensures kind.WasResolved? ==> st.log != [] && st.log[|st.log|-1] == ResolutionOk(id)
    ensures (kind.WasDegraded? ==>
      st.log != [] && st.log[|st.log|-1] == ResolutionFailed(id, FailureReason(old(st.questions)[id], now)))
    ensures LogTally(old(st.log), st.log, if kind.WasResolved? then 1 else 0, if kind.WasDegraded? then 1 else 0)
  {
    hide Count, Consistent, IsPick, ScoreAt, StatsFollow, LatestScored, ScoresKept, LooksAtQuotes, ScoredFor;
    StartOfRound(st.questions, st.predictions);
    asked := false;
    var q := st.questions[id];
    assert st.questions == st.questions[id := q];
    if q.cell.BrokenSpec? {
      Log(st, ResolutionFailed(id, SpecBroken));
      return WasDegraded, false;
    }
    if q.cell.NoSpec? || q.cell.spec.cls == Some("C") {
      return WasPending, false;
    }
    var s := q.cell.spec;
    if s.source == Some("polymarket") {
      Log(st, SkippedPolymarket(id));
      return WasPending, false;
    }
    var v := Undecided;
    if s.cls == Some("A") {
      v, asked := MarketVerdict(q, s, now, w.quotes(id));
    } else if s.cls == Some("B") && w.ready(id) {
      ghost var searched;
      v, searched := LlmVerdict(st, id, q, GraceDays(s.grace), now, w.model(id));
    } else {
      return WasPending, false;
    }
    if v.Decided? {
      ghost var before := st.predictions;
      ghost var pick, archived, order := st.ResolveQuestion(id, v.outcome, v.source, false, w.clock(id));
      ScoredForPick(before, st.predictions, id, pick, v.outcome, archived);
      Log(st, ResolutionOk(id));
      kind := WasResolved;
    } else {
      Log(st, ResolutionFailed(id, if v.Raised? then ResolverRaised else LoggedReason(q, s, now)));
      kind := WasDegraded;
    }
  }

  function DueIds(qs: QuestionTable, now: int): set<nat> {
    set id | id in qs && Due(qs[id], now)
  }

  datatype RoundStats = RoundStats(resolved: nat, degraded: nat, pending: nat)

  function Tally(stats: RoundStats, kind: Kind): RoundStats {
    match kind
    case WasResolved => stats.(resolved := stats.resolved + 1)
    case WasDegraded => stats.(degraded := stats.degraded + 1)
    case WasPending => stats.(pending := stats.pending + 1)
  }

  /**
   * What a round did with the questions `done` and reports about them: each is counted once, and quotes were
   * looked at exactly for `asked`.
   */
  ghost predicate Tallied(before: QuestionTable, after: QuestionTable, now: int, w: World, done: set<nat>,
                          stats: RoundStats, asked: set<nat>) {
    && done <= DueIds(before, now) && AutoSoFar(before, after, now, w, done)
    && stats.resolved == |OfKind(before, done, now, w, WasResolved)|
    && stats.degraded == |OfKind(before, done, now, w, WasDegraded)|
    && stats.pending == |OfKind(before, done, now, w, WasPending)|
    && (forall id :: id in asked <==> id in done && AsksAt(before, id, now))
  }

  ghost predicate AutoSoFar(before: QuestionTable, after: QuestionTable, now: int, w: World, done: set<nat>) {
    before.Keys == after.Keys && forall id :: id in before ==>
      after[id] == if id in done then AutoEffect(before[id], id, now, w) else before[id]
  }

  ghost function OfKind(qs: QuestionTable, ids: set<nat>, now: int, w: World, kind: Kind): set<nat> {
    set id | id in ids && id in qs && KindAt(qs[id], id, now, w) == kind
  }

  lemma CountKind(qs: QuestionTable, ids: set<nat>, now: int, w: World, id: nat, kind: Kind)
    requires id in qs && id !in ids
    ensures (|OfKind(qs, ids + {id}, now, w, kind)|
      == |OfKind(qs, ids, now, w, kind)| + if KindAt(qs[id], id, now, w) == kind then 1 else 0)
  {
    if KindAt(qs[id], id, now, w) == kind {
      assert OfKind(qs, ids + {id}, now, w, kind) == OfKind(qs, ids, now, w, kind) + {id};
    } else {
      assert OfKind(qs, ids + {id}, now, w, kind) == OfKind(qs, ids, now, w, kind);
    }
  }

  lemma TallyStep(before: QuestionTable, qs: QuestionTable, now: int, w: World, done: set<nat>, stats: RoundStats,
                  asked: set<nat>, id: nat, looked: bool)
    requires Tallied(before, qs, now, w, done, stats, asked) && id in DueIds(before, now) && id !in done
    requires looked <==> AsksAt(before, id, now)
    ensures (Tallied(before, qs[id := AutoEffect(before[id], id, now, w)], now, w, done + {id},
      Tally(stats, KindAt(before[id], id, now, w)), if looked then asked + {id} else asked))
  {
    hide AsksAt, KindAt, AutoEffect, Due;
    CountKind(before, done, now, w, id, WasResolved);
    CountKind(before, done, now, w, id, WasDegraded);
    CountKind(before, done, now, w, id, WasPending);
    hide OfKind;
    assert id in before.Keys;
    assert qs[id := AutoEffect(before[id], id, now, w)].Keys == qs.Keys;
  }

  lemma KindsPartition(qs: QuestionTable, done: set<nat>, now: int, w: World)
    requires done <= qs.Keys
    ensures (|OfKind(qs, done, now, w, WasResolved)| + |OfKind(qs, done, now, w, WasDegraded)|
      + |OfKind(qs, done, now, w, WasPending)| == |done|)
  {
    hide KindAt;
    var r, d, p := OfKind(qs, done, now, w, WasResolved), OfKind(qs, done, now, w, WasDegraded),
      OfKind(qs, done, now, w, WasPending);
    assert r + d + p == done && r * d == {} && (r + d) * p == {};
  }

  /** A due question is resolved exactly when its kind says so. */
  lemma ResolvedKind(q: Question, id: nat, now: int, w: World)
    requires Due(q, now)
    ensures var r := AutoEffect(q, id, now, w);
      if KindAt(q, id, now, w).WasResolved?
      then r.outcome.Some? && r.resolutionSource.Some? && r == Resolved(q, r.outcome.value, r.resolutionSource.value)
        && (Asks(q, now) || (q.cell.Readable? && q.cell.spec.cls == Some("B")))
      else r == q
  {
    hide LooksAtQuotes;
  }

  /** Each question done is resolved, degraded or pending; the resolved ones are those with a new outcome. */
  lemma TalliedMeans(before: QuestionTable, after: QuestionTable, now: int, w: World, done: set<nat>,
                     stats: RoundStats, asked: set<nat>)
    requires Tallied(before, after, now, w, done, stats, asked)
    ensures OnlyResolves(before, after, done) && stats.resolved == |Newly(before, after)|
    ensures stats.resolved + stats.degraded + stats.pending == |done|
    ensures forall id :: id in Newly(before, after) ==> id in asked || ClassB(before, id)
  {
    hide Asks, KindAt, AutoEffect;
    KindsPartition(before, done, now, w);
    forall id | id in before
      ensures id in after && after[id] == if id in done then AutoEffect(before[id], id, now, w) else before[id]
    {
      assert id in before.Keys;
    }
    forall id | id in done {
      ResolvedKind(before[id], id, now, w);
    }
    assert Newly(before, after) == OfKind(before, done, now, w, WasResolved);
  }

  /** auto_resolve */
  method AutoResolve(st: Storage, now: int, w: World) returns (stats: RoundStats, ghost asked: set<nat>)
    requires st.Valid()
    modifies st
    ensures st.Valid() && (old(LatestScored(st.predictions)) ==> LatestScored(st.predictions))
    ensures ScoresKept(old(st.predictions), st.predictions)
    ensures Tallied(old(st.questions), st.questions, now, w, DueIds(old(st.questions), now), stats, asked)
    ensures LogTally(old(st.log), st.log, stats.resolved, stats.degraded)
  {
    hide ScoresKept, LatestScored, Count, Asks, AsksAt, Consistent, Tallied, LogTally, DueIds, AutoEffect, ScoredFor;
    stats, asked := RoundStats(0, 0, 0), {};
    ghost var before := st.questions;
    ghost var done: set<nat> := {};
    StartOfRound(before, st.predictions);
    StartTally(before, st.log, now, w);
    var rows := Rows(DueIds(st.questions, now));
    var i := 0;
    while i < |rows|
      invariant 0 <= i <= |rows| && st.Valid() && (old(LatestScored(st.predictions)) ==> LatestScored(st.predictions))
      invariant ScoresKept(old(st.predictions), st.predictions)
      invariant |done| == i && forall j :: 0 <= j < |rows| ==> (rows[j] in done <==> j < i)
      invariant Tallied(before, st.questions, now, w, done, stats, asked)
      invariant LogTally(old(st.log), st.log, stats.resolved, stats.degraded)
    {
      var id := rows[i];
      assert id in rows;
      ghost var qs, ps, log := st.questions, st.predictions, st.log;
      UntouchedYet(before, qs, now, w, done, stats, asked, id);
      var kind: Kind;
      ghost var looked: bool;
      kind, looked := ResolveDue(st, id, now, w);
      ScoresKeptTransitive(old(st.predictions), ps, st.predictions);
      TallyStep(before, qs, now, w, done, stats, asked, id, looked);
      LogStep(old(st.log), log, st.log, stats, kind);
      asked := if looked then asked + {id} else asked;
      stats := Tally(stats, kind);
      done := done + {id};
      i := i + 1;
    }
    TalliedWithin(before, st.questions, now, w, done, stats, asked);
    SameSet(rows, DueIds(before, now), done);
    var refreshed: bool := *;
    if stats.resolved > 0 && !refreshed {
      ghost var log := st.log;
      Log(st, RefreshFailed);
      RefreshUncounted(old(st.log), log, st.log, stats);
    }
  }

  lemma StartTally(qs: QuestionTable, log: seq<Event>, now: int, w: World)
    ensures Tallied(qs, qs, now, w, {}, RoundStats(0, 0, 0), {}) && LogTally(log, log, 0, 0)
  {
    assert forall kind :: OfKind(qs, {}, now, w, kind) == {};
  }

  lemma UntouchedYet(before: QuestionTable, qs: QuestionTable, now: int, w: World, done: set<nat>,
                     stats: RoundStats, asked: set<nat>, id: nat)
    requires Tallied(before, qs, now, w, done, stats, asked) && id !in done && id in DueIds(before, now)
    ensures id in qs && id in before && qs[id] == before[id] && Due(qs[id], now)
    ensures Asks(qs[id], now) == AsksAt(before, id, now)
  {
    assert id in before.Keys;
  }

  lemma TalliedWithin(before: QuestionTable, qs: QuestionTable, now: int, w: World, done: set<nat>,
                      stats: RoundStats, asked: set<nat>)
    requires Tallied(before, qs, now, w, done, stats, asked)
    ensures done <= DueIds(before, now)
  {
  }

  lemma LogStep(a: seq<Event>, b: seq<Event>, c: seq<Event>, stats: RoundStats, kind: Kind)
    requires LogTally(a, b, stats.resolved, stats.degraded)
    requires LogTally(b, c, if kind.WasResolved? then 1 else 0, if kind.WasDegraded? then 1 else 0)
    ensures LogTally(a, c, Tally(stats, kind).resolved, Tally(stats, kind).degraded)
  {
  }

  lemma RefreshUncounted(a: seq<Event>, b: seq<Event>, c: seq<Event>, stats: RoundStats)
    requires LogTally(a, b, stats.resolved, stats.degraded) && SameCounts(b, c)
    ensures LogTally(a, c, stats.resolved, stats.degraded)
  {
  }

  lemma SameSet(rows: seq<nat>, ids: set<nat>, done: set<nat>)
    requires forall id :: id in rows <==> id in ids
    requires done <= ids && forall j :: 0 <= j < |rows| ==> rows[j] in done
    ensures done == ids
  {
    forall id | id in ids ensures id in done {
      assert id in rows;
    }
  }

  ghost predicate ClassB(qs: QuestionTable, id: nat) {
    id in qs && qs[id].cell.Readable? && qs[id].cell.spec.cls == Some("B")
  }

  ghost predicate AsksAt(qs: QuestionTable, id: nat, now: int) {
    id in qs && Asks(qs[id], now)
  }

  ghost predicate ResolvedInto(qs: QuestionTable, after: QuestionTable, id: nat) {
    id in qs && exists outcome, source :: after == qs[id := Resolved(qs[id], outcome, source)]
  }

  lemma StartOfRound(qs: QuestionTable, ps: PredictionTable)
    ensures forall ids :: OnlyResolves(qs, qs, ids)
    ensures Newly(qs, qs) == {} && ScoresKept(ps, ps)
  {
  }

  // ----- resolve_round -----

  /** ops_backlog: automatic questions past their grace period. */
  ghost function Backlog(qs: QuestionTable, now: int): nat {
    |set id | id in qs && PastGrace(qs[id], now)|
  }

  ghost predicate ExpiredAt(qs: QuestionTable, id: nat, now: int) {
    id in DueIds(qs, now) && TimedOut(qs[id], now)
  }

  /** The degrading pass did its work on `done` and touched nothing else. */
  ghost predicate DegradedSoFar(before: QuestionTable, after: QuestionTable, now: int, done: set<nat>) {
    before.Keys == after.Keys && forall id :: id in before ==>
      after[id] == if id in done then AfterTimeout(before[id], now) else before[id]
  }

  lemma DegradeOne(before: QuestionTable, qs: QuestionTable, now: int, done: set<nat>, id: nat)
    requires DegradedSoFar(before, qs, now, done) && id in DueIds(before, now) && id !in done
    ensures id in qs && qs[id] == before[id]
    ensures var next := if TimedOut(before[id], now) then qs[id := Degraded(qs[id])] else qs;
      DegradedSoFar(before, next, now, done + {id})
  {
    assert id in before.Keys;
    if TimedOut(before[id], now) {
      assert qs[id := Degraded(qs[id])].Keys == qs.Keys;
    }
  }

  lemma CountOne(before: QuestionTable, now: int, done: set<nat>, id: nat)
    requires id !in done
    ensures (|Expired(before, now, done + {id})|
      == |Expired(before, now, done)| + if ExpiredAt(before, id, now) then 1 else 0)
  {
    if ExpiredAt(before, id, now) {
      assert Expired(before, now, done + {id}) == Expired(before, now, done) + {id};
    } else {
      assert Expired(before, now, done + {id}) == Expired(before, now, done);
    }
  }

  ghost function Expired(qs: QuestionTable, now: int, ids: set<nat>): set<nat> {
    set id | id in ids && ExpiredAt(qs, id, now)
  }

  /** Each timeout is logged twice, as a timeout and as archived; no success is logged. */
  ghost predicate TimeoutsLogged(before: seq<Event>, after: seq<Event>, n: int) {
    && Count(after, TimeoutKind) == Count(before, TimeoutKind) + n
    && Count(after, ArchivedKind) == Count(before, ArchivedKind) + n
    && Count(after, OkKind) == Count(before, OkKind)
  }

  /** First pass of resolve_round: automatic questions past their grace period change class. */
  method DegradeExpired(st: Storage, now: int) returns (timeouts: nat)
    requires st.Valid()
    modifies st`questions, st`log
    ensures st.Valid() && OutcomesKept(old(st.questions), st.questions)
    ensures DegradedSoFar(old(st.questions), st.questions, now, DueIds(old(st.questions), now))
    ensures timeouts == |Expired(old(st.questions), now, DueIds(old(st.questions), now))|
    ensures TimeoutsLogged(old(st.log), st.log, timeouts)
  {
    hide DegradedSoFar, Expired, Consistent, AfterTimeout, OutcomesKept, Count;
    timeouts := 0;
    ghost var before := st.questions;
    ghost var done: set<nat> := {};
    NothingDegraded(before, now);
    var rows := Rows(DueIds(st.questions, now));
    var i := 0;
    while i < |rows|
      invariant 0 <= i <= |rows| && st.Valid() && OutcomesKept(before, st.questions)
      invariant done <= DueIds(before, now) && forall j :: 0 <= j < |rows| ==> (rows[j] in done <==> j < i)
      invariant DegradedSoFar(before, st.questions, now, done) && timeouts == |Expired(before, now, done)|
      invariant TimeoutsLogged(old(st.log), st.log, timeouts)
    {
      var id := rows[i];
      assert id in rows;
      ghost var qs := st.questions;
      DegradeOne(before, qs, now, done, id);
      CountOne(before, now, done, id);
      var q := st.questions[id];
      if q.cell.BrokenSpec? {
        Log(st, ResolutionFailed(id, SpecBroken));
      } else if q.cell.Readable? && Automatic(q.cell.spec) && now > q.closesAt + GraceDays(q.cell.spec.grace) * DAY {
        var target := DegradeTarget(q.cell.spec);
        st.SetResolution(id, target, Some(q.cell.spec.(cls := Some(target))));
        OutcomesKeptTransitive(before, qs, st.questions);
        Log(st, TimedOutEvent(id));
        Log(st, ArchivedEvent(id));
        timeouts := timeouts + 1;
      }
      done := done + {id};
      i := i + 1;
    }
    SameSet(rows, DueIds(before, now), done);
  }

  lemma NothingDegraded(qs: QuestionTable, now: int)
    ensures DegradedSoFar(qs, qs, now, {}) && Expired(qs, now, {}) == {} && OutcomesKept(qs, qs)
  {
  }

  /** What a whole round makes of one question: degraded if expired, then resolved if its resolver decides. */
  function RoundEffect(q: Question, id: nat, now: int, w: World): Question {
    AutoEffect(AfterTimeout(q, now), id, now, w)
  }

  /** A question keeps its effect; quotes are looked at exactly for questions not degraded out of class A. */
  ghost predicate RoundEffects(before: QuestionTable, after: QuestionTable, now: int, w: World, asked: set<nat>) {
    && before.Keys == after.Keys
    && (forall id :: id in asked ==> id in before)
    && (forall id :: id in before ==>
          && after[id] == RoundEffect(before[id], id, now, w)
          && (id in asked <==> Due(before[id], now) && Asks(AfterTimeout(before[id], now), now)))
  }

  lemma EffectsOfRound(before: QuestionTable, middle: QuestionTable, after: QuestionTable, now: int, w: World,
                       stats: RoundStats, asked: set<nat>)
    requires DegradedSoFar(before, middle, now, DueIds(before, now))
    requires Tallied(middle, after, now, w, DueIds(middle, now), stats, asked)
    ensures RoundEffects(before, after, now, w, asked)
    ensures DueIds(middle, now) == DueIds(before, now) && Newly(middle, after) == Newly(before, after)
  {
    hide Asks, LooksAtQuotes, DegradeTarget, Ruled, KindAt;
    forall id | id in before ensures id in middle && id in after && middle[id] == AfterTimeout(before[id], now) {
      assert id in middle.Keys && id in after.Keys;
    }
    assert before.Keys == after.Keys;
    assert DueIds(middle, now) == DueIds(before, now);
    forall id | id in before
      ensures after[id] == RoundEffect(before[id], id, now, w)
      ensures id in asked <==> Due(before[id], now) && Asks(AfterTimeout(before[id], now), now)
    {
    }
    forall id ensures id in Newly(middle, after) <==> id in Newly(before, after) {
      assert id in before.Keys <==> id in middle.Keys;
    }
  }

  /** The same on the columns of a question, with the rules of the clock written out. */
  lemma RoundOnColumns(q: Question, id: nat, now: int, w: World)
    ensures var r := RoundEffect(q, id, now, w);
      && r.closesAt == q.closesAt
      && (q.outcome.Some? || now < q.closesAt ==> r == q)
      && (q.outcome.None? && q.closesAt <= now && q.cell.Readable? ==>
            && var s := q.cell.spec;
            && var days := match s.grace case Days(n) => n case Quoted(n) => n case _ => 3;
            && var expired := s.cls in [Some("A"), Some("B")] && now > q.closesAt + days * DAY;
            && var target := if s.degradeTo.Some? && s.degradeTo.value != "" then s.degradeTo.value else "C";
            && (expired ==> r.resolutionClass == Some(target) && r.cell == Readable(s.(cls := Some(target))))
            && (!expired ==> r.resolutionClass == q.resolutionClass && r.cell == q.cell)
            && (s.source == Some("polymarket") ==> r.outcome == None)
            && (!expired && s.cls == Some("B") && s.source != Some("polymarket") ==>
                  r.outcome == if w.ready(id) then w.model(id) else None)
            && (s.cls !in [Some("A"), Some("B")] ==> r.outcome == None)
            && var low := if s.closeTimezone == Some("Asia/Shanghai") then q.closesAt else q.closesAt + DAY;
            && var looks := (s.grace.Absent? || s.grace.Days?) && low <= now < low + DAY;
            && (!expired && s.cls == Some("A") && s.source != Some("polymarket") ==>
                  r.outcome == if looks && w.quotes(id).Some? then Some(w.quotes(id).value.outcome) else None))
      && (q.cell.NoSpec? || q.cell.BrokenSpec? ==> r == q)
  {
  }

  /** Within a round, exactly the expired questions degraded to an automatic class stay in the backlog. */
  lemma BacklogAfterRound(before: QuestionTable, after: QuestionTable, now: int, w: World, asked: set<nat>, id: nat)
    requires RoundEffects(before, after, now, w, asked) && id in before && id in after
    ensures (PastGrace(after[id], now)
      <==> PastGrace(before[id], now) && Open(after[id]) && DegradeTarget(before[id].cell.spec) in ["A", "B"])
  {
    hide Asks, Ruled;
    assert after[id] == RoundEffect(before[id], id, now, w);
    DegradingEmptiesBacklog(before[id], now);
  }

  lemma RoundCounts(before: seq<Event>, after: seq<Event>, stats: RoundStats)
    requires LogTally(before, after, stats.resolved, stats.degraded)
    ensures Count(after, OkKind) == Count(before, OkKind) + stats.resolved
    ensures Count(after, TimeoutKind) == Count(before, TimeoutKind)
  {
  }

  /** resolve_round */
  method ResolveRound(st: Storage, now: int, w: World) returns (stats: RoundStats, timeouts: nat, ghost asked: set<nat>)
    requires st.Valid()
    modifies st
    ensures st.Valid() && (old(LatestScored(st.predictions)) ==> LatestScored(st.predictions))
    ensures OutcomesKept(old(st.questions), st.questions) && ScoresKept(old(st.predictions), st.predictions)
    ensures RoundEffects(old(st.questions), st.questions, now, w, asked)
    ensures stats.resolved + stats.degraded + stats.pending == |DueIds(old(st.questions), now)|
    ensures stats.resolved == |Newly(old(st.questions), st.questions)|
    ensures timeouts == |Expired(old(st.questions), now, DueIds(old(st.questions), now))|
    ensures Count(st.log, OkKind) == Count(old(st.log), OkKind) + stats.resolved
    ensures Count(st.log, TimeoutKind) == Count(old(st.log), TimeoutKind) + timeouts
    ensures DegradeToManual(old(st.questions), now) ==> Backlog(st.questions, now) == 0
  {
    hide RoundEffects, DegradedSoFar, Newly, DueIds, Expired, OnlyResolves, ScoresKept, LatestScored, OutcomesKept,
         Consistent, Backlog, DegradeToManual, Count, Tallied, LogTally, ClassB;
    ghost var before := st.questions;
    timeouts := DegradeExpired(st, now);
    ghost var middle := st.questions;
    ghost var log := st.log;
    stats, asked := AutoResolve(st, now, w);
    EffectsOfRound(before, middle, st.questions, now, w, stats, asked);
    TalliedMeans(middle, st.questions, now, w, DueIds(middle, now), stats, asked);
    RoundCounts(log, st.log, stats);
    OnlyResolvesKeepsOutcomes(middle, st.questions, DueIds(middle, now));
    OutcomesKeptTransitive(before, middle, st.questions);
    if DegradeToManual(before, now) {
      EmptyBacklog(before, st.questions, now, w, asked);
    }
  }

  /** Every expired question is degraded to a class resolved by hand. */
  ghost predicate DegradeToManual(qs: QuestionTable, now: int) {
    forall id :: ExpiredAt(qs, id, now) ==> DegradeTarget(qs[id].cell.spec) !in ["A", "B"]
  }

  lemma EmptyBacklog(before: QuestionTable, after: QuestionTable, now: int, w: World, asked: set<nat>)
    requires RoundEffects(before, after, now, w, asked) && DegradeToManual(before, now)
    ensures Backlog(after, now) == 0
  {
    forall id | id in after ensures !PastGrace(after[id], now) {
      assert id in before.Keys;
      BacklogAfterRound(before, after, now, w, asked, id);
      DegradingEmptiesBacklog(before[id], now);
      assert ExpiredAt(before, id, now) <==> PastGrace(before[id], now);
    }
    assert (set id | id in after && PastGrace(after[id], now)) == {};
  }

  lemma NothingYet(qs: QuestionTable, ps: PredictionTable)
    ensures OutcomesKept(qs, qs) && ScoresKept(ps, ps)
  {
  }
}
