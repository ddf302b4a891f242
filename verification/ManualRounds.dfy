/**
 * The other rounds that resolve questions, scripts/resolve.py and scripts/pm_resolve.py, and arbitrary
 * sequences of rounds.
 */
module ManualRounds {
  import opened Wrappers
  import opened Questions
  import opened QuestionStore
  import opened ResolutionRounds

  // ----- Outcomes filled in by hand -----

  datatype Row = Row(id: nat, outcome: bool, source: string)

  /** A valid automatic question whose quotes are not due yet may not be resolved by hand. */
  predicate TooEarly(q: Question, now: int, valid: Spec -> bool) {
    q.cell.Readable? && q.cell.spec.cls == Some("A") && valid(q.cell.spec) && now < WindowLow(q, q.cell.spec)
  }

  predicate Decides(row: Row, clock: int, q: Question, id: nat, valid: Spec -> bool) {
    row.id == id && !TooEarly(q, clock, valid)
  }

  /** Index of the first row that decides a question, each row read at its own time, or the number of rows. */
  function FirstRow(rows: seq<Row>, clocks: seq<int>, q: Question, id: nat, valid: Spec -> bool): (i: nat)
    requires |rows| == |clocks|
    ensures i <= |rows| && (i < |rows| ==> Decides(rows[i], clocks[i], q, id, valid))
    ensures forall j :: 0 <= j < i ==> !Decides(rows[j], clocks[j], q, id, valid)
  {
    if rows == [] then 0
    else
      var n := |rows| - 1;
      var i := FirstRow(rows[..n], clocks[..n], q, id, valid);
      assert forall j :: 0 <= j < n ==> rows[..n][j] == rows[j] && clocks[..n][j] == clocks[j];
      if i < n || Decides(rows[n], clocks[n], q, id, valid) then i else |rows|
  }

  /** The first row read when an open question is no longer too early decides it; nothing else changes. */
  function CsvEffect(q: Question, id: nat, rows: seq<Row>, clocks: seq<int>, valid: Spec -> bool): Question
    requires |rows| == |clocks|
  {
    var i := FirstRow(rows, clocks, q, id, valid);
    if Open(q) && i < |rows| then Resolved(q, rows[i].outcome, rows[i].source) else q
  }

  ghost predicate CsvSoFar(before: QuestionTable, after: QuestionTable, rows: seq<Row>, clocks: seq<int>,
                           valid: Spec -> bool)
    requires |rows| == |clocks|
  {
    && before.Keys == after.Keys
    && forall id :: id in before ==> after[id] == CsvEffect(before[id], id, rows, clocks, valid)
  }

  /** What one row does to the table. */
  function AfterRow(qs: QuestionTable, row: Row, clock: int, valid: Spec -> bool): QuestionTable {
    if row.id in qs && Open(qs[row.id]) && !TooEarly(qs[row.id], clock, valid)
    then qs[row.id := Resolved(qs[row.id], row.outcome, row.source)] else qs
  }

  lemma CsvStep(before: QuestionTable, qs: QuestionTable, rows: seq<Row>, clocks: seq<int>, row: Row, clock: int,
                valid: Spec -> bool)
    requires |rows| == |clocks| && CsvSoFar(before, qs, rows, clocks, valid)
    ensures CsvSoFar(before, AfterRow(qs, row, clock, valid), rows + [row], clocks + [clock], valid)
  {
    var next := AfterRow(qs, row, clock, valid);
    assert next.Keys == qs.Keys;
    forall id | id in before ensures next[id] == CsvEffect(before[id], id, rows + [row], clocks + [clock], valid) {
      assert id in qs.Keys;
      assert (rows + [row])[..|rows|] == rows && (clocks + [clock])[..|rows|] == clocks;
    }
  }

  lemma CsvKeeps(before: QuestionTable, after: QuestionTable, rows: seq<Row>, clocks: seq<int>, valid: Spec -> bool)
    requires |rows| == |clocks| && CsvSoFar(before, after, rows, clocks, valid)
    ensures OnlyResolves(before, after, before.Keys) && OutcomesKept(before, after)
  {
    OnlyResolvesKeepsOutcomes(before, after, before.Keys);
  }

  /** One row, read at `now`; `clock` is the database's. */
  method CsvRow(st: Storage, row: Row, now: int, clock: int, valid: Spec -> bool) returns (resolved: bool)
    requires st.Valid()
    modifies st
    ensures st.Valid() && (old(LatestScored(st.predictions)) ==> LatestScored(st.predictions))
    ensures ScoresKept(old(st.predictions), st.predictions)
    ensures st.questions == AfterRow(old(st.questions), row, now, valid)
    ensures (resolved <==>
      row.id in old(st.questions) && Open(old(st.questions)[row.id])
      && !TooEarly(old(st.questions)[row.id], now, valid))
    ensures !resolved ==> st.predictions == old(st.predictions) && st.modelStats == old(st.modelStats)
    ensures (resolved ==>
      ScoredFor(old(st.predictions), st.predictions, row.id, row.outcome,
        clock - old(st.questions)[row.id].closesAt > 7 * DAY))
  {
    hide Consistent, LatestScored, ScoresKept, ScoredFor, IsPick, ScoreAt, StatsFollow;
    NoChange(st.predictions);
    resolved := row.id in st.questions && Open(st.questions[row.id]) && !TooEarly(st.questions[row.id], now, valid);
    if resolved {
      ghost var ps := st.predictions;
      ghost var pick, archived, order := st.ResolveQuestion(row.id, row.outcome, row.source, false, clock);
      ScoredForPick(ps, st.predictions, row.id, pick, row.outcome, archived);
    }
  }

  /** main of scripts/resolve.py: rows for missing, resolved or too early questions are skipped. */
  method CsvRound(st: Storage, rows: seq<Row>, valid: Spec -> bool) returns (resolved: nat, ghost clocks: seq<int>)
    requires st.Valid()
    modifies st
    ensures st.Valid() && (old(LatestScored(st.predictions)) ==> LatestScored(st.predictions))
    ensures ScoresKept(old(st.predictions), st.predictions)
    ensures |clocks| == |rows| && CsvSoFar(old(st.questions), st.questions, rows, clocks, valid)
    ensures resolved == |Newly(old(st.questions), st.questions)|
  {
    hide CsvSoFar, OnlyResolves, OutcomesKept, Newly, ScoresKept, LatestScored, Consistent, ScoredFor;
    resolved, clocks := 0, [];
    ghost var before := st.questions;
    NoRows(before, valid);
    StartOfRound(before, st.predictions);
    var i := 0;
    while i < |rows|
      invariant 0 <= i <= |rows| && st.Valid() && (old(LatestScored(st.predictions)) ==> LatestScored(st.predictions))
      invariant ScoresKept(old(st.predictions), st.predictions)
      invariant |clocks| == i && CsvSoFar(before, st.questions, rows[..i], clocks, valid)
      invariant resolved == |Newly(before, st.questions)|
    {
      var row := rows[i];
      var now: int, clock: int := *, *;
      ghost var qs, ps := st.questions, st.predictions;
      CsvStep(before, qs, rows[..i], clocks, row, now, valid);
      var done := CsvRow(st, row, now, clock, valid);
      ScoresKeptTransitive(old(st.predictions), ps, st.predictions);
      if done {
        CsvKeeps(before, qs, rows[..i], clocks, valid);
        StillOpen(before, qs, row.id);
        OnlyResolvesThenOne(before, qs, before.Keys, row.id, row.outcome, row.source);
        resolved := resolved + 1;
      }
      assert rows[..i+1] == rows[..i] + [row];
      clocks := clocks + [now];
      i := i + 1;
    }
    assert rows[..i] == rows;
  }

  /**
   * The same on the columns: an open question takes outcome and source of the first row with its id that is
   * read no earlier than its quotes are due, if it is a valid automatic one; without such a row it stays.
   */
  lemma CsvOnColumns(before: QuestionTable, after: QuestionTable, rows: seq<Row>, clocks: seq<int>, valid: Spec -> bool,
                     id: nat, i: nat)
    requires |rows| == |clocks| && CsvSoFar(before, after, rows, clocks, valid) && id in before && i <= |rows|
    requires forall j :: 0 <= j < i && rows[j].id == id ==> MustWait(before[id], clocks[j], valid)
    requires i < |rows| ==> rows[i].id == id && !MustWait(before[id], clocks[i], valid)
    ensures id in after
    ensures before[id].outcome.Some? || i == |rows| ==> after[id] == before[id]
    ensures (before[id].outcome.None? && i < |rows| ==>
      && after[id].outcome == Some(rows[i].outcome) && after[id].resolutionSource == Some(rows[i].source)
      && after[id].closesAt == before[id].closesAt && after[id].cell == before[id].cell)
  {
    assert id in before.Keys;
    var q := before[id];
    assert forall j :: 0 <= j < |rows| ==>
      (Decides(rows[j], clocks[j], q, id, valid) <==> rows[j].id == id && !MustWait(q, clocks[j], valid));
    assert FirstRow(rows, clocks, q, id, valid) == i;
  }

  predicate MustWait(q: Question, now: int, valid: Spec -> bool) {
    && q.cell.Readable? && q.cell.spec.cls == Some("A") && valid(q.cell.spec)
    && now < if q.cell.spec.closeTimezone == Some("Asia/Shanghai") then q.closesAt else q.closesAt + DAY
  }

  lemma NoRows(qs: QuestionTable, valid: Spec -> bool)
    ensures CsvSoFar(qs, qs, [], [], valid)
  {
  }

  lemma NoChange(ps: PredictionTable)
    ensures ScoresKept(ps, ps)
  {
  }

  lemma StillOpen(before: QuestionTable, qs: QuestionTable, id: nat)
    requires OnlyResolves(before, qs, before.Keys) && id in qs && Open(qs[id])
    ensures id in before && qs[id] == before[id]
  {
    assert id in before.Keys;
  }

  // ----- Questions taken from the prediction market -----

  const MARKET := "polymarket gamma api"
  const FALLBACK := "llm fallback (" + MODEL + ")"
  const EXCLUSIVE_DAYS := 3

  predicate FromMarket(q: Question) {
    q.cell.Readable? && q.cell.spec.source == Some("polymarket")
  }

  function MarketIds(qs: QuestionTable): set<nat> {
    set id | id in qs && FromMarket(qs[id])
  }

  /**
   * The market's decision counts whenever there is one.  Without one nothing happens in the three days
   * after closing, and the language model decides only in the three days that follow.
   */
  function PmEffect(q: Question, market: Option<bool>, model: Option<bool>, ready: bool, now: int): Question {
    if !Due(q, now) then q
    else if market.Some? then Resolved(q, market.value, MARKET)
    else if ready && model.Some?
            && q.closesAt + EXCLUSIVE_DAYS * DAY <= now <= q.closesAt + (EXCLUSIVE_DAYS + 3) * DAY
    then Resolved(q, model.value, FALLBACK)
    else q
  }

  /** What the market and the model answer about each question of one round, and the clock of the database. */
  datatype MarketWorld = MarketWorld(
    market: nat -> Option<bool>, model: nat -> Option<bool>, ready: bool, clock: nat -> int)

  ghost predicate PmSoFar(before: QuestionTable, after: QuestionTable, done: set<nat>, w: MarketWorld, now: int) {
    before.Keys == after.Keys && forall id :: id in before ==>
      after[id] == if id in done then PmEffect(before[id], w.market(id), w.model(id), w.ready, now) else before[id]
  }

  lemma PmKeeps(before: QuestionTable, after: QuestionTable, done: set<nat>, w: MarketWorld, now: int)
    requires PmSoFar(before, after, done, w, now)
    ensures OnlyResolves(before, after, before.Keys) && OutcomesKept(before, after)
  {
    OnlyResolvesKeepsOutcomes(before, after, before.Keys);
  }

  lemma PmStep(before: QuestionTable, qs: QuestionTable, done: set<nat>, id: nat, w: MarketWorld, now: int)
    requires PmSoFar(before, qs, done, w, now) && id in before && id !in done
    ensures (PmSoFar(before, qs[id := PmEffect(before[id], w.market(id), w.model(id), w.ready, now)], done + {id}, w,
      now))
  {
    assert id in qs.Keys;
    assert qs[id := PmEffect(before[id], w.market(id), w.model(id), w.ready, now)].Keys == qs.Keys;
  }

  lemma NotYetDone(before: QuestionTable, qs: QuestionTable, done: set<nat>, id: nat, w: MarketWorld, now: int)
    requires PmSoFar(before, qs, done, w, now) && id in MarketIds(before) && id !in done
    ensures id in qs && id in before && qs[id] == before[id] && FromMarket(qs[id])
  {
    assert id in before.Keys;
  }

  /** One question of the market round. */
  method PmOne(st: Storage, id: nat, w: MarketWorld, now: int, dryRun: bool) returns (resolved: bool)
    requires st.Valid() && id in st.questions && FromMarket(st.questions[id])
    modifies st
    ensures st.Valid() && (old(LatestScored(st.predictions)) ==> LatestScored(st.predictions))
    ensures ScoresKept(old(st.predictions), st.predictions)
    ensures (dryRun || !resolved ==>
      st.questions == old(st.questions) && st.predictions == old(st.predictions) && st.modelStats == old(st.modelStats))
    ensures SameCounts(old(st.log), st.log) && (dryRun ==> OnlyGuarded(old(st.log), st.log))
    ensures (resolved <==>
      PmEffect(old(st.questions)[id], w.market(id), w.model(id), w.ready, now) != old(st.questions)[id])
    ensures (!dryRun ==>
      st.questions == old(st.questions)[id :=
        PmEffect(old(st.questions)[id], w.market(id), w.model(id), w.ready, now)])
    ensures (!dryRun && resolved ==>
      && st.questions[id].outcome.Some?
      && ScoredFor(old(st.predictions), st.predictions, id, st.questions[id].outcome.value,
           w.clock(id) - old(st.questions)[id].closesAt > 7 * DAY))
  {
    hide ScoresKept, LatestScored, Consistent, IsPick, ScoreAt, StatsFollow, ScoredFor;
    NoChange(st.predictions);
    var q := st.questions[id];
    assert st.questions == st.questions[id := q];
    ghost var ps := st.predictions;
    if q.outcome.Some? || now < q.closesAt {
      return false;
    }
    var market := w.market(id);
    if market.Some? {
      if !dryRun {
        ghost var pick, archived, order := st.ResolveQuestion(id, market.value, MARKET, false, w.clock(id));
        ScoredForPick(ps, st.predictions, id, pick, market.value, archived);
      }
      return true;
    }
    if now - q.closesAt < EXCLUSIVE_DAYS * DAY || !w.ready {
      return false;
    }
    var v;
    ghost var searched;
    v, searched := LlmVerdict(st, id, q, 3 + 3, now, w.model(id));
    if !v.Decided? {
      return false;
    }
    if !dryRun {
      ghost var pick, archived, order := st.ResolveQuestion(id, v.outcome, FALLBACK, false, w.clock(id));
      ScoredForPick(ps, st.predictions, id, pick, v.outcome, archived);
    }
    return true;
  }

  /** The questions a market round resolves. */
  ghost function Decidable(qs: QuestionTable, ids: set<nat>, w: MarketWorld, now: int): set<nat> {
    set id | id in ids && id in qs && PmEffect(qs[id], w.market(id), w.model(id), w.ready, now) != qs[id]
  }

  lemma CountDecidable(qs: QuestionTable, ids: set<nat>, w: MarketWorld, now: int, id: nat)
    requires id in qs && id !in ids
    ensures (|Decidable(qs, ids + {id}, w, now)| == |Decidable(qs, ids, w, now)|
      + if PmEffect(qs[id], w.market(id), w.model(id), w.ready, now) != qs[id] then 1 else 0)
  {
    if PmEffect(qs[id], w.market(id), w.model(id), w.ready, now) != qs[id] {
      assert Decidable(qs, ids + {id}, w, now) == Decidable(qs, ids, w, now) + {id};
    } else {
      assert Decidable(qs, ids + {id}, w, now) == Decidable(qs, ids, w, now);
    }
  }

  /** main of scripts/pm_resolve.py */
  method PmRound(st: Storage, w: MarketWorld, now: int, dryRun: bool) returns (resolved: nat)
    requires st.Valid()
    modifies st
    ensures st.Valid() && (old(LatestScored(st.predictions)) ==> LatestScored(st.predictions))
    ensures ScoresKept(old(st.predictions), st.predictions)
    ensures (dryRun ==>
      st.questions == old(st.questions) && st.predictions == old(st.predictions) && st.modelStats == old(st.modelStats))
    ensures SameCounts(old(st.log), st.log) && (dryRun ==> OnlyGuarded(old(st.log), st.log))
    ensures !dryRun ==> PmSoFar(old(st.questions), st.questions, MarketIds(old(st.questions)), w, now)
    ensures resolved == |Decidable(old(st.questions), MarketIds(old(st.questions)), w, now)|
  {
    hide PmSoFar, PmEffect, ScoresKept, LatestScored, Consistent, Count, Decidable, ScoredFor;
    resolved := 0;
    ghost var before := st.questions;
    ghost var done: set<nat> := {};
    NoMarket(before, w, now);
    StartOfRound(before, st.predictions);
    var rows := Rows(MarketIds(st.questions));
    var i := 0;
    while i < |rows|
      invariant 0 <= i <= |rows| && st.Valid() && (old(LatestScored(st.predictions)) ==> LatestScored(st.predictions))
      invariant ScoresKept(old(st.predictions), st.predictions)
      invariant SameCounts(old(st.log), st.log) && (dryRun ==> OnlyGuarded(old(st.log), st.log))
      invariant done <= MarketIds(before) && forall j :: 0 <= j < |rows| ==> (rows[j] in done <==> j < i)
      invariant (dryRun ==>
        st.questions == before && st.predictions == old(st.predictions) && st.modelStats == old(st.modelStats))
      invariant !dryRun ==> PmSoFar(before, st.questions, done, w, now)
      invariant resolved == |Decidable(before, done, w, now)|
    {
      var id := rows[i];
      assert id in rows;
      ghost var qs, ps := st.questions, st.predictions;
      if !dryRun {
        NotYetDone(before, qs, done, id, w, now);
        PmStep(before, qs, done, id, w, now);
      }
      CountDecidable(before, done, w, now, id);
      var one := PmOne(st, id, w, now, dryRun);
      ScoresKeptTransitive(old(st.predictions), ps, st.predictions);
      resolved := if one then resolved + 1 else resolved;
      done := done + {id};
      i := i + 1;
    }
    SameSet(rows, MarketIds(before), done);
  }

  lemma NoMarket(qs: QuestionTable, w: MarketWorld, now: int)
    ensures PmSoFar(qs, qs, {}, w, now) && Decidable(qs, {}, w, now) == {}
  {
  }

  /** The same on the columns of a question, with the rules of the clock written out. */
  lemma MarketOnColumns(before: QuestionTable, after: QuestionTable, w: MarketWorld, now: int, id: nat)
    requires PmSoFar(before, after, MarketIds(before), w, now) && id in before
    ensures id in after
    ensures var q, r := before[id], after[id];
      && r.closesAt == q.closesAt && r.cell == q.cell && r.resolutionClass == q.resolutionClass
      && (q.outcome.Some? || now < q.closesAt ==> r == q)
      && (!(q.cell.Readable? && q.cell.spec.source == Some("polymarket")) ==> r == q)
      && (q.outcome.None? && q.closesAt <= now && q.cell.Readable? && q.cell.spec.source == Some("polymarket") ==>
            if w.market(id).Some? then r.outcome == w.market(id)
            else if w.ready && q.closesAt + 3 * DAY <= now <= q.closesAt + 6 * DAY then r.outcome == w.model(id)
            else r == q)
  {
    assert id in before.Keys;
  }

  // ----- Any sequence of rounds -----

  /** Questions may be added, and open ones resolved; nothing else about a question changes. */
  ghost predicate OnlyAddsAndResolves(before: QuestionTable, after: QuestionTable) {
    forall id :: id in before ==> id in after && (after[id] == before[id] || ResolvedFrom(before[id], after[id]))
  }

  predicate ResolvedFrom(q: Question, r: Question) {
    && Open(q) && r.outcome.Some? && r.resolutionSource.Some?
    && r == Resolved(q, r.outcome.value, r.resolutionSource.value)
  }

  lemma ResolvingOnly(a: QuestionTable, b: QuestionTable, ids: set<nat>)
    requires OnlyResolves(a, b, ids)
    ensures OnlyAddsAndResolves(a, b)
  {
    forall id | id in a ensures id in b {
      assert id in a.Keys;
    }
  }

  lemma AddedQuestion(a: QuestionTable, b: QuestionTable, id: nat)
    requires id !in a && id in b && b == a[id := b[id]]
    ensures OnlyAddsAndResolves(a, b)
  {
  }

  lemma AddsKeepOutcomes(a: QuestionTable, b: QuestionTable)
    requires OnlyAddsAndResolves(a, b)
    ensures OutcomesKept(a, b)
  {
  }

  lemma OnlyAddsTransitive(a: QuestionTable, b: QuestionTable, c: QuestionTable)
    requires OnlyAddsAndResolves(a, b) && OnlyAddsAndResolves(b, c)
    ensures OnlyAddsAndResolves(a, c)
  {
  }

  lemma AddedPrediction(a: PredictionTable, b: PredictionTable, k: nat)
    requires k !in a && k in b && b == a[k := b[k]]
    ensures ScoresKept(a, b)
  {
  }

  lemma NothingHappened(qs: QuestionTable, ps: PredictionTable)
    ensures OnlyAddsAndResolves(qs, qs) && ScoresKept(ps, ps)
  {
  }

  /**
   * A new question, a prediction on an open one, a round of resolutions by hand, or a market round, whose
   * answers are fresh.
   */
  method OtherStep(st: Storage, valid: Spec -> bool)
    requires st.Valid()
    modifies st
    ensures st.Valid() && (old(LatestScored(st.predictions)) ==> LatestScored(st.predictions))
    ensures OnlyAddsAndResolves(old(st.questions), st.questions) && ScoresKept(old(st.predictions), st.predictions)
  {
    hide OnlyAddsAndResolves, OutcomesKept, ScoresKept, LatestScored, Consistent, OnlyResolves, CsvSoFar, PmSoFar,
         Newly;
    ghost var qs, ps := st.questions, st.predictions;
    NothingHappened(qs, ps);
    var now: int, clock: int, choice: int := *, *, *;
    if choice == 0 {
      var rows: seq<Row> := *;
      var resolved;
      ghost var clocks;
      resolved, clocks := CsvRound(st, rows, valid);
      CsvKeeps(qs, st.questions, rows, clocks, valid);
      ResolvingOnly(qs, st.questions, qs.Keys);
    } else if choice == 1 {
      var w: MarketWorld, dryRun: bool := *, *;
      var resolved := PmRound(st, w, now, dryRun);
      if !dryRun {
        PmKeeps(qs, st.questions, MarketIds(qs), w, now);
        ResolvingOnly(qs, st.questions, qs.Keys);
      }
    } else if choice == 2 {
      var spec: Option<Spec>, cls: Option<string> := *, *;
      var id := st.AddQuestion(now, cls, spec);
      AddedQuestion(qs, st.questions, id);
    } else {
      var id: nat :| true;
      if id in st.questions && Open(st.questions[id]) {
        var p: real, evidence: seq<nat>, names: set<string>, arm: string := *, *, *, *;
        var r := st.AddPrediction(id, p, evidence, names, arm, clock);
        if r.Ok? {
          AddedPrediction(ps, st.predictions, r.value);
        }
      }
    }
  }

  method AnyStep(st: Storage, valid: Spec -> bool)
    requires st.Valid() && LatestScored(st.predictions)
    modifies st
    ensures st.Valid() && LatestScored(st.predictions)
    ensures OutcomesKept(old(st.questions), st.questions) && ScoresKept(old(st.predictions), st.predictions)
  {
    hide OnlyAddsAndResolves, OutcomesKept, ScoresKept, LatestScored, Consistent, OnlyResolves, RoundEffects, Tallied,
         Newly, Expired, Backlog, DegradeToManual;
    ghost var qs := st.questions;
    var now: int, choice: int, w: World := *, *, *;
    if choice == 0 {
      ghost var asked;
      var stats;
      stats, asked := AutoResolve(st, now, w);
      TalliedKeeps(qs, st.questions, now, w, stats, asked);
    } else if choice == 1 {
      var stats, timeouts;
      ghost var asked;
      stats, timeouts, asked := ResolveRound(st, now, w);
    } else {
      OtherStep(st, valid);
      AddsKeepOutcomes(qs, st.questions);
    }
  }

  lemma TalliedKeeps(before: QuestionTable, after: QuestionTable, now: int, w: World, stats: RoundStats,
                     asked: set<nat>)
    requires Tallied(before, after, now, w, DueIds(before, now), stats, asked)
    ensures OutcomesKept(before, after)
  {
    hide OnlyResolves, OutcomesKept, Newly, DueIds, Tallied;
    TalliedMeans(before, after, now, w, DueIds(before, now), stats, asked);
    OnlyResolvesKeepsOutcomes(before, after, DueIds(before, now));
  }

  /**
   * Any number of rounds of any kind, in any order and at any times, with new questions and new
   * predictions on open questions in between: no outcome or score ever changes, at most one
   * prediction per question is scored, that is its latest production prediction, and each model is
   * credited with exactly the scored predictions naming it.
   */
  method AnyHistory(st: Storage, steps: nat, valid: Spec -> bool)
    requires st.Valid() && LatestScored(st.predictions)
    modifies st
    ensures st.Valid() && LatestScored(st.predictions)
    ensures OutcomesKept(old(st.questions), st.questions) && ScoresKept(old(st.predictions), st.predictions)
  {
    hide OutcomesKept, ScoresKept, LatestScored, Consistent;
    ghost var first, scores := st.questions, st.predictions;
    NothingYet(first, scores);
    var i := 0;
    while i < steps
      invariant st.Valid() && LatestScored(st.predictions)
      invariant OutcomesKept(first, st.questions) && ScoresKept(scores, st.predictions)
    {
      ghost var qs, ps := st.questions, st.predictions;
      AnyStep(st, valid);
      OutcomesKeptTransitive(first, qs, st.questions);
      ScoresKeptTransitive(scores, ps, st.predictions);
      i := i + 1;
    }
  }
}
