/**
 * Questions, predictions and model statistics of src/predictor/data/storage.py as plain values, with
 * the time rules of the resolution rounds.  Times are whole seconds.
 */
module Questions {
  import opened Wrappers

  const DAY := 86400
  const GRACE_DAYS := 3

  /** The grace_days field: missing, a number, a numeral in quotes, or something int() rejects. */
  datatype Grace = Absent | Days(days: int) | Quoted(quoted: int) | Malformed

  /** `details` stands for all other fields. */
  datatype Spec = Spec(
    cls: Option<string>, source: Option<string>, closeTimezone: Option<string>, grace: Grace,
    degradeTo: Option<string>, details: string)

  /** The stored resolution_spec column; the text need not parse. */
  datatype SpecCell = NoSpec | BrokenSpec | Readable(spec: Spec)

  /** A spec as set_resolution and add_question store it. */
  function CellOf(spec: Option<Spec>): SpecCell {
    if spec.Some? then Readable(spec.value) else NoSpec
  }

  datatype Question = Question(
    closesAt: int, outcome: Option<bool>, resolutionSource: Option<string>, resolutionClass: Option<string>,
    cell: SpecCell)

  /** The keys of the stored model_runs object, or text that is not a JSON object. */
  datatype ModelRuns = Broken | Named(names: set<string>)

  datatype Prediction = Prediction(
    question: nat, probability: real, brier: Option<real>, runs: ModelRuns, arm: string, createdAt: int)

  datatype Stats = Stats(predictions: nat, brierEma: real)

  type QuestionTable = map<nat, Question>
  type PredictionTable = map<nat, Prediction>
  type StatsTable = map<string, Stats>

  predicate Open(q: Question) { q.outcome.None? }

  /** list_open_questions(by=now) */
  predicate Due(q: Question, now: int) { Open(q) && q.closesAt <= now }

  // ----- Scores -----

  function Truth(outcome: bool): real { if outcome then 1.0 else 0.0 }

  function Brier(probability: real, outcome: bool): real {
    (probability - Truth(outcome)) * (probability - Truth(outcome))
  }

  predicate InArm(p: Prediction) { p.arm == "baseline" || p.arm == "websearch" }

  predicate Candidate(ps: PredictionTable, id: nat, k: nat) {
    k in ps && ps[k].question == id && ps[k].brier.None? && InArm(ps[k])
  }

  /** ORDER BY created_at, id */
  predicate NotAfter(ps: PredictionTable, j: nat, k: nat)
    requires j in ps && k in ps
  {
    ps[j].createdAt < ps[k].createdAt || (ps[j].createdAt == ps[k].createdAt && j <= k)
  }

  ghost predicate IsPick(ps: PredictionTable, id: nat, pick: Option<nat>) {
    if pick.None? then forall k :: !Candidate(ps, id, k)
    else Candidate(ps, id, pick.value) && forall k :: Candidate(ps, id, k) ==> NotAfter(ps, k, pick.value)
  }

  function ScoreAt(ps: PredictionTable, pick: Option<nat>, outcome: bool): PredictionTable
    requires pick.Some? ==> pick.value in ps
  {
    if pick.None? then ps
    else ps[pick.value := ps[pick.value].(brier := Some(Brier(ps[pick.value].probability, outcome)))]
  }

  predicate IsScored(ps: PredictionTable, id: nat, k: nat) {
    k in ps && ps[k].question == id && ps[k].brier.Some?
  }

  /** The scored predictions whose model_runs name a model. */
  ghost function Naming(ps: PredictionTable, name: string): set<nat> {
    set k | k in ps && ps[k].brier.Some? && ps[k].runs.Named? && name in ps[k].runs.names
  }

  function CountOf(stats: StatsTable, name: string): nat {
    if name in stats then stats[name].predictions else 0
  }

  /** One INSERT ... ON CONFLICT DO UPDATE on model_stats. */
  function Bump(stats: StatsTable, name: string, brier: real): Stats {
    if name in stats then Stats(stats[name].predictions + 1, (stats[name].brierEma * 9.0 + brier) / 10.0)
      else Stats(1, brier)
  }

  /** The scored predictions of one question that name a model. */
  ghost function NamingOn(ps: PredictionTable, id: nat, ks: set<nat>, name: string): set<nat> {
    set k | k in ks && IsScored(ps, id, k) && ps[k].runs.Named? && name in ps[k].runs.names
  }

  /** Each model gains one count for every row among `ks` that names it. */
  ghost predicate CreditedFor(ps: PredictionTable, id: nat, ks: set<nat>, before: StatsTable, after: StatsTable) {
    forall name :: name != "" ==> CountOf(after, name) == CountOf(before, name) + |NamingOn(ps, id, ks, name)|
  }

  lemma CreditNothing(ps: PredictionTable, id: nat, stats: StatsTable)
    ensures CreditedFor(ps, id, {}, stats, stats)
  {
    assert forall name :: NamingOn(ps, id, {}, name) == {};
  }

  lemma CreditOneMore(ps: PredictionTable, id: nat, ks: set<nat>, k: nat, first: StatsTable, before: StatsTable,
                      after: StatsTable)
    requires CreditedFor(ps, id, ks, first, before) && k !in ks && IsScored(ps, id, k) && ps[k].runs.Named?
    requires BumpedBy(before, after, ps[k].runs.names, ps[k].brier.value)
    ensures CreditedFor(ps, id, ks + {k}, first, after)
  {
    forall name | name != "" ensures CountOf(after, name) == CountOf(first, name) + |NamingOn(ps, id, ks + {k}, name)| {
      if name in ps[k].runs.names {
        assert NamingOn(ps, id, ks + {k}, name) == NamingOn(ps, id, ks, name) + {k};
      } else {
        assert NamingOn(ps, id, ks + {k}, name) == NamingOn(ps, id, ks, name);
      }
    }
  }

  /** The scored rows of a question. */
  ghost function ScoredOn(ps: PredictionTable, id: nat): set<nat> {
    set k | k in ps && IsScored(ps, id, k)
  }

  ghost predicate AllNamed(ps: PredictionTable, id: nat) {
    forall k :: IsScored(ps, id, k) ==> ps[k].runs.Named?
  }

  /** Every non-empty name is bumped once, nothing else changes. */
  ghost predicate BumpedBy(before: StatsTable, after: StatsTable, names: set<string>, brier: real) {
    forall n :: if n in names && n != "" then n in after && after[n] == Bump(before, n, brier)
                else (n in after <==> n in before) && (n in before ==> after[n] == before[n])
  }

  function BumpAll(stats: StatsTable, names: set<string>, brier: real): StatsTable {
    map n | n in stats.Keys + names && (n in stats || n != "") ::
      if n in names && n != "" then Bump(stats, n, brier) else stats[n]
  }

  lemma BumpedByIsBumpAll(before: StatsTable, after: StatsTable, names: set<string>, brier: real)
    requires BumpedBy(before, after, names, brier)
    ensures after == BumpAll(before, names, brier)
  {
    forall n ensures n in after <==> n in BumpAll(before, names, brier) {
    }
  }

  predicate ScoredRows(ps: PredictionTable, rows: seq<nat>) {
    forall i :: 0 <= i < |rows| ==> rows[i] in ps && ps[rows[i]].brier.Some?
  }

  predicate HasBroken(ps: PredictionTable, rows: seq<nat>)
    requires ScoredRows(ps, rows)
  {
    exists i :: 0 <= i < |rows| && ps[rows[i]].runs.Broken?
  }

  /** model_stats after crediting rows in this order, up to the first whose model_runs are not a JSON object. */
  function CreditInOrder(stats: StatsTable, ps: PredictionTable, rows: seq<nat>): StatsTable
    requires ScoredRows(ps, rows)
  {
    if rows == [] then stats
    else
      var n := |rows| - 1;
      var before := CreditInOrder(stats, ps, rows[..n]);
      if HasBroken(ps, rows) then before else BumpAll(before, ps[rows[n]].runs.names, ps[rows[n]].brier.value)
  }

  /** Nothing is credited from the first broken row on. */
  lemma {:induction false} BrokenRowEndsCredit(stats: StatsTable, ps: PredictionTable, rows: seq<nat>, i: nat)
    requires ScoredRows(ps, rows) && i < |rows| && ps[rows[i]].runs.Broken?
    ensures HasBroken(ps, rows) && CreditInOrder(stats, ps, rows) == CreditInOrder(stats, ps, rows[..i])
  {
    var n := |rows| - 1;
    if i < n {
      BrokenRowEndsCredit(stats, ps, rows[..n], i);
      assert rows[..n][..i] == rows[..i];
    }
  }

  /** Each row once, in some order. */
  ghost predicate IsOrderOf(rows: seq<nat>, ids: set<nat>) {
    && (forall i, j :: 0 <= i < j < |rows| ==> rows[i] != rows[j])
    && (forall id :: id in rows <==> id in ids)
  }

  // ----- What scores and averages mean -----

  function Times(a: real, b: real): real { a * b }

  /** The better of two probabilities for what happened scores lower, and certainty scores nothing. */
  lemma BetterScoresLower(p: real, q: real)
    ensures 0.0 <= p < q <= 1.0 ==> Brier(q, true) < Brier(p, true) && Brier(p, false) < Brier(q, false)
    ensures Brier(1.0, true) == Brier(0.0, false) == 0.0
  {
    if 0.0 <= p < q <= 1.0 {
      SquaresRise(p, q);
      SquaresRise(1.0 - q, 1.0 - p);
      assert Brier(q, true) == Times(1.0 - q, 1.0 - q) && Brier(p, true) == Times(1.0 - p, 1.0 - p);
      assert Brier(q, false) == Times(q, q) && Brier(p, false) == Times(p, p);
    }
  }

  lemma SquaresRise(a: real, b: real)
    requires 0.0 <= a < b
    ensures Times(a, a) < Times(b, b)
  {
    assert Times(a, a) <= Times(a, b) < Times(b, b);
  }

  /** The score to expect of p when the event happens with frequency f. */
  function Expected(p: real, f: real): real {
    Times(f, Brier(p, true)) + Times(1.0 - f, Brier(p, false))
  }

  /** Saying the true frequency is the one way to expect the least score. */
  lemma HonestyScoresBest(p: real, f: real)
    ensures Expected(p, f) == Expected(f, f) + Times(p - f, p - f)
    ensures p != f ==> Expected(f, f) < Expected(p, f)
  {
    assert Brier(p, true) == p * p - 2.0 * p + 1.0 && Brier(p, false) == p * p;
    assert Brier(f, true) == f * f - 2.0 * f + 1.0 && Brier(f, false) == f * f;
    assert Expected(p, f) == f * (p * p - 2.0 * p + 1.0) + (1.0 - f) * (p * p) == p * p - 2.0 * (f * p) + f;
    assert Expected(f, f) == f * (f * f - 2.0 * f + 1.0) + (1.0 - f) * (f * f) == f - f * f;
    if p < f {
      SquaresRise(0.0, f - p);
      assert Times(p - f, p - f) == Times(f - p, f - p);
    } else if f < p {
      SquaresRise(0.0, p - f);
    }
  }

  /**
   * Crediting a score counts it for every non-empty name and moves that model's average a tenth of the way
   * to it; a model seen first starts at the score.
   */
  lemma AveragesMove(before: StatsTable, after: StatsTable, names: set<string>, brier: real, name: string)
    requires BumpedBy(before, after, names, brier)
    ensures (name in names && name != "" ==>
      && name in after
      && (name in before ==>
            && after[name].predictions == before[name].predictions + 1
            && 10.0 * (after[name].brierEma - before[name].brierEma) == brier - before[name].brierEma)
      && (name !in before ==> after[name].predictions == 1 && after[name].brierEma == brier))
    ensures !(name in names && name != "") ==> (name in after <==> name in before)
    ensures !(name in names && name != "") && name in before ==> after[name] == before[name]
  {
  }

  /**
   * What scoring a question does to its columns: of its unscored predictions of the arms baseline and
   * websearch the latest by time, then id, gets the squared distance to the outcome; nothing else changes.
   */
  lemma ScoringOnColumns(ps: PredictionTable, id: nat, pick: Option<nat>, outcome: bool)
    requires IsPick(ps, id, pick)
    ensures var after := ScoreAt(ps, pick, outcome);
      && after.Keys == ps.Keys
      && (forall j :: j in ps && pick != Some(j) ==> after[j] == ps[j])
      && (forall j :: j in ps && ps[j].question == id && ps[j].brier.None? && ps[j].arm in ["baseline", "websearch"] ==>
            && pick.Some? && pick.value in ps
            && (ps[j].createdAt < ps[pick.value].createdAt
                || (ps[j].createdAt == ps[pick.value].createdAt && j <= pick.value)))
      && (pick.Some? ==>
            && var k := pick.value;
            && k in ps && ps[k].question == id && ps[k].brier.None? && ps[k].arm in ["baseline", "websearch"]
            && after[k] == ps[k].(brier := after[k].brier) && after[k].brier.Some?
            && var miss := ps[k].probability - if outcome then 1.0 else 0.0;
            && after[k].brier.value == Times(miss, miss))
  {
    forall j | j in ps && ps[j].question == id && ps[j].brier.None? && ps[j].arm in ["baseline", "websearch"]
      ensures Candidate(ps, id, j)
    {
    }
  }

  // ----- What the tables keep -----

  /** Scores only on resolved questions, and each is the Brier score against the stored outcome. */
  ghost predicate ScoresMatch(qs: QuestionTable, ps: PredictionTable) {
    forall k :: k in ps ==>
      && ps[k].question in qs && 0.01 <= ps[k].probability <= 0.99
      && (ps[k].brier.Some? ==>
            && qs[ps[k].question].outcome.Some?
            && ps[k].brier.value == Brier(ps[k].probability, qs[ps[k].question].outcome.value))
  }

  /** At most one prediction per question is scored. */
  ghost predicate OneScored(ps: PredictionTable) {
    forall id, j, k :: IsScored(ps, id, j) && IsScored(ps, id, k) ==> j == k
  }

  /** A scored prediction belongs to the production arms and is the latest of them. */
  ghost predicate LatestScored(ps: PredictionTable) {
    forall j, k :: j in ps && k in ps && ps[k].brier.Some? && ps[j].question == ps[k].question && InArm(ps[j]) ==>
      InArm(ps[k]) && NotAfter(ps, j, k)
  }

  /** Each model is credited with exactly the scored predictions naming it. */
  ghost predicate Counted(ps: PredictionTable, stats: StatsTable) {
    forall name :: CountOf(stats, name) == if name == "" then 0 else |Naming(ps, name)|
  }

  ghost predicate Consistent(qs: QuestionTable, ps: PredictionTable, stats: StatsTable) {
    ScoresMatch(qs, ps) && OneScored(ps) && Counted(ps, stats)
  }

  /** Nothing resolved is reopened, changed or lost. */
  ghost predicate OutcomesKept(before: QuestionTable, after: QuestionTable) {
    forall id :: id in before ==>
      id in after && after[id].closesAt == before[id].closesAt
      && (before[id].outcome.Some? ==>
            after[id].outcome == before[id].outcome && after[id].resolutionSource == before[id].resolutionSource)
  }

  lemma {:induction false} OutcomesKeptTransitive(a: QuestionTable, b: QuestionTable, c: QuestionTable)
    requires OutcomesKept(a, b) && OutcomesKept(b, c)
    ensures OutcomesKept(a, c)
  {
  }

  function Resolved(q: Question, outcome: bool, source: string): Question {
    q.(outcome := Some(outcome), resolutionSource := Some(source))
  }

  // ----- Resolving an open question keeps the tables consistent -----

  lemma NamingGrows(ps: PredictionTable, pick: nat, outcome: bool, name: string)
    requires pick in ps && ps[pick].brier.None?
    ensures var after := Naming(ScoreAt(ps, Some(pick), outcome), name);
      if ps[pick].runs.Named? && name in ps[pick].runs.names
      then after == Naming(ps, name) + {pick} && |after| == |Naming(ps, name)| + 1
      else after == Naming(ps, name)
  {
    var after := Naming(ScoreAt(ps, Some(pick), outcome), name);
    if ps[pick].runs.Named? && name in ps[pick].runs.names {
      assert after == Naming(ps, name) + {pick};
      assert pick !in Naming(ps, name);
    } else {
      assert after == Naming(ps, name);
    }
  }

  lemma ScoredAfter(ps: PredictionTable, id: nat, pick: Option<nat>, outcome: bool, i: nat, j: nat)
    requires IsPick(ps, id, pick)
    ensures (IsScored(ScoreAt(ps, pick, outcome), i, j)
      <==> IsScored(ps, i, j) || (pick.Some? && i == id && j == pick.value))
  {
  }

  /** What model_stats must become when `pick` is the only scored row of its question. */
  ghost predicate StatsFollow(ps: PredictionTable, pick: Option<nat>, outcome: bool, before: StatsTable,
                              after: StatsTable)
    requires pick.Some? ==> pick.value in ps
  {
    if pick.Some? && ps[pick.value].runs.Named?
    then BumpedBy(before, after, ps[pick.value].runs.names, Brier(ps[pick.value].probability, outcome))
    else after == before
  }

  lemma ScoringKeepsCounts(ps: PredictionTable, id: nat, pick: Option<nat>, outcome: bool, before: StatsTable,
                           after: StatsTable)
    requires Counted(ps, before) && IsPick(ps, id, pick) && StatsFollow(ps, pick, outcome, before, after)
    ensures Counted(ScoreAt(ps, pick, outcome), after)
  {
    forall name ensures CountOf(after, name) == if name == "" then 0 else |Naming(ScoreAt(ps, pick, outcome), name)| {
      hide Naming;
      if pick.Some? {
        NamingGrows(ps, pick.value, outcome, name);
      }
      assert CountOf(before, name) == if name == "" then 0 else |Naming(ps, name)|;
    }
  }

  lemma ScoringKeepsMatch(qs: QuestionTable, ps: PredictionTable, id: nat, pick: Option<nat>, outcome: bool,
                          source: string)
    requires ScoresMatch(qs, ps) && id in qs && Open(qs[id]) && IsPick(ps, id, pick)
    ensures ScoresMatch(qs[id := Resolved(qs[id], outcome, source)], ScoreAt(ps, pick, outcome))
  {
  }

  /** Resolving an open question scores its latest production prediction and keeps every count. */
  lemma ResolvingKeepsConsistency(qs: QuestionTable, ps: PredictionTable, before: StatsTable, id: nat,
                                  pick: Option<nat>, outcome: bool, source: string, after: StatsTable)
    requires Consistent(qs, ps, before) && id in qs && Open(qs[id])
    requires IsPick(ps, id, pick) && StatsFollow(ps, pick, outcome, before, after)
    ensures Consistent(qs[id := Resolved(qs[id], outcome, source)], ScoreAt(ps, pick, outcome), after)
    ensures LatestScored(ps) ==> LatestScored(ScoreAt(ps, pick, outcome))
  {
    ScoringKeepsMatch(qs, ps, id, pick, outcome, source);
    ScoringKeepsCounts(ps, id, pick, outcome, before, after);
    assert forall k :: !IsScored(ps, id, k);
    ScoringKeepsOneScored(ps, id, pick, outcome);
    if LatestScored(ps) {
      ScoringKeepsLatest(ps, id, pick, outcome);
    }
  }

  lemma ScoringKeepsOneScored(ps: PredictionTable, id: nat, pick: Option<nat>, outcome: bool)
    requires OneScored(ps) && IsPick(ps, id, pick) && forall k :: !IsScored(ps, id, k)
    ensures OneScored(ScoreAt(ps, pick, outcome))
  {
    var after := ScoreAt(ps, pick, outcome);
    forall i, j, k | IsScored(after, i, j) && IsScored(after, i, k) ensures j == k {
      hide ScoreAt, IsPick, IsScored;
      ScoredAfter(ps, id, pick, outcome, i, j);
      ScoredAfter(ps, id, pick, outcome, i, k);
    }
  }

  lemma ScoringKeepsLatest(ps: PredictionTable, id: nat, pick: Option<nat>, outcome: bool)
    requires LatestScored(ps) && IsPick(ps, id, pick) && forall k :: !IsScored(ps, id, k)
    ensures LatestScored(ScoreAt(ps, pick, outcome))
  {
    var after := ScoreAt(ps, pick, outcome);
    forall j, k | j in after && k in after && after[k].brier.Some? && after[j].question == after[k].question
      && InArm(after[j])
      ensures InArm(after[k]) && NotAfter(after, j, k)
    {
      if pick == Some(k) {
        assert !IsScored(ps, id, j);
        assert Candidate(ps, id, j);
      }
    }
  }

  /** Late archiving: the outcome is stored and nothing is scored. */
  lemma ArchivingKeepsConsistency(qs: QuestionTable, ps: PredictionTable, stats: StatsTable, id: nat, outcome: bool,
                                  source: string)
    requires Consistent(qs, ps, stats) && id in qs && Open(qs[id])
    ensures Consistent(qs[id := Resolved(qs[id], outcome, source)], ps, stats)
  {
  }

  /**
   * Resolving a question a second time: a second prediction gets scored exactly when one was scored
   * before and another production prediction is left.  This is what the callers' guards prevent.
   */
  lemma ResolvingTwiceScoresTwice(ps: PredictionTable, id: nat, pick: Option<nat>, outcome: bool)
    requires OneScored(ps) && IsPick(ps, id, pick)
    ensures (OneScored(ScoreAt(ps, pick, outcome))
      <==> !((exists j :: IsScored(ps, id, j)) && (exists k :: Candidate(ps, id, k))))
  {
    var after := ScoreAt(ps, pick, outcome);
    if j :| IsScored(ps, id, j) {
      if pick.Some? {
        assert IsScored(after, id, j) && IsScored(after, id, pick.value);
      }
    } else {
      ScoringKeepsOneScored(ps, id, pick, outcome);
    }
  }

  /** A prediction on an open question leaves every guarantee in place. */
  lemma PredictingKeepsConsistency(qs: QuestionTable, ps: PredictionTable, stats: StatsTable, k: nat, p: Prediction)
    requires Consistent(qs, ps, stats) && k !in ps && p.question in qs && p.brier.None? && 0.01 <= p.probability <= 0.99
    ensures Consistent(qs, ps[k := p], stats)
    ensures LatestScored(ps) && Open(qs[p.question]) ==> LatestScored(ps[k := p])
  {
    forall name ensures Naming(ps[k := p], name) == Naming(ps, name) {
    }
    var after := ps[k := p];
    forall id, i, j | IsScored(after, id, i) && IsScored(after, id, j) ensures i == j {
      assert IsScored(ps, id, i) && IsScored(ps, id, j);
    }
  }

  // ----- The clock -----

  /** int(spec.get("grace_days", 3)), with 3 when that raises. */
  function GraceDays(g: Grace): int {
    match g
    case Absent => GRACE_DAYS
    case Days(n) => n
    case Quoted(n) => n
    case Malformed => GRACE_DAYS
  }

  predicate Automatic(s: Spec) { s.cls == Some("A") || s.cls == Some("B") }

  /** The timeout test of resolve_round on a question it lists. */
  predicate TimedOut(q: Question, now: int) {
    q.cell.Readable? && Automatic(q.cell.spec) && now > q.closesAt + GraceDays(q.cell.spec.grace) * DAY
  }

  /** What ops_backlog counts in SQL: COALESCE(TRY_CAST(grace_days AS INTEGER), 3) days after closing. */
  predicate PastGrace(q: Question, now: int) {
    Due(q, now) && q.cell.Readable? && q.cell.spec.cls.Some? && q.cell.spec.cls.value in ["A", "B"]
    && now > q.closesAt + (match q.cell.spec.grace case Days(n) => n case Quoted(n) => n case _ => 3) * DAY
  }

  function DegradeTarget(s: Spec): string {
    if s.degradeTo.Some? && s.degradeTo.value != "" then s.degradeTo.value else "C"
  }

  function Degraded(q: Question): Question
    requires q.cell.Readable?
  {
    var target := DegradeTarget(q.cell.spec);
    q.(resolutionClass := Some(target), cell := Readable(q.cell.spec.(cls := Some(target))))
  }

  function AfterTimeout(q: Question, now: int): Question {
    if Due(q, now) && TimedOut(q, now) then Degraded(q) else q
  }

  const SHANGHAI := "Asia/Shanghai"

  function WindowLow(q: Question, s: Spec): int {
    if s.closeTimezone != Some(SHANGHAI) then q.closesAt + DAY else q.closesAt
  }

  predicate InWindow(q: Question, s: Spec, now: int) { WindowLow(q, s) <= now < WindowLow(q, s) + DAY }

  /** timedelta(days=...) takes a number only. */
  predicate GraceIsNumber(g: Grace) { g.Absent? || g.Days? }

  /** MarketResolver.resolve goes on to look at quotes. */
  predicate LooksAtQuotes(q: Question, s: Spec, now: int) {
    && q.closesAt <= now && GraceIsNumber(s.grace) && now <= q.closesAt + GraceDays(s.grace) * DAY
         && InWindow(q, s, now)
  }

  /** Days of grace that cover the verdict window. */
  predicate GraceCovers(s: Spec) {
    GraceIsNumber(s.grace) && GraceDays(s.grace) >= if s.closeTimezone == Some(SHANGHAI) then 1 else 2
  }

  /** Quotes can be looked at anywhere in the window, before any timeout, exactly with enough grace. */
  lemma WindowBeforeTimeout(q: Question, s: Spec)
    requires q.cell == Readable(s) && s.cls == Some("A")
    ensures (forall now :: InWindow(q, s, now) ==> LooksAtQuotes(q, s, now) && !TimedOut(q, now)) <==> GraceCovers(s)
  {
    if !GraceCovers(s) {
      assert InWindow(q, s, WindowLow(q, s) + DAY - 1);
    }
  }

  /** Rounds a day apart meet a one-day window exactly once. */
  lemma OneRoundInWindow(start: int, low: int, n: nat) returns (k: nat)
    requires start <= low <= start + n * DAY
    ensures k <= n && low <= start + k * DAY < low + DAY
    ensures forall j: nat :: low <= start + j * DAY < low + DAY ==> j == k
  {
    k := (low - start + DAY - 1) / DAY;
  }

  // ----- What the log says about the window -----

  datatype Reason = SpecBroken | Waiting | Passed | Undecidable | ResolverRaised

  predicate StatesTimezone(s: Spec) { s.closeTimezone.Some? && s.closeTimezone.value != "" }

  /** The reason auto_resolve logs for a question its resolver left undecided. */
  function LoggedReason(q: Question, s: Spec, now: int): Reason {
    var low := if StatesTimezone(s) && s.closeTimezone.value != SHANGHAI
               then q.closesAt + DAY else q.closesAt;
    if now < low then Waiting else if now >= low + DAY then Passed else Undecidable
  }

  /** The reason logged for a question whose spec is broken or whose resolver gave no verdict. */
  function FailureReason(q: Question, now: int): Reason {
    if !q.cell.Readable? then SpecBroken
    else if q.cell.spec.cls == Some("A") && !GraceIsNumber(q.cell.spec.grace) then ResolverRaised
    else LoggedReason(q, q.cell.spec, now)
  }

  ghost predicate ReasonsMatchWindow(q: Question, s: Spec) {
    forall now :: LoggedReason(q, s, now) ==
      if now < WindowLow(q, s) then Waiting else if InWindow(q, s, now) then Undecidable else Passed
  }

  /** The log and the market resolver agree on its window exactly when the spec states a time zone. */
  lemma ReasonsMatchWithTimezone(q: Question, s: Spec)
    ensures ReasonsMatchWindow(q, s) <==> StatesTimezone(s)
  {
    if !StatesTimezone(s) {
      assert LoggedReason(q, s, q.closesAt) == Undecidable && WindowLow(q, s) == q.closesAt + DAY;
    }
  }

  /** The time rule of a question's resolver: the verdict window of class A, the grace period of class B. */
  predicate MayDecide(q: Question, s: Spec, now: int) {
    if s.cls == Some("A") then InWindow(q, s, now)
    else if s.cls == Some("B") then q.closesAt <= now <= q.closesAt + GraceDays(s.grace) * DAY
    else false
  }

  /** The resolver goes on to look at quotes or to ask the language model. */
  predicate TriesToDecide(q: Question, s: Spec, now: int) {
    if s.cls == Some("A") then LooksAtQuotes(q, s, now) else MayDecide(q, s, now)
  }

  /** Once closed, "undecidable" is logged exactly when a verdict was possible, and after "passed" none ever is. */
  ghost predicate ReasonsMatch(closesAt: int, reason: int -> Reason, possible: int -> bool) {
    && (forall now :: now >= closesAt ==> (reason(now) == Undecidable <==> possible(now)))
    && (forall now, later :: closesAt <= now <= later && reason(now) == Passed ==> !possible(later))
  }

  /** The one day of the log is never the grace period of class B, which includes both of its ends. */
  lemma DayIsNoGracePeriod(q: Question, s: Spec, reason: int -> Reason, possible: int -> bool)
    requires forall now :: reason(now) == LoggedReason(q, s, now)
    requires forall now :: possible(now) <==> q.closesAt <= now <= q.closesAt + GraceDays(s.grace) * DAY
    ensures !ReasonsMatch(q.closesAt, reason, possible)
  {
    var low := if StatesTimezone(s) && s.closeTimezone.value != SHANGHAI then q.closesAt + DAY else q.closesAt;
    assert reason(low) == Undecidable && reason(low + DAY - 1) == Undecidable && reason(low + DAY) == Passed;
    assert low > q.closesAt ==> reason(q.closesAt) == Waiting;
    assert possible(low + DAY - 1) ==> possible(q.closesAt) && possible(low + DAY);
  }

  /** What is logged fits the resolver's time rule exactly for class A questions that state a time zone. */
  lemma ReasonsMatchExactlyForClassA(q: Question, s: Spec)
    requires Automatic(s)
    ensures (ReasonsMatch(q.closesAt, now => LoggedReason(q, s, now), now => MayDecide(q, s, now))
      <==> s.cls == Some("A") && StatesTimezone(s))
  {
    var reason, possible := now => LoggedReason(q, s, now), now => MayDecide(q, s, now);
    if s.cls == Some("B") {
      DayIsNoGracePeriod(q, s, reason, possible);
    } else if !StatesTimezone(s) {
      assert reason(q.closesAt) == Undecidable && !possible(q.closesAt);
    }
  }

  /** With the grace period counted in, it also has to cover the window; a grace that is no number is logged as such. */
  lemma ReasonsMatchExactlyWithGrace(q: Question, s: Spec)
    requires q.cell == Readable(s) && Automatic(s)
    ensures (ReasonsMatch(q.closesAt, now => FailureReason(q, now), now => TriesToDecide(q, s, now))
      <==> s.cls == Some("A") && (GraceIsNumber(s.grace) ==> StatesTimezone(s) && GraceCovers(s)))
  {
    var reason, possible := now => FailureReason(q, now), now => TriesToDecide(q, s, now);
    if s.cls == Some("B") {
      DayIsNoGracePeriod(q, s, reason, possible);
    } else if GraceIsNumber(s.grace) {
      if !StatesTimezone(s) {
        assert reason(q.closesAt) == Undecidable && !possible(q.closesAt);
      } else if !GraceCovers(s) {
        var last := WindowLow(q, s) + DAY - 1;
        assert last >= q.closesAt && reason(last) == Undecidable && !possible(last);
      }
    }
  }

  /**
   * Class B questions, with a time zone or without: two days after closing the log says the window has
   * passed, although the resolver may decide then and for another day.
   */
  lemma ClassBLogMisleads(q: Question, source: Option<string>, zone: Option<string>, degradeTo: Option<string>,
                          details: string)
    requires q.cell == Readable(Spec(Some("B"), source, zone, Absent, degradeTo, details))
    ensures var s, now := q.cell.spec, q.closesAt + 2 * DAY;
      && FailureReason(q, now) == Passed && MayDecide(q, s, now) && MayDecide(q, s, now + DAY)
      && !TimedOut(q, now) && !TimedOut(q, now + DAY)
      && (zone == Some("America/New_York") ==> ReasonsMatchWindow(q, s))
  {
  }

  // ----- The backlog -----

  /**
   * The two places that test the grace period agree, so a degraded question leaves the backlog unless
   * degraded to A or B.
   */
  lemma DegradingEmptiesBacklog(q: Question, now: int)
    ensures PastGrace(q, now) <==> Due(q, now) && TimedOut(q, now)
    ensures (PastGrace(AfterTimeout(q, now), now)
      <==> PastGrace(q, now) && (DegradeTarget(q.cell.spec) == "A" || DegradeTarget(q.cell.spec) == "B"))
  {
  }
}
