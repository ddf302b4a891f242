/**
 * The writing operations of src/predictor/data/storage.py on questions, predictions and model_stats.
 * Tables are maps; a clock reading of the database is a parameter.
 */
module QuestionStore {
  import opened Probability
  import opened Wrappers
  import opened Questions

  datatype Event =
    | ResolutionOk(okId: nat)
    | ResolutionFailed(failedId: nat, reason: Reason)
    | SkippedPolymarket(skippedId: nat)
    | BrierFailed(brierId: nat)
    | TimedOutEvent(timedOutId: nat)
    | ArchivedEvent(archivedId: nat)
    | Guarded(guardedId: nat)
    | RefreshFailed

  datatype LogKind = OkKind | FailedKind | TimeoutKind | ArchivedKind | OtherKind

  function KindOf(e: Event): LogKind {
    match e
    case ResolutionOk(_) => OkKind
    case ResolutionFailed(_, _) => FailedKind
    case TimedOutEvent(_) => TimeoutKind
    case ArchivedEvent(_) => ArchivedKind
    case _ => OtherKind
  }

  function Count(log: seq<Event>, k: LogKind): nat {
    if log == [] then 0 else Count(log[..|log|-1], k) + if KindOf(log[|log|-1]) == k then 1 else 0
  }

  lemma CountAppend(log: seq<Event>, e: Event)
    ensures forall k :: Count(log + [e], k) == Count(log, k) + if KindOf(e) == k then 1 else 0
  {
    assert (log + [e])[..|log|] == log;
  }

  /** Nothing was logged but events that no round counts. */
  ghost predicate SameCounts(before: seq<Event>, after: seq<Event>) {
    forall k :: k != OtherKind ==> Count(after, k) == Count(before, k)
  }

  /** What scoring `pick` logs: a complaint when its model_runs are not a JSON object. */
  function Trouble(ps: PredictionTable, pick: Option<nat>, id: nat): seq<Event>
    requires pick.Some? ==> pick.value in ps
  {
    if pick.Some? && ps[pick.value].runs.Broken? then [BrierFailed(id)] else []
  }

  /** Rows of a query without ORDER BY: each once, in some order. */
  method Rows(ids: set<nat>) returns (rows: seq<nat>)
    ensures IsOrderOf(rows, ids) && |rows| == |ids|
  {
    rows := [];
    var rest := ids;
    while rest != {}
      invariant rest <= ids && |rows| + |rest| == |ids| && forall i :: 0 <= i < |rows| ==> rows[i] !in rest
      invariant forall i, j :: 0 <= i < j < |rows| ==> rows[i] != rows[j]
      invariant forall id :: id in rows <==> id in ids - rest
      decreases |rest|
    {
      var id: nat :| id in rest;
      rows, rest := rows + [id], rest - {id};
    }
  }

  lemma NoRowsYet(stats: StatsTable, ps: PredictionTable)
    ensures !HasBroken(ps, []) && CreditInOrder(stats, ps, []) == stats
  {
  }

  lemma OneMoreRow(stats: StatsTable, ps: PredictionTable, rows: seq<nat>, i: nat)
    requires ScoredRows(ps, rows) && i < |rows| && !HasBroken(ps, rows[..i]) && ps[rows[i]].runs.Named?
    ensures !HasBroken(ps, rows[..i+1])
    ensures CreditInOrder(stats, ps, rows[..i+1])
      == BumpAll(CreditInOrder(stats, ps, rows[..i]), ps[rows[i]].runs.names, ps[rows[i]].brier.value)
  {
    hide BumpAll;
    assert rows[..i+1][..i] == rows[..i];
    var some := rows[..i+1];
    forall j | 0 <= j < |some| ensures ps[some[j]].runs.Named? {
      assert j < i ==> rows[..i][j] == some[j];
    }
  }

  /**
   * The scored rows of the question, in the order the database returned them, were credited one after
   * the other up to the first that is not a JSON object, and that one was logged.
   */
  ghost predicate Credited(ps: PredictionTable, id: nat, rows: seq<nat>, stats: StatsTable, statsAfter: StatsTable,
                           log: seq<Event>, logAfter: seq<Event>) {
    && IsOrderOf(rows, ScoredOn(ps, id)) && ScoredRows(ps, rows)
    && statsAfter == CreditInOrder(stats, ps, rows)
    && logAfter == log + if HasBroken(ps, rows) then [BrierFailed(id)] else []
  }

  /** Nothing was logged but rejected verdicts of the language model. */
  ghost predicate OnlyGuarded(before: seq<Event>, after: seq<Event>) {
    before <= after && forall i :: |before| <= i < |after| ==> after[i].Guarded?
  }

  class Storage {
    var questions: QuestionTable
    var predictions: PredictionTable
    var modelStats: StatsTable
    var log: seq<Event>
    var nextQuestion: nat
    var nextPrediction: nat

    ghost predicate Valid()
      reads this
    {
      && Consistent(questions, predictions, modelStats)
      && (forall id :: id in questions ==> id < nextQuestion)
      && (forall id :: id in predictions ==> id < nextPrediction)
    }

    constructor ()
      ensures Valid() && questions == map[] && predictions == map[] && LatestScored(predictions)
    {
      questions, predictions, modelStats, log := map[], map[], map[], [];
      nextQuestion, nextPrediction := 1, 1;
      new;
      assert forall name :: Naming(predictions, name) == {};
    }

    method AddQuestion(closesAt: int, resolutionClass: Option<string>, spec: Option<Spec>) returns (id: nat)
      requires Valid()
      modifies this`questions, this`nextQuestion
      ensures Valid() && id !in old(questions)
      ensures questions == old(questions)[id :=
        Question(closesAt, None, None, resolutionClass, CellOf(spec))]
    {
      id := nextQuestion;
      nextQuestion := nextQuestion + 1;
      questions := questions[id := Question(closesAt, None, None, resolutionClass, CellOf(spec))];
    }

    /** An unscored prediction, its probability clamped; Err when there is no evidence. */
    method AddPrediction(question: nat, probability: real, evidence: seq<nat>, names: set<string>, arm: string,
                         clock: int)
      returns (r: Result<nat>)
      requires Valid() && question in questions
      modifies this`predictions, this`nextPrediction
      ensures Valid() && (r.Err? <==> evidence == [])
      ensures r.Err? ==> predictions == old(predictions)
      ensures (r.Ok? ==>
        && r.value !in old(predictions)
        && predictions == old(predictions)[r.value := Prediction(question, Clamp(probability), None, Named(names),
             arm, clock)])
      ensures old(LatestScored(predictions)) && Open(questions[question]) ==> LatestScored(predictions)
    {
      if evidence == [] {
        return Err("evidence_ids must not be empty");
      }
      var p := Prediction(question, Clamp(probability), None, Named(names), arm, clock);
      PredictingKeepsConsistency(questions, predictions, modelStats, nextPrediction, p);
      predictions := predictions[nextPrediction := p];
      r := Ok(nextPrediction);
      nextPrediction := nextPrediction + 1;
    }

    method SetResolution(id: nat, cls: string, spec: Option<Spec>)
      requires Valid()
      modifies this`questions
      ensures Valid() && OutcomesKept(old(questions), questions)
      ensures (questions == if id !in old(questions) then old(questions) else
        old(questions)[id := old(questions)[id].(resolutionClass := Some(cls), cell := CellOf(spec))])
    {
      if id in questions {
        questions := questions[id := questions[id].(resolutionClass := Some(cls), cell := CellOf(spec))];
      }
    }

    /** The row chosen by ORDER BY created_at DESC, id DESC LIMIT 1 among the unscored production predictions. */
    method LatestUnscored(id: nat) returns (pick: Option<nat>)
      ensures IsPick(predictions, id, pick)
    {
      pick := None;
      var rows := Rows(predictions.Keys);
      for i := 0 to |rows|
        invariant pick.Some? ==> Candidate(predictions, id, pick.value)
        invariant forall j :: 0 <= j < i && Candidate(predictions, id, rows[j]) ==>
          pick.Some? && NotAfter(predictions, rows[j], pick.value)
      {
        if Candidate(predictions, id, rows[i]) && (pick.None? || !NotAfter(predictions, rows[i], pick.value)) {
          pick := Some(rows[i]);
        }
      }
      forall k | Candidate(predictions, id, k) ensures pick.Some? && NotAfter(predictions, k, pick.value) {
        assert k in rows;
      }
    }

    /** Credit every named model with one score. */
    method CreditModels(names: set<string>, brier: real)
      modifies this`modelStats
      ensures BumpedBy(old(modelStats), modelStats, names, brier)
    {
      var rest := names;
      while rest != {}
        invariant rest <= names
        invariant BumpedBy(old(modelStats), modelStats, names - rest, brier)
        decreases |rest|
      {
        var name :| name in rest;
        rest := rest - {name};
        if name != "" {
          modelStats := modelStats[name := Bump(modelStats, name, brier)];
        }
      }
      assert names - rest == names;
    }

    /**
     * resolve_question: store the outcome, then, unless the question is archived for being more than
     * seven days late, score its latest unscored production prediction and credit the models of
     * every scored row.  Whatever fails while scoring is logged.
     */
    method ResolveQuestion(id: nat, outcome: bool, source: string, forceScore: bool, clock: int)
      returns (ghost pick: Option<nat>, ghost archived: bool, ghost order: seq<nat>)
      requires Valid()
      modifies this`questions, this`predictions, this`modelStats, this`log
      ensures archived <==> !forceScore && id in old(questions) && clock - old(questions)[id].closesAt > 7 * DAY
      ensures IsPick(old(predictions), id, pick)
      ensures (questions == if id !in old(questions) then old(questions) else
        old(questions)[id := Resolved(old(questions)[id], outcome, source)])
      ensures predictions == if archived then old(predictions) else ScoreAt(old(predictions), pick, outcome)
      ensures (id in old(questions) && Open(old(questions)[id]) ==>
        && Valid() && (old(LatestScored(predictions)) ==> LatestScored(predictions))
        && (archived ==> modelStats == old(modelStats) && log == old(log))
        && (!archived ==>
              && StatsFollow(old(predictions), pick, outcome, old(modelStats), modelStats)
              && log == old(log) + Trouble(old(predictions), pick, id)))
      ensures (!archived && AllNamed(predictions, id) ==>
        CreditedFor(predictions, id, ScoredOn(predictions, id), old(modelStats), modelStats))
      ensures archived ==> modelStats == old(modelStats) && log == old(log)
      ensures !archived ==> Credited(predictions, id, order, old(modelStats), modelStats, old(log), log)
      ensures SameCounts(old(log), log)
    {
      order := [];
      archived := !forceScore && id in questions && clock - questions[id].closesAt > 7 * DAY;
      ghost var unscored := id in questions && Open(questions[id]);
      if unscored {
        ArchivingKeepsConsistency(questions, predictions, modelStats, id, outcome, source);
        assert forall k :: !IsScored(predictions, id, k);
      }
      var chosen := LatestUnscored(id);
      pick := chosen;
      if id in questions {
        questions := questions[id := Resolved(questions[id], outcome, source)];
      }
      if !forceScore && id in questions && clock - questions[id].closesAt > 7 * DAY {
        return;
      }
      if chosen.Some? {
        var p := predictions[chosen.value];
        predictions := predictions[chosen.value := p.(brier := Some(Brier(p.probability, outcome)))];
      }
      assert predictions == ScoreAt(old(predictions), pick, outcome);
      order := CreditRows(id, unscored, old(predictions), pick, outcome);
      if unscored {
        ResolvingKeepsConsistency(old(questions), old(predictions), old(modelStats), id, pick, outcome, source,
          modelStats);
      }
    }

    /** Credit the models of each scored row of the question, until one row is not a JSON object. */
    method CreditRows(id: nat, ghost unscored: bool, ghost was: PredictionTable, ghost pick: Option<nat>,
                      ghost outcome: bool)
      returns (ghost order: seq<nat>)
      requires IsPick(was, id, pick) && predictions == ScoreAt(was, pick, outcome)
      requires unscored ==> forall k :: !IsScored(was, id, k)
      modifies this`modelStats, this`log
      ensures unscored ==> StatsFollow(was, pick, outcome, old(modelStats), modelStats)
      ensures unscored ==> log == old(log) + Trouble(was, pick, id)
      ensures (AllNamed(predictions, id) ==>
        CreditedFor(predictions, id, ScoredOn(predictions, id), old(modelStats), modelStats))
      ensures Credited(predictions, id, order, old(modelStats), modelStats, old(log), log)
      ensures SameCounts(old(log), log)
    {
      hide CreditedFor, NamingOn, BumpedBy, Count, CreditInOrder, BumpAll, HasBroken;
      var scored := set k | k in predictions && IsScored(predictions, id, k);
      var rows := Rows(scored);
      if unscored {
        forall k: nat ensures k in scored <==> pick == Some(k) {
          ScoredAfter(was, id, pick, outcome, id, k);
        }
        assert scored == if pick.Some? then {pick.value} else {};
      }
      order := rows;
      assert forall j :: 0 <= j < |rows| ==> rows[j] in rows;
      var i := 0;
      ghost var done: set<nat> := {};
      CreditNothing(predictions, id, modelStats);
      NoRowsYet(modelStats, predictions);
      while i < |rows|
        invariant 0 <= i <= |rows| && log == old(log)
        invariant done <= scored && forall j :: 0 <= j < |rows| ==> (rows[j] in done <==> j < i)
        invariant CreditedFor(predictions, id, done, old(modelStats), modelStats)
        invariant !HasBroken(predictions, rows[..i])
        invariant modelStats == CreditInOrder(old(modelStats), predictions, rows[..i])
        invariant unscored && i == 0 ==> modelStats == old(modelStats)
        invariant (unscored && i == 1 ==>
          StatsFollow(was, pick, outcome, old(modelStats), modelStats) && Trouble(was, pick, id) == [])
      {
        var k := rows[i];
        assert k in rows;
        match predictions[k].runs {
          case Broken =>
            BrokenRowEndsCredit(modelStats, predictions, rows, i);
            BrokenRowEndsCredit(old(modelStats), predictions, rows, i);
            log := log + [BrierFailed(id)];
            CountAppend(old(log), BrierFailed(id));
            return;
          case Named(names) =>
            ghost var before := modelStats;
            CreditModels(names, predictions[k].brier.value);
            CreditOneMore(predictions, id, done, k, old(modelStats), before, modelStats);
            BumpedByIsBumpAll(before, modelStats, names, predictions[k].brier.value);
            OneMoreRow(old(modelStats), predictions, rows, i);
        }
        done := done + {k};
        i := i + 1;
      }
      assert rows[..i] == rows;
      assert done == ScoredOn(predictions, id) by {
        assert forall x :: x in scored ==> x in rows;
      }
    }
  }
}
