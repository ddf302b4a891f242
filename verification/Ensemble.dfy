/**
 * Weighted median of the runs (src/predictor/inference/ensemble.py) and the chain
 * ensemble, extremize, calibrate of src/predictor/pipeline.py.
 */
module Ensemble {
  import opened Calibrator
  import opened Probability
  import opened Wrappers

  /** A probability with its weight. */
  type Weighted = (real, real)

  // ----- Weights around a point -----

  function Total(ps: seq<Weighted>): real {
    if ps == [] then 0.0 else Total(ps[..|ps|-1]) + ps[|ps|-1].1
  }

  /** Weight strictly below t. */
  function Below(ps: seq<Weighted>, t: real): real {
    if ps == [] then 0.0
    else Below(ps[..|ps|-1], t) + if ps[|ps|-1].0 < t then ps[|ps|-1].1 else 0.0
  }

  /** Weight at or below t. */
  function UpTo(ps: seq<Weighted>, t: real): real {
    if ps == [] then 0.0
    else UpTo(ps[..|ps|-1], t) + if ps[|ps|-1].0 <= t then ps[|ps|-1].1 else 0.0
  }

  ghost predicate PositiveWeights(ps: seq<Weighted>) {
    forall i :: 0 <= i < |ps| ==> ps[i].1 > 0.0
  }

  ghost predicate HasValue(ps: seq<Weighted>, m: real) {
    exists i :: 0 <= i < |ps| && ps[i].0 == m
  }

  /** m is one of the values, under half the weight is below it, at least half up to it. */
  ghost predicate IsLowerMedian(ps: seq<Weighted>, m: real) {
    && HasValue(ps, m)
    && Below(ps, m) < Total(ps) / 2.0 <= UpTo(ps, m)
  }

  lemma {:induction false} BelowUpTo(ps: seq<Weighted>, s: real, t: real)
    requires PositiveWeights(ps) && s < t
    ensures 0.0 <= Below(ps, s) <= UpTo(ps, s) <= Below(ps, t) <= Total(ps)
  {
    if ps != [] {
      BelowUpTo(ps[..|ps|-1], s, t);
    }
  }

  // ----- Sorting -----

  /** Python's order on (float, float) pairs. */
  predicate PairLeq(a: Weighted, b: Weighted) {
    a.0 < b.0 || (a.0 == b.0 && a.1 <= b.1)
  }

  predicate SortedPairs(ps: seq<Weighted>) {
    forall i, j :: 0 <= i < j < |ps| ==> PairLeq(ps[i], ps[j])
  }

  function InsertPair(ps: seq<Weighted>, p: Weighted): seq<Weighted> {
    if ps == [] || PairLeq(ps[|ps|-1], p) then ps + [p]
    else InsertPair(ps[..|ps|-1], p) + [ps[|ps|-1]]
  }

  function SortPairs(ps: seq<Weighted>): seq<Weighted> {
    if ps == [] then [] else InsertPair(SortPairs(ps[..|ps|-1]), ps[|ps|-1])
  }

  lemma {:induction false} InsertPairElements(ps: seq<Weighted>, p: Weighted)
    ensures multiset(InsertPair(ps, p)) == multiset(ps) + multiset{p}
  {
    if ps != [] {
      assert ps == ps[..|ps|-1] + [ps[|ps|-1]];
      if !PairLeq(ps[|ps|-1], p) {
        InsertPairElements(ps[..|ps|-1], p);
      }
    }
  }

  ghost predicate AllLeq(ps: seq<Weighted>, b: Weighted) {
    forall i :: 0 <= i < |ps| ==> PairLeq(ps[i], b)
  }

  lemma {:induction false} InsertPairBounded(ps: seq<Weighted>, p: Weighted, b: Weighted)
    requires AllLeq(ps, b) && PairLeq(p, b)
    ensures AllLeq(InsertPair(ps, p), b)
  {
    if ps != [] && !PairLeq(ps[|ps|-1], p) {
      InsertPairBounded(ps[..|ps|-1], p, b);
    }
  }

  lemma {:induction false} InsertPairSorted(ps: seq<Weighted>, p: Weighted)
    requires SortedPairs(ps)
    ensures SortedPairs(InsertPair(ps, p))
  {
    if ps != [] {
      var init, last := ps[..|ps|-1], ps[|ps|-1];
      if PairLeq(last, p) {
        assert AllLeq(ps, p);
      } else {
        InsertPairSorted(init, p);
        InsertPairBounded(init, p, last);
        assert AllLeq(InsertPair(init, p), last);
      }
    }
  }

  lemma {:induction false} InsertPairWeights(ps: seq<Weighted>, p: Weighted, t: real)
    ensures Total(InsertPair(ps, p)) == Total(ps) + p.1
    ensures Below(InsertPair(ps, p), t) == Below(ps, t) + if p.0 < t then p.1 else 0.0
    ensures UpTo(InsertPair(ps, p), t) == UpTo(ps, t) + if p.0 <= t then p.1 else 0.0
  {
    if ps != [] && !PairLeq(ps[|ps|-1], p) {
      InsertPairWeights(ps[..|ps|-1], p, t);
    }
  }

  lemma {:induction false} SortPairsIsASort(ps: seq<Weighted>)
    ensures SortedPairs(SortPairs(ps)) && multiset(SortPairs(ps)) == multiset(ps)
  {
    if ps != [] {
      var init, p := ps[..|ps|-1], ps[|ps|-1];
      SortPairsIsASort(init);
      InsertPairSorted(SortPairs(init), p);
      InsertPairElements(SortPairs(init), p);
      assert ps == init + [p];
    }
  }

  lemma {:induction false} SortPairsWeights(ps: seq<Weighted>, t: real)
    ensures Total(SortPairs(ps)) == Total(ps)
    ensures Below(SortPairs(ps), t) == Below(ps, t)
    ensures UpTo(SortPairs(ps), t) == UpTo(ps, t)
  {
    if ps != [] {
      SortPairsWeights(ps[..|ps|-1], t);
      InsertPairWeights(SortPairs(ps[..|ps|-1]), ps[|ps|-1], t);
    }
  }

  /** In sorted pairs, what precedes position k bounds the weight below it, and what follows is above. */
  lemma {:induction false} SortedWeights(ps: seq<Weighted>, k: nat)
    requires SortedPairs(ps) && PositiveWeights(ps) && k < |ps|
    ensures Below(ps, ps[k].0) <= Total(ps[..k])
    ensures Total(ps[..k+1]) <= UpTo(ps, ps[k].0)
  {
    var last := |ps| - 1;
    var init := ps[..last];
    var m := ps[k].0;
    if k == last {
      assert ps[..k+1] == ps;
      AllUpTo(ps, m);
      BelowUpTo(init, m, m + 1.0);
      AllUpTo(init, m);
    } else {
      SortedWeights(init, k);
      assert init[..k] == ps[..k] && init[..k+1] == ps[..k+1] && init[k] == ps[k];
      assert PairLeq(ps[k], ps[last]);
    }
  }

  lemma {:induction false} AllUpTo(ps: seq<Weighted>, m: real)
    requires forall i :: 0 <= i < |ps| ==> ps[i].0 <= m
    ensures UpTo(ps, m) == Total(ps)
  {
    if ps != [] {
      AllUpTo(ps[..|ps|-1], m);
    }
  }

  lemma SameElements(a: seq<Weighted>, b: seq<Weighted>, i: nat)
    requires multiset(a) == multiset(b) && i < |a|
    ensures exists j :: 0 <= j < |b| && b[j] == a[i]
  {
    assert a[i] in multiset(a);
    assert a[i] in b;
  }

  // ----- The median -----

  /**
   * _weighted_median.  An empty list raises.  With a negative total the scan can run through
   * and the last value is returned; positive weights always stop it at the lower median.
   */
  method WeightedMedian(pairs: seq<Weighted>) returns (r: Result<real>)
    ensures r.Err? <==> pairs == []
    ensures pairs != [] && PositiveWeights(pairs) ==> IsLowerMedian(pairs, r.value)
    ensures pairs != [] ==> HasValue(pairs, r.value)
  {
    hide SortPairs, Total, HasValue, IsLowerMedian, PositiveWeights;
    var sorted := SortPairs(pairs);
    SortFacts(pairs);
    TotalNone(sorted);
    var total := Sum(sorted);
    var acc := 0.0;
    for i := 0 to |sorted|
      invariant acc == Total(sorted[..i])
      invariant i == 0 || acc < total / 2.0
    {
      TotalTake(sorted, i);
      acc := acc + sorted[i].1;
      if acc >= total / 2.0 {
        assert HasValue(pairs, sorted[i].0);
        if PositiveWeights(pairs) {
          StopIsMedian(pairs, i);
        }
        return Ok(sorted[i].0);
      }
    }
    assert sorted[..|sorted|] == sorted;
    if sorted == [] {
      return Err("list index out of range");
    }
    assert HasValue(pairs, sorted[|sorted|-1].0);
    if PositiveWeights(pairs) {
      TotalPositive(sorted);
      assert false;
    }
    r := Ok(sorted[|sorted|-1].0);
  }

  lemma TotalNone(ps: seq<Weighted>)
    ensures Total(ps[..0]) == 0.0
  {
  }

  lemma TotalTake(ps: seq<Weighted>, i: nat)
    requires i < |ps|
    ensures Total(ps[..i+1]) == Total(ps[..i]) + ps[i].1
  {
    assert ps[..i+1][..i] == ps[..i];
  }

  method Sum(ps: seq<Weighted>) returns (total: real)
    ensures total == Total(ps)
  {
    total := 0.0;
    for i := 0 to |ps|
      invariant total == Total(ps[..i])
    {
      assert ps[..i+1][..i] == ps[..i];
      total := total + ps[i].1;
    }
    assert ps[..|ps|] == ps;
  }

  lemma SortFacts(pairs: seq<Weighted>)
    ensures |SortPairs(pairs)| == |pairs|
    ensures PositiveWeights(pairs) ==> PositiveWeights(SortPairs(pairs))
    ensures forall k :: 0 <= k < |pairs| ==> HasValue(pairs, SortPairs(pairs)[k].0)
  {
    var s := SortPairs(pairs);
    SortPairsIsASort(pairs);
    assert |multiset(pairs)| == |pairs| && |multiset(s)| == |s|;
    forall k | 0 <= k < |s| ensures HasValue(pairs, s[k].0) && (PositiveWeights(pairs) ==> s[k].1 > 0.0) {
      SameElements(s, pairs, k);
    }
  }

  /** The first position whose running weight reaches half the total holds the lower median. */
  lemma StopIsMedian(pairs: seq<Weighted>, k: nat)
    requires PositiveWeights(pairs) && k < |SortPairs(pairs)|
    requires var s := SortPairs(pairs);
             Total(s[..k+1]) >= Total(s) / 2.0 && (k == 0 || Total(s[..k]) < Total(s) / 2.0)
    ensures IsLowerMedian(pairs, SortPairs(pairs)[k].0)
  {
    var s := SortPairs(pairs);
    var m := s[k].0;
    SortPairsIsASort(pairs);
    SortPairsWeights(pairs, m);
    SortFacts(pairs);
    SortedWeights(s, k);
    TotalPositive(s);
    assert Total(s[..0]) == 0.0;
  }

  lemma {:induction false} TotalPositive(ps: seq<Weighted>)
    requires PositiveWeights(ps) && ps != []
    ensures Total(ps) > 0.0
  {
    if |ps| > 1 {
      TotalPositive(ps[..|ps|-1]);
    }
  }

  // ----- The median minimises the weighted absolute deviation -----

  function Abs(x: real): real {
    if x < 0.0 then -x else x
  }

  function Scale(a: real, b: real): real {
    a * b
  }

  function Deviation(ps: seq<Weighted>, t: real): real {
    if ps == [] then 0.0
    else Deviation(ps[..|ps|-1], t) + Scale(ps[|ps|-1].1, Abs(ps[|ps|-1].0 - t))
  }

  lemma ScaleMono(w: real, a: real, b: real)
    requires w > 0.0 && a <= b
    ensures Scale(w, a) <= Scale(w, b)
  {
  }

  lemma {:induction false} DeviationRight(ps: seq<Weighted>, m: real, d: real)
    requires PositiveWeights(ps) && d >= 0.0
    ensures Deviation(ps, m + d) - Deviation(ps, m) >= Scale(2.0 * UpTo(ps, m) - Total(ps), d)
  {
    if ps != [] {
      var init, p := ps[..|ps|-1], ps[|ps|-1];
      DeviationRight(init, m, d);
      hide Scale;
      var gain := if p.0 <= m then d else -d;
      ScaleMono(p.1, Abs(p.0 - m) + gain, Abs(p.0 - (m + d)));
      ScaleSum(p.1, Abs(p.0 - m), gain);
      var u := 2.0 * UpTo(init, m) - Total(init);
      var c := if p.0 <= m then p.1 else -p.1;
      assert 2.0 * UpTo(ps, m) - Total(ps) == u + c;
      Distribute(u, c, d);
      ScaleFlip(p.1, d);
    }
  }

  lemma ScaleSum(w: real, a: real, b: real)
    ensures Scale(w, a + b) == Scale(w, a) + Scale(w, b)
  {
  }

  lemma ScaleFlip(w: real, d: real)
    ensures Scale(w, -d) == Scale(-w, d)
  {
  }

  lemma Distribute(u: real, c: real, d: real)
    ensures Scale(u + c, d) == Scale(u, d) + Scale(c, d)
  {
  }

  lemma {:induction false} DeviationLeft(ps: seq<Weighted>, m: real, d: real)
    requires PositiveWeights(ps) && d >= 0.0
    ensures Deviation(ps, m - d) - Deviation(ps, m) >= Scale(Total(ps) - 2.0 * Below(ps, m), d)
  {
    if ps != [] {
      var init, p := ps[..|ps|-1], ps[|ps|-1];
      DeviationLeft(init, m, d);
      hide Scale;
      var gain := if p.0 < m then -d else d;
      ScaleMono(p.1, Abs(p.0 - m) + gain, Abs(p.0 - (m - d)));
      ScaleSum(p.1, Abs(p.0 - m), gain);
      var u := Total(init) - 2.0 * Below(init, m);
      var c := if p.0 < m then -p.1 else p.1;
      assert Total(ps) - 2.0 * Below(ps, m) == u + c;
      Distribute(u, c, d);
      ScaleFlip(p.1, d);
    }
  }

  lemma ScaleSign(a: real, b: real)
    requires a >= 0.0 && b >= 0.0
    ensures Scale(a, b) >= 0.0
    ensures a > 0.0 && b > 0.0 ==> Scale(a, b) > 0.0
  {
  }

  /** The lower median is the least minimiser of the weighted absolute deviation over all reals. */
  lemma MedianMinimises(ps: seq<Weighted>, m: real, t: real)
    requires PositiveWeights(ps) && IsLowerMedian(ps, m)
    ensures Deviation(ps, m) <= Deviation(ps, t)
    ensures t < m ==> Deviation(ps, m) < Deviation(ps, t)
  {
    if t >= m {
      DeviationRight(ps, m, t - m);
      ScaleSign(2.0 * UpTo(ps, m) - Total(ps), t - m);
    } else {
      DeviationLeft(ps, m, m - t);
      ScaleSign(Total(ps) - 2.0 * Below(ps, m), m - t);
    }
  }

  lemma {:induction false} WeightsAround(a: seq<Weighted>, p: Weighted, b: seq<Weighted>, t: real)
    ensures Total(a + [p] + b) == Total(a + b) + p.1
    ensures Below(a + [p] + b, t) == Below(a + b, t) + if p.0 < t then p.1 else 0.0
    ensures UpTo(a + [p] + b, t) == UpTo(a + b, t) + if p.0 <= t then p.1 else 0.0
  {
    if b == [] {
      assert a + [p] + b == a + [p] && a + b == a && (a + [p])[..|a|] == a;
    } else {
      var init := b[..|b|-1];
      WeightsAround(a, p, init, t);
      assert (a + [p] + b)[..|a + [p] + b|-1] == a + [p] + init && (a + b)[..|a + b|-1] == a + init;
    }
  }

  lemma {:induction false} SameWeights(ps: seq<Weighted>, qs: seq<Weighted>, t: real)
    requires multiset(ps) == multiset(qs)
    ensures Total(ps) == Total(qs) && Below(ps, t) == Below(qs, t) && UpTo(ps, t) == UpTo(qs, t)
  {
    if ps == [] {
      assert |multiset(qs)| == |qs|;
    } else {
      var init, p := ps[..|ps|-1], ps[|ps|-1];
      var a, b := FindLast(ps, qs);
      SameWeights(init, a + b, t);
      WeightsAround(a, p, b, t);
    }
  }

  lemma Without<T>(s: seq<T>, i: nat)
    requires i < |s|
    ensures s == s[..i] + [s[i]] + s[i+1..]
    ensures multiset(s[..i] + s[i+1..]) == multiset(s) - multiset{s[i]}
  {
    assert s == s[..i] + [s[i]] + s[i+1..];
    assert multiset(s) == multiset(s[..i]) + multiset{s[i]} + multiset(s[i+1..]);
    assert multiset(s[..i] + s[i+1..]) == multiset(s[..i]) + multiset(s[i+1..]);
  }

  lemma FindLast<T>(ps: seq<T>, qs: seq<T>) returns (a: seq<T>, b: seq<T>)
    requires multiset(ps) == multiset(qs) && ps != []
    ensures qs == a + [ps[|ps|-1]] + b && multiset(ps[..|ps|-1]) == multiset(a + b)
  {
    var k := |ps| - 1;
    assert ps[k] in multiset(qs);
    var i :| 0 <= i < |qs| && qs[i] == ps[k];
    Without(ps, k);
    Without(qs, i);
    assert ps[..k] + ps[k+1..] == ps[..k];
    a, b := qs[..i], qs[i+1..];
  }

  /** Hence the median is determined by the pairs alone, in whatever order they come. */
  lemma MedianUnique(ps: seq<Weighted>, qs: seq<Weighted>, m: real, m': real)
    requires multiset(ps) == multiset(qs) && PositiveWeights(ps) && IsLowerMedian(ps, m) && IsLowerMedian(qs, m')
    ensures m == m'
  {
    SameWeights(ps, qs, m');
    var i :| 0 <= i < |qs| && qs[i].0 == m';
    SameElements(qs, ps, i);
    MedianMinimises(ps, m, m');
    MedianMinimises(ps, m', m);
  }

  // ----- The median is monotone in the values -----

  /** The same weights, no value lowered. */
  ghost predicate Raised(ps: seq<Weighted>, qs: seq<Weighted>) {
    |ps| == |qs| && forall i :: 0 <= i < |ps| ==> ps[i].1 == qs[i].1 && ps[i].0 <= qs[i].0
  }

  lemma {:induction false} RaisingMovesWeightUp(ps: seq<Weighted>, qs: seq<Weighted>, t: real)
    requires Raised(ps, qs) && PositiveWeights(ps)
    ensures Total(ps) == Total(qs) && UpTo(ps, t) >= UpTo(qs, t)
  {
    if ps != [] {
      RaisingMovesWeightUp(ps[..|ps|-1], qs[..|qs|-1], t);
    }
  }

  lemma MedianMonotone(ps: seq<Weighted>, qs: seq<Weighted>, m: real, m': real)
    requires Raised(ps, qs) && PositiveWeights(ps)
    requires IsLowerMedian(ps, m) && IsLowerMedian(qs, m')
    ensures m <= m'
  {
    if m' < m {
      RaisingMovesWeightUp(ps, qs, m');
      BelowUpTo(ps, m', m);
      assert false;
    }
  }

  // ----- ensemble, extremize, apply -----

  datatype Run = Run(model: string, probability: real)

  function Extremize(p: real, alpha: real): real {
    Clamp(0.5 + Scale(p - 0.5, 1.0 + alpha))
  }

  ghost predicate IsFloor(weights: map<string, real>, f: real) {
    && (exists n :: n in weights && weights[n] == f)
    && (forall n :: n in weights ==> f <= weights[n])
  }

  /** Weight of a run: one each without weights; models without a record get the least weight. */
  ghost predicate PairsOf(runs: seq<Run>, weights: map<string, real>, pairs: seq<Weighted>) {
    && |pairs| == |runs|
    && (forall i :: 0 <= i < |runs| ==> pairs[i].0 == runs[i].probability)
    && (weights == map[] ==> forall i :: 0 <= i < |runs| ==> pairs[i].1 == 1.0)
    && (weights != map[] ==>
          forall i :: 0 <= i < |runs| ==>
            if runs[i].model in weights then pairs[i].1 == weights[runs[i].model]
            else IsFloor(weights, pairs[i].1))
  }

  ghost predicate PositiveMap(weights: map<string, real>) {
    forall n :: n in weights ==> weights[n] > 0.0
  }

  ghost predicate EnsembleOf(runs: seq<Run>, weights: map<string, real>, r: real) {
    if runs == [] then r == 0.5
    else exists pairs, m :: PairsOf(runs, weights, pairs) && IsLowerMedian(pairs, m) && r == Clamp(m)
  }

  method MinWeight(weights: map<string, real>) returns (f: real)
    requires weights != map[]
    ensures IsFloor(weights, f)
  {
    var n0 :| n0 in weights;
    f := weights[n0];
    var rest := weights.Keys - {n0};
    while rest != {}
      invariant rest <= weights.Keys
      invariant exists n :: n in weights && weights[n] == f
      invariant forall n :: n in weights && n !in rest ==> f <= weights[n]
      decreases |rest|
    {
      var n :| n in rest;
      if weights[n] < f {
        f := weights[n];
      }
      rest := rest - {n};
    }
  }

  /** ensemble(runs, weights); None and an empty dict both mean equal weights. */
  method Combine(runs: seq<Run>, weights: map<string, real>) returns (r: real, ghost pairs: seq<Weighted>)
    ensures PositiveMap(weights) ==> EnsembleOf(runs, weights, r)
    ensures runs == [] ==> r == 0.5
    ensures 0.01 <= r <= 0.99
    ensures |pairs| == |runs| && forall i :: 0 <= i < |runs| ==>
      && pairs[i].0 == runs[i].probability
      && (weights == map[] ==> pairs[i].1 == 1.0)
      && (runs[i].model in weights ==> pairs[i].1 == weights[runs[i].model])
      && (weights != map[] && runs[i].model !in weights ==>
            && (exists n :: n in weights && weights[n] == pairs[i].1)
            && forall n :: n in weights ==> pairs[i].1 <= weights[n])
    ensures runs != [] && PositiveMap(weights) ==>
      exists m :: IsLowerMedian(pairs, m)
        && (if m < 0.01 then r == 0.01 else if m > 0.99 then r == 0.99 else r == m)
  {
    pairs := [];
    if runs == [] {
      return 0.5, pairs;
    }
    var weighted: seq<Weighted>;
    if weights != map[] {
      var floor := MinWeight(weights);
      weighted := seq(|runs|, i requires 0 <= i < |runs| =>
        (runs[i].probability, if runs[i].model in weights then weights[runs[i].model] else floor));
    } else {
      weighted := seq(|runs|, i requires 0 <= i < |runs| => (runs[i].probability, 1.0));
    }
    pairs := weighted;
    assert PairsOf(runs, weights, pairs);
    var m := WeightedMedian(weighted);
    if PositiveMap(weights) {
      PairsPositive(runs, weights, pairs);
      assert IsLowerMedian(pairs, m.value);
    }
    r := Clamp(m.value);
  }

  lemma PairsPositive(runs: seq<Run>, weights: map<string, real>, pairs: seq<Weighted>)
    requires PositiveMap(weights) && PairsOf(runs, weights, pairs)
    ensures PositiveWeights(pairs)
  {
  }

  lemma PairsDetermined(runs: seq<Run>, runs': seq<Run>, weights: map<string, real>, ps: seq<Weighted>,
                        qs: seq<Weighted>)
    requires |runs| == |runs'| && PairsOf(runs, weights, ps) && PairsOf(runs', weights, qs)
    requires forall i :: 0 <= i < |runs| ==>
      runs[i].model == runs'[i].model && runs[i].probability <= runs'[i].probability
    ensures Raised(ps, qs)
  {
  }

  /** Raising any runs' probabilities, models unchanged, never lowers the ensemble. */
  lemma EnsembleMonotone(runs: seq<Run>, runs': seq<Run>, weights: map<string, real>, r: real, r': real)
    requires PositiveMap(weights) && |runs| == |runs'|
    requires forall i :: 0 <= i < |runs| ==>
      runs[i].model == runs'[i].model && runs[i].probability <= runs'[i].probability
    requires EnsembleOf(runs, weights, r) && EnsembleOf(runs', weights, r')
    ensures r <= r'
  {
    hide IsLowerMedian, PairsOf, PositiveWeights, Raised, PositiveMap;
    if runs != [] {
      var ps, m :| PairsOf(runs, weights, ps) && IsLowerMedian(ps, m) && r == Clamp(m);
      var qs, m' :| PairsOf(runs', weights, qs) && IsLowerMedian(qs, m') && r' == Clamp(m');
      PairsPositive(runs, weights, ps);
      PairsDetermined(runs, runs', weights, ps, qs);
      MedianMonotone(ps, qs, m, m');
    }
  }

  /** Extremizing keeps the order of all probabilities exactly when alpha is at least -1. */
  lemma ExtremizeMonotone(alpha: real)
    ensures alpha >= -1.0 <==> forall p, q :: 0.0 <= p <= q <= 1.0 ==> Extremize(p, alpha) <= Extremize(q, alpha)
    ensures alpha >= -1.0 ==> forall p, q :: p <= q ==> Extremize(p, alpha) <= Extremize(q, alpha)
  {
    var c := 1.0 + alpha;
    if alpha >= -1.0 {
      forall p: real, q: real | p <= q ensures Extremize(p, alpha) <= Extremize(q, alpha) {
        ScaleMonoLeft(p - 0.5, q - 0.5, c);
        ClampMono(0.5 + Scale(p - 0.5, c), 0.5 + Scale(q - 0.5, c));
      }
    } else {
      StepDown(c);
      assert Extremize(0.5, alpha) == 0.5 && Extremize(0.6, alpha) < 0.5;
    }
  }

  /** One half stays; any other probability has its distance to one half scaled by 1 + alpha, up to the clamp. */
  lemma ExtremizeScales(p: real, alpha: real)
    ensures Extremize(0.5, alpha) == 0.5
    ensures var d := Scale(1.0 + alpha, p - 0.5);
      && (-0.49 <= d <= 0.49 ==> Extremize(p, alpha) - 0.5 == d)
      && (d < -0.49 ==> Extremize(p, alpha) == 0.01)
      && (d > 0.49 ==> Extremize(p, alpha) == 0.99)
  {
    assert Scale(0.5 - 0.5, 1.0 + alpha) == 0.0;
    assert Scale(p - 0.5, 1.0 + alpha) == Scale(1.0 + alpha, p - 0.5);
  }

  lemma ScaleMonoLeft(a: real, b: real, c: real)
    requires a <= b && c >= 0.0
    ensures Scale(a, c) <= Scale(b, c)
  {
  }

  lemma StepDown(c: real)
    requires c < 0.0
    ensures Scale(0.1, c) < 0.0 && Scale(0.0, c) == 0.0
  {
  }

  lemma ClampMono(p: real, q: real)
    requires p <= q
    ensures Clamp(p) <= Clamp(q)
  {
  }

  /** Lines 87 to 89 of pipeline.py, with no calibrator given as an empty step list. */
  function Finish(combined: real, alpha: real, steps: seq<Step>): real {
    var p := Extremize(combined, alpha);
    if steps == [] then p else Level(steps, p)
  }

  /** First the combined value is extremized, then the result is looked up: midway between the steps around it. */
  lemma FinishIsMidway(combined: real, alpha: real, steps: seq<Step>, q: real, i: nat)
    requires CalibratorOk(steps) && i <= |steps|
    requires 0.01 <= q <= 0.99 && q - 0.5 == Scale(1.0 + alpha, combined - 0.5)
    requires i > 0 ==> steps[i-1].0 < q
    requires i < |steps| ==> q <= steps[i].0
    ensures steps == [] ==> Finish(combined, alpha, steps) == q
    ensures (0 < i < |steps| ==>
      Finish(combined, alpha, steps) - steps[i-1].1 == steps[i].1 - Finish(combined, alpha, steps))
    ensures i == 0 && steps != [] ==> Finish(combined, alpha, steps) == steps[0].1
    ensures i == |steps| && steps != [] ==> Finish(combined, alpha, steps) == steps[|steps|-1].1
  {
    hide Scale, Level, CalibratorOk;
    ExtremizeScales(combined, alpha);
    if steps != [] {
      LevelIsMidway(steps, q, i);
    }
  }

  /** The whole chain never lowers its result when runs are raised. */
  lemma PredictionMonotone(runs: seq<Run>, runs': seq<Run>, weights: map<string, real>, alpha: real,
                           steps: seq<Step>, r: real, r': real)
    requires PositiveMap(weights) && |runs| == |runs'| && alpha >= -1.0 && CalibratorOk(steps)
    requires forall i :: 0 <= i < |runs| ==>
      runs[i].model == runs'[i].model && runs[i].probability <= runs'[i].probability
    requires EnsembleOf(runs, weights, r) && EnsembleOf(runs', weights, r')
    ensures Finish(r, alpha, steps) <= Finish(r', alpha, steps)
  {
    EnsembleMonotone(runs, runs', weights, r, r');
    ExtremizeMonotone(alpha);
    assert Extremize(r, alpha) <= Extremize(r', alpha);
    if steps != [] {
      LevelMonotone(steps, Extremize(r, alpha), Extremize(r', alpha));
    }
  }
}
