/**
 * The rest of src/predictor/calibration/isotonic.py: sorting the samples, turning the pooled
 * blocks into steps, and looking a probability up in them.
 */
module Calibrator {
  import opened Wrappers
  import opened Isotonic

  // ----- Sorting the samples -----

  /** Python's sorted on indices, with the predictions as key: ascending, ties by index. */
  ghost predicate Precedes(preds: seq<real>, i: nat, j: nat)
    requires i < |preds| && j < |preds|
  {
    preds[i] < preds[j] || (preds[i] == preds[j] && i < j)
  }

  predicate IndicesBelow(order: seq<nat>, n: nat) {
    forall a :: 0 <= a < |order| ==> order[a] < n
  }

  ghost predicate Ordered(preds: seq<real>, order: seq<nat>)
    requires IndicesBelow(order, |preds|)
  {
    forall a, b :: 0 <= a < b < |order| ==> Precedes(preds, order[a], order[b])
  }

  /** A strictly ordered list of n indices below n: the one stable sorting permutation. */
  ghost predicate StableOrder(preds: seq<real>, n: nat, order: seq<nat>)
    requires n <= |preds|
  {
    |order| == n && IndicesBelow(order, n) && Ordered(preds, order)
  }

  function InsertIndex(order: seq<nat>, preds: seq<real>, i: nat): seq<nat>
    requires i < |preds| && IndicesBelow(order, |preds|)
  {
    if order == [] || preds[order[|order|-1]] <= preds[i] then order + [i]
    else InsertIndex(order[..|order|-1], preds, i) + [order[|order|-1]]
  }

  ghost predicate AllPrecede(preds: seq<real>, order: seq<nat>, j: nat)
    requires IndicesBelow(order, |preds|) && j < |preds|
  {
    forall a :: 0 <= a < |order| ==> Precedes(preds, order[a], j)
  }

  lemma {:induction false} InsertIndexBelow(order: seq<nat>, preds: seq<real>, i: nat, n: nat)
    requires i < n <= |preds| && IndicesBelow(order, n)
    ensures IndicesBelow(InsertIndex(order, preds, i), n) && |InsertIndex(order, preds, i)| == |order| + 1
  {
    if order != [] && preds[order[|order|-1]] > preds[i] {
      InsertIndexBelow(order[..|order|-1], preds, i, n);
    }
  }

  lemma {:induction false} InsertIndexPrecedes(order: seq<nat>, preds: seq<real>, i: nat, j: nat)
    requires i < |preds| && j < |preds| && IndicesBelow(order, |preds|)
    requires AllPrecede(preds, order, j) && Precedes(preds, i, j)
    ensures IndicesBelow(InsertIndex(order, preds, i), |preds|)
    ensures AllPrecede(preds, InsertIndex(order, preds, i), j)
  {
    InsertIndexBelow(order, preds, i, |preds|);
    if order != [] && preds[order[|order|-1]] > preds[i] {
      InsertIndexPrecedes(order[..|order|-1], preds, i, j);
    }
  }

  lemma {:induction false} InsertIndexOrdered(order: seq<nat>, preds: seq<real>, i: nat)
    requires i < |preds| && IndicesBelow(order, i) && Ordered(preds, order)
    ensures IndicesBelow(InsertIndex(order, preds, i), |preds|)
    ensures Ordered(preds, InsertIndex(order, preds, i))
  {
    InsertIndexBelow(order, preds, i, |preds|);
    if order != [] {
      var init, last := order[..|order|-1], order[|order|-1];
      if preds[last] <= preds[i] {
        forall a | 0 <= a < |order| ensures Precedes(preds, order[a], i) {
          assert a < |order| - 1 ==> Precedes(preds, order[a], last);
        }
      } else {
        InsertIndexOrdered(init, preds, i);
        InsertIndexPrecedes(init, preds, i, last);
      }
    }
  }

  function Ranking(preds: seq<real>, n: nat): (order: seq<nat>)
    requires n <= |preds|
    ensures StableOrder(preds, n, order)
  {
    if n == 0 then []
    else
      var shorter := Ranking(preds, n - 1);
      InsertIndexBelow(shorter, preds, n - 1, n);
      InsertIndexOrdered(shorter, preds, n - 1);
      InsertIndex(shorter, preds, n - 1)
  }

  function Pick<T>(s: seq<T>, order: seq<nat>): (r: seq<T>)
    requires IndicesBelow(order, |s|)
    ensures |r| == |order| && forall k :: 0 <= k < |r| ==> r[k] == s[order[k]]
  {
    seq(|order|, k requires 0 <= k < |order| => s[order[k]])
  }

  // ----- From blocks to steps -----

  type Step = (real, real)

  /** A Python dict of lists: keys in insertion order. */
  datatype Buckets = Buckets(keys: seq<real>, entries: map<real, seq<(real, nat)>>) {
    function Get(x: real): seq<(real, nat)> {
      if x in entries then entries[x] else []
    }

    /** Keys rise strictly and are exactly the keys of the map. */
    ghost predicate Consistent() {
      StrictlyIncreasing(keys) && (forall x :: x in entries <==> x in keys)
    }

    ghost predicate NoneEmpty() {
      forall x :: x in entries ==> entries[x] != []
    }

    /** merged.setdefault(x, []).append(e) */
    function Append(x: real, e: (real, nat)): Buckets {
      if x in entries then Buckets(keys, entries[x := entries[x] + [e]])
      else Buckets(keys + [x], entries[x := [e]])
    }
  }

  /** What the aggregation reads of a block: its first and last prediction, value and size. */
  datatype Span = Span(first: real, last: real, value: real, size: nat) {
    predicate Touches(x: real) {
      first == x || last == x
    }
  }

  function SpanOf(b: Block): Span
    requires b.preds != []
  {
    Span(b.preds[0], b.preds[|b.preds|-1], b.Value(), b.n)
  }

  ghost predicate NonEmptyBlocks(blocks: seq<Block>) {
    forall i :: 0 <= i < |blocks| ==> blocks[i].preds != []
  }

  ghost function Spans(blocks: seq<Block>): (r: seq<Span>)
    requires NonEmptyBlocks(blocks)
    ensures |r| == |blocks| && forall i :: 0 <= i < |r| ==> r[i] == SpanOf(blocks[i])
  {
    seq(|blocks|, i requires 0 <= i < |blocks| => SpanOf(blocks[i]))
  }

  /** Spans cover consecutive stretches of the sorted predictions. */
  ghost predicate Chained(spans: seq<Span>) {
    && (forall i :: 0 <= i < |spans| ==> spans[i].size > 0 && spans[i].first <= spans[i].last)
    && (forall i, j :: 0 <= i < j < |spans| ==> spans[i].last <= spans[j].first)
  }

  ghost predicate Rising(spans: seq<Span>) {
    forall i, j :: 0 <= i <= j < |spans| ==> spans[i].value <= spans[j].value
  }

  /** The (value, size) pairs of the spans that start or end at x, in stack order. */
  ghost function EntriesAt(spans: seq<Span>, x: real): seq<(real, nat)> {
    if spans == [] then []
    else
      var b := spans[|spans|-1];
      EntriesAt(spans[..|spans|-1], x) + if b.Touches(x) then [(b.value, b.size)] else []
  }

  function WeightedSum(es: seq<(real, nat)>): real {
    if es == [] then 0.0 else WeightedSum(es[..|es|-1]) + Product(es[|es|-1].0, es[|es|-1].1 as real)
  }

  function TotalWeight(es: seq<(real, nat)>): nat {
    if es == [] then 0 else TotalWeight(es[..|es|-1]) + es[|es|-1].1
  }

  function WeightedMean(es: seq<(real, nat)>): real
    requires TotalWeight(es) > 0
  {
    WeightedSum(es) / TotalWeight(es) as real
  }

  ghost predicate PositiveSizes(es: seq<(real, nat)>) {
    forall k :: 0 <= k < |es| ==> es[k].1 > 0
  }

  lemma {:induction false} PositiveTotal(es: seq<(real, nat)>)
    requires PositiveSizes(es) && es != []
    ensures TotalWeight(es) > 0
  {
    if |es| > 1 {
      PositiveTotal(es[..|es|-1]);
    }
  }

  ghost predicate StrictlyIncreasing(xs: seq<real>) {
    forall i, j :: 0 <= i < j < |xs| ==> xs[i] < xs[j]
  }

  ghost predicate BucketsOf(d: Buckets, spans: seq<Span>) {
    && d.Consistent()
    && (forall x :: d.Get(x) == EntriesAt(spans, x))
    && d.NoneEmpty()
    && (spans == [] <==> d.keys == [])
    && (spans != [] ==> d.keys[|d.keys|-1] == spans[|spans|-1].last)
  }

  ghost predicate FromSpan(spans: seq<Span>, x: real, e: (real, nat)) {
    exists i :: 0 <= i < |spans| && spans[i].Touches(x) && e == (spans[i].value, spans[i].size)
  }

  lemma {:induction false} EntrySpans(spans: seq<Span>, x: real, k: nat)
    requires k < |EntriesAt(spans, x)|
    ensures FromSpan(spans, x, EntriesAt(spans, x)[k])
  {
    var init, b := spans[..|spans|-1], spans[|spans|-1];
    if k < |EntriesAt(init, x)| {
      EntrySpans(init, x, k);
      var i :| 0 <= i < |init| && init[i].Touches(x) && EntriesAt(init, x)[k] == (init[i].value, init[i].size);
      assert spans[i] == init[i];
    }
  }

  lemma {:induction false} TouchedHasEntry(spans: seq<Span>, x: real, i: nat)
    requires i < |spans| && spans[i].Touches(x)
    ensures EntriesAt(spans, x) != []
  {
    if i < |spans| - 1 {
      TouchedHasEntry(spans[..|spans|-1], x, i);
    }
  }

  lemma {:induction false} EntrySizes(spans: seq<Span>, x: real)
    requires Chained(spans)
    ensures PositiveSizes(EntriesAt(spans, x))
  {
    if spans != [] {
      EntrySizes(spans[..|spans|-1], x);
    }
  }

  /** One turn of the loop at lines 51 to 54, for a block from x to x' contributing e. */
  function AddEnds(d: Buckets, x: real, x': real, e: (real, nat)): Buckets {
    if x' != x then d.Append(x, e).Append(x', e) else d.Append(x, e)
  }

  lemma AddEndsKeys(d: Buckets, x: real, x': real, e: (real, nat))
    requires d.Consistent() && d.NoneEmpty() && x <= x' && (d.keys != [] ==> d.keys[|d.keys|-1] <= x)
    ensures var d' := AddEnds(d, x, x', e);
      && d'.Consistent() && d'.NoneEmpty() && d'.keys != [] && d'.keys[|d'.keys|-1] == x'
      && (forall t :: d'.Get(t) == if t == x || t == x' then d.Get(t) + [e] else d.Get(t))
  {
    AppendKey(d, x, e);
    if x' != x {
      AppendKey(d.Append(x, e), x', e);
    }
  }

  function Bucketed(spans: seq<Span>): Buckets {
    if spans == [] then Buckets([], map[])
    else
      var b := spans[|spans|-1];
      AddEnds(Bucketed(spans[..|spans|-1]), b.first, b.last, (b.value, b.size))
  }

  lemma {:induction false} BucketedKeepsEntries(spans: seq<Span>)
    requires Chained(spans)
    ensures BucketsOf(Bucketed(spans), spans)
  {
    if spans != [] {
      hide BucketsOf, AddEnds, Chained;
      InitChained(spans);
      BucketedKeepsEntries(spans[..|spans|-1]);
      BucketStep(Bucketed(spans[..|spans|-1]), spans);
    }
  }

  lemma InitChained(spans: seq<Span>)
    requires Chained(spans) && spans != []
    ensures Chained(spans[..|spans|-1]) && spans[|spans|-1].first <= spans[|spans|-1].last
    ensures |spans| > 1 ==> spans[|spans|-2].last <= spans[|spans|-1].first
  {
  }

  /** One more span adds its entry at its two ends. */
  lemma BucketStep(d: Buckets, spans: seq<Span>)
    requires Chained(spans) && spans != [] && BucketsOf(d, spans[..|spans|-1])
    ensures var b := spans[|spans|-1]; BucketsOf(AddEnds(d, b.first, b.last, (b.value, b.size)), spans)
  {
    hide Buckets.Consistent, Buckets.NoneEmpty, Buckets.Get, AddEnds, EntriesAt, Chained;
    var init, b := spans[..|spans|-1], spans[|spans|-1];
    InitChained(spans);
    var d' := AddEnds(d, b.first, b.last, (b.value, b.size));
    AddEndsKeys(d, b.first, b.last, (b.value, b.size));
    forall x ensures d'.Get(x) == EntriesAt(spans, x) {
      EntriesStep(spans, x);
      assert d.Get(x) == EntriesAt(init, x);
    }
  }

  lemma EntriesStep(spans: seq<Span>, x: real)
    requires spans != []
    ensures var init, b := spans[..|spans|-1], spans[|spans|-1];
      EntriesAt(spans, x) == EntriesAt(init, x) + if x == b.first || x == b.last then [(b.value, b.size)] else []
  {
  }

  lemma AppendKey(d: Buckets, x: real, e: (real, nat))
    requires d.Consistent() && (d.keys != [] ==> d.keys[|d.keys|-1] <= x)
    ensures var d' := d.Append(x, e);
      && d'.Consistent() && (d.NoneEmpty() ==> d'.NoneEmpty()) && d'.keys != [] && d'.keys[|d'.keys|-1] == x
      && (forall t :: d'.Get(t) == if t == x then d.Get(t) + [e] else d.Get(t))
  {
    var d' := d.Append(x, e);
    assert x in d.keys ==> x == d.keys[|d.keys|-1];
    forall t ensures t in d'.entries <==> t in d'.keys {
    }
  }

  /** The steps a stack of blocks stands for: one per end x, the size-weighted mean there. */
  ghost predicate StepsOf(spans: seq<Span>, steps: seq<Step>) {
    && (forall i, j :: 0 <= i < j < |steps| ==> steps[i].0 < steps[j].0)
    && (forall i :: 0 <= i < |steps| ==> MeanAt(spans, steps[i].0, steps[i].1))
    && (forall b, x :: 0 <= b < |spans| && spans[b].Touches(x) ==> HasStep(steps, x))
  }

  ghost predicate HasStep(steps: seq<Step>, x: real) {
    exists i :: 0 <= i < |steps| && steps[i].0 == x
  }

  ghost predicate MeanAt(spans: seq<Span>, x: real, y: real) {
    var es := EntriesAt(spans, x);
    TotalWeight(es) > 0 && y == WeightedMean(es)
  }

  method AddBlockEnds(merged: Buckets, b: Block) returns (r: Buckets)
    requires b.preds != []
    ensures r == AddEnds(merged, SpanOf(b).first, SpanOf(b).last, (SpanOf(b).value, SpanOf(b).size))
  {
    var e := (b.Value(), b.n);
    r := merged.Append(b.preds[0], e);
    if b.preds[|b.preds|-1] != b.preds[0] {
      r := r.Append(b.preds[|b.preds|-1], e);
    }
  }

  /** The dict filled by the loop at lines 50 to 54. */
  method FillBuckets(blocks: seq<Block>) returns (merged: Buckets)
    requires NonEmptyBlocks(blocks)
    ensures merged == Bucketed(Spans(blocks))
    ensures Chained(Spans(blocks)) ==> BucketsOf(merged, Spans(blocks))
  {
    hide BucketsOf, Chained;
    ghost var spans := Spans(blocks);
    merged := Buckets([], map[]);
    for i := 0 to |blocks|
      invariant merged == Bucketed(spans[..i])
    {
      assert spans[..i+1][..i] == spans[..i];
      merged := AddBlockEnds(merged, blocks[i]);
    }
    assert spans[..|blocks|] == spans;
    if Chained(spans) {
      BucketedKeepsEntries(spans);
    }
  }

  /** Lines 50 to 58: aggregate the block values by the x at which blocks start or end. */
  method CollectSteps(blocks: seq<Block>) returns (steps: seq<Step>)
    requires NonEmptyBlocks(blocks) && Chained(Spans(blocks))
    ensures StepsOf(Spans(blocks), steps)
    ensures steps == [] <==> blocks == []
  {
    var merged := FillBuckets(blocks);
    BucketTotals(merged, Spans(blocks));
    steps := seq(|merged.keys|, i requires 0 <= i < |merged.keys| =>
      (merged.keys[i], WeightedMean(merged.entries[merged.keys[i]])));
    StepsFromBuckets(merged, Spans(blocks), steps);
  }

  lemma BucketTotals(d: Buckets, spans: seq<Span>)
    requires Chained(spans) && BucketsOf(d, spans)
    ensures forall i :: 0 <= i < |d.keys| ==> d.keys[i] in d.entries && TotalWeight(d.entries[d.keys[i]]) > 0
  {
    forall i | 0 <= i < |d.keys| ensures d.keys[i] in d.entries && TotalWeight(d.entries[d.keys[i]]) > 0 {
      assert d.keys[i] in d.keys && d.Get(d.keys[i]) == d.entries[d.keys[i]];
      EntrySizes(spans, d.keys[i]);
      PositiveTotal(d.entries[d.keys[i]]);
    }
  }

  lemma StepsFromBuckets(d: Buckets, spans: seq<Span>, steps: seq<Step>)
    requires Chained(spans) && BucketsOf(d, spans) && |steps| == |d.keys|
    requires forall i :: 0 <= i < |d.keys| ==> d.keys[i] in d.entries && TotalWeight(d.entries[d.keys[i]]) > 0
    requires forall i :: 0 <= i < |steps| ==> steps[i] == (d.keys[i], WeightedMean(d.entries[d.keys[i]]))
    ensures StepsOf(spans, steps)
  {
    hide BucketsOf, MeanAt, Chained;
    forall i, j | 0 <= i < j < |steps| ensures steps[i].0 < steps[j].0 {
      KeysRise(d, spans, i, j);
    }
    forall i | 0 <= i < |steps| ensures MeanAt(spans, steps[i].0, steps[i].1) {
      KeyMean(d, spans, i);
    }
    forall b, x | 0 <= b < |spans| && spans[b].Touches(x) ensures HasStep(steps, x) {
      var i := TouchedKey(d, spans, b, x);
      assert steps[i].0 == x;
    }
  }

  lemma KeysRise(d: Buckets, spans: seq<Span>, i: nat, j: nat)
    requires BucketsOf(d, spans) && i < j < |d.keys|
    ensures d.keys[i] < d.keys[j]
  {
    hide EntriesAt;
  }

  lemma KeyMean(d: Buckets, spans: seq<Span>, i: nat)
    requires BucketsOf(d, spans) && i < |d.keys| && d.keys[i] in d.entries && TotalWeight(d.entries[d.keys[i]]) > 0
    ensures MeanAt(spans, d.keys[i], WeightedMean(d.entries[d.keys[i]]))
  {
    hide EntriesAt, TotalWeight, WeightedMean;
    assert d.Get(d.keys[i]) == EntriesAt(spans, d.keys[i]);
  }

  lemma TouchedKey(d: Buckets, spans: seq<Span>, b: nat, x: real) returns (i: nat)
    requires BucketsOf(d, spans) && b < |spans| && spans[b].Touches(x)
    ensures i < |d.keys| && d.keys[i] == x
  {
    TouchedHasEntry(spans, x, b);
    hide EntriesAt;
    assert d.Get(x) != [] && x in d.keys;
    i :| 0 <= i < |d.keys| && d.keys[i] == x;
  }

  // ----- The steps on the blocks themselves -----

  /** How far the samples of the blocks with an end at x lie above y in total. */
  ghost function Excess(blocks: seq<Block>, x: real, y: real): real
    requires NonEmptyBlocks(blocks)
  {
    if blocks == [] then 0.0
    else
      var b := blocks[|blocks|-1];
      Excess(blocks[..|blocks|-1], x, y)
      + if b.preds[0] == x || b.preds[|b.preds|-1] == x then Product(b.n as real, b.Value() - y) else 0.0
  }

  lemma {:induction false} ExcessIsSum(blocks: seq<Block>, x: real, y: real)
    requires NonEmptyBlocks(blocks)
    ensures var es := EntriesAt(Spans(blocks), x);
      Excess(blocks, x, y) == WeightedSum(es) - Product(TotalWeight(es) as real, y)
  {
    if blocks != [] {
      var init, b := blocks[..|blocks|-1], blocks[|blocks|-1];
      ExcessIsSum(init, x, y);
      assert Spans(blocks)[..|blocks|-1] == Spans(init);
      var es := EntriesAt(Spans(init), x);
      if b.preds[0] == x || b.preds[|b.preds|-1] == x {
        var e := (b.Value(), b.n);
        assert EntriesAt(Spans(blocks), x) == es + [e];
        assert (es + [e])[..|es|] == es;
        Distribute(b.n as real, b.Value(), y, TotalWeight(es) as real);
      } else {
        assert EntriesAt(Spans(blocks), x) == es;
      }
    }
  }

  lemma Distribute(n: real, v: real, y: real, t: real)
    ensures Product(n, v - y) == Product(v, n) - Product(n, y)
    ensures Product(t + n, y) == Product(t, y) + Product(n, y)
  {
  }

  predicate EndsAt(b: Block, x: real)
    requires b.preds != []
  {
    b.preds[0] == x || b.preds[|b.preds|-1] == x
  }

  /** A step is the mean at an end of some span. */
  lemma StepTouches(spans: seq<Span>, steps: seq<Step>, i: nat) returns (b: nat)
    requires StepsOf(spans, steps) && i < |steps|
    ensures MeanAt(spans, steps[i].0, steps[i].1) && b < |spans| && spans[b].Touches(steps[i].0)
  {
    var es := EntriesAt(spans, steps[i].0);
    assert MeanAt(spans, steps[i].0, steps[i].1) && es != [];
    hide StepsOf, EntriesAt, MeanAt;
    EntrySpans(spans, steps[i].0, 0);
    b :| 0 <= b < |spans| && spans[b].Touches(steps[i].0) && es[0] == (spans[b].value, spans[b].size);
  }

  lemma MeanBalances(blocks: seq<Block>, x: real, y: real)
    requires NonEmptyBlocks(blocks) && MeanAt(Spans(blocks), x, y)
    ensures Excess(blocks, x, y) == 0.0
  {
    hide Excess, EntriesAt, Spans, WeightedSum, TotalWeight, Product;
    ExcessIsSum(blocks, x, y);
    var es := EntriesAt(Spans(blocks), x);
    Balanced(WeightedSum(es), TotalWeight(es) as real);
  }

  lemma Balanced(s: real, w: real)
    requires w != 0.0
    ensures s - Product(w, s / w) == 0.0
  {
  }

  ghost predicate SomeBlockEndsAt(blocks: seq<Block>, x: real)
    requires NonEmptyBlocks(blocks)
  {
    exists b :: 0 <= b < |blocks| && EndsAt(blocks[b], x)
  }

  /**
   * The steps stand exactly at the ends of blocks, and each balances the samples of the blocks with an
   * end there.
   */
  lemma StepsBalance(blocks: seq<Block>, steps: seq<Step>)
    requires NonEmptyBlocks(blocks) && StepsOf(Spans(blocks), steps)
    ensures forall x :: HasStep(steps, x) <==> SomeBlockEndsAt(blocks, x)
    ensures forall i :: 0 <= i < |steps| ==> Excess(blocks, steps[i].0, steps[i].1) == 0.0
  {
    hide StepsOf, MeanAt, Excess, SomeBlockEndsAt, HasStep;
    forall i | 0 <= i < |steps|
      ensures Excess(blocks, steps[i].0, steps[i].1) == 0.0 && SomeBlockEndsAt(blocks, steps[i].0)
    {
      var b := StepTouches(Spans(blocks), steps, i);
      MeanBalances(blocks, steps[i].0, steps[i].1);
      EndOfSome(blocks, b, steps[i].0);
    }
    forall x ensures HasStep(steps, x) <==> SomeBlockEndsAt(blocks, x) {
      EndHasStep(blocks, steps, x);
    }
  }

  lemma EndOfSome(blocks: seq<Block>, b: nat, x: real)
    requires NonEmptyBlocks(blocks) && b < |blocks| && Spans(blocks)[b].Touches(x)
    ensures SomeBlockEndsAt(blocks, x)
  {
    assert EndsAt(blocks[b], x);
  }

  lemma EndHasStep(blocks: seq<Block>, steps: seq<Step>, x: real)
    requires NonEmptyBlocks(blocks) && StepsOf(Spans(blocks), steps)
    requires forall i :: 0 <= i < |steps| ==> SomeBlockEndsAt(blocks, steps[i].0)
    ensures HasStep(steps, x) <==> SomeBlockEndsAt(blocks, x)
  {
    hide MeanAt;
    if SomeBlockEndsAt(blocks, x) {
      var b :| 0 <= b < |blocks| && EndsAt(blocks[b], x);
      assert Spans(blocks)[b].Touches(x);
    }
  }

  predicate RisingSteps(steps: seq<Step>) {
    forall i, j :: 0 <= i < j < |steps| ==> steps[i].0 < steps[j].0
  }

  lemma {:induction false} SameRisingSteps(s: seq<Step>, t: seq<Step>)
    requires RisingSteps(s) && RisingSteps(t)
    requires forall e :: e in s <==> e in t
    ensures s == t
  {
    assert s != [] ==> s[0] in s;
    assert t != [] ==> t[0] in t;
    if s != [] && t != [] {
      var a, b := s[|s|-1], t[|t|-1];
      assert a in t && b in s;
      assert a == b;
      var p, q := s[..|s|-1], t[..|t|-1];
      forall e ensures e in p <==> e in q {
        InitLacksLast(s, e);
        InitLacksLast(t, e);
      }
      SameRisingSteps(p, q);
      assert s == p + [a] && t == q + [b];
    }
  }

  lemma InitLacksLast(s: seq<Step>, e: Step)
    requires RisingSteps(s) && s != []
    ensures e in s[..|s|-1] <==> e in s && e != s[|s|-1]
  {
  }

  lemma StepIsShared(spans: seq<Span>, s: seq<Step>, t: seq<Step>, i: nat)
    requires StepsOf(spans, s) && StepsOf(spans, t) && i < |s|
    ensures s[i] in t
  {
    var b := StepTouches(spans, s, i);
    assert HasStep(t, s[i].0);
    var j :| 0 <= j < |t| && t[j].0 == s[i].0;
    assert MeanAt(spans, t[j].0, t[j].1);
    hide EntriesAt, StepsOf, HasStep;
    assert t[j] == s[i];
  }

  /** A stack stands for one list of steps. */
  lemma StepsAreUnique(spans: seq<Span>, s: seq<Step>, t: seq<Step>)
    requires StepsOf(spans, s) && StepsOf(spans, t)
    ensures s == t
  {
    forall e ensures e in s <==> e in t {
      if e in s {
        var i :| 0 <= i < |s| && s[i] == e;
        StepIsShared(spans, s, t, i);
      }
      if e in t {
        var i :| 0 <= i < |t| && t[i] == e;
        StepIsShared(spans, t, s, i);
      }
    }
    SameRisingSteps(s, t);
  }

  /** Whatever stack and steps meet the contract of the fit on the same samples are those it returns. */
  lemma FitIsUnique(xs: seq<real>, os: seq<bool>, blocks: seq<Block>, steps: seq<Step>, others: seq<Block>,
                    otherSteps: seq<Step>)
    requires Pooled(blocks, xs, os) && NonEmptyBlocks(blocks) && StepsOf(Spans(blocks), steps)
    requires Pooled(others, xs, os) && NonEmptyBlocks(others) && StepsOf(Spans(others), otherSteps)
    ensures others == blocks && otherSteps == steps
  {
    hide Pooled, StepsOf;
    PooledIsUnique(blocks, others, xs, os);
    StepsAreUnique(Spans(blocks), steps, otherSteps);
  }

  // ----- The steps form a calibrator -----

  predicate CalibratorOk(steps: seq<Step>) {
    && (forall i, j :: 0 <= i < j < |steps| ==> steps[i].0 < steps[j].0)
    && (forall i, j :: 0 <= i <= j < |steps| ==> steps[i].1 <= steps[j].1)
    && (forall i :: 0 <= i < |steps| ==> 0.0 <= steps[i].1 <= 1.0)
  }

  lemma {:induction false} WeightedSumBounds(es: seq<(real, nat)>, lo: real, hi: real)
    requires forall k :: 0 <= k < |es| ==> lo <= es[k].0 <= hi
    ensures Product(lo, TotalWeight(es) as real) <= WeightedSum(es) <= Product(hi, TotalWeight(es) as real)
  {
    if es != [] {
      var e := es[|es|-1];
      var w := TotalWeight(es[..|es|-1]) as real;
      WeightedSumBounds(es[..|es|-1], lo, hi);
      ProductMono(lo, e.0, e.1 as real);
      ProductMono(e.0, hi, e.1 as real);
      assert Product(lo, w + e.1 as real) == Product(lo, w) + Product(lo, e.1 as real);
      assert Product(hi, w + e.1 as real) == Product(hi, w) + Product(hi, e.1 as real);
    }
  }

  lemma ProductMono(a: real, b: real, c: real)
    requires a <= b && c >= 0.0
    ensures Product(a, c) <= Product(b, c)
  {
  }

  lemma QuotientBounds(s: real, t: real, lo: real, hi: real)
    requires t > 0.0 && Product(lo, t) <= s <= Product(hi, t)
    ensures lo <= s / t <= hi
  {
    var q := s / t;
    DivTimes(s, t);
    assert q < lo ==> q * t < lo * t;
    assert q > hi ==> q * t > hi * t;
  }

  lemma MeanBounds(es: seq<(real, nat)>, lo: real, hi: real)
    requires TotalWeight(es) > 0
    requires forall k :: 0 <= k < |es| ==> lo <= es[k].0 <= hi
    ensures lo <= WeightedMean(es) <= hi
  {
    WeightedSumBounds(es, lo, hi);
    QuotientBounds(WeightedSum(es), TotalWeight(es) as real, lo, hi);
  }

  /** Entries at a smaller x are never above entries at a larger x. */
  lemma EntriesRise(spans: seq<Span>, x: real, x': real, e: (real, nat), e': (real, nat))
    requires Chained(spans) && Rising(spans) && x < x'
    requires FromSpan(spans, x, e) && FromSpan(spans, x', e')
    ensures e.0 <= e'.0
  {
    var i :| 0 <= i < |spans| && spans[i].Touches(x) && e == (spans[i].value, spans[i].size);
    var j :| 0 <= j < |spans| && spans[j].Touches(x') && e' == (spans[j].value, spans[j].size);
    assert i <= j;
  }

  function Highest(es: seq<(real, nat)>): (h: real)
    requires es != []
    ensures forall k :: 0 <= k < |es| ==> es[k].0 <= h
    ensures exists k :: 0 <= k < |es| && es[k].0 == h
  {
    if |es| == 1 then es[0].0
    else
      var h := Highest(es[..|es|-1]);
      if h < es[|es|-1].0 then es[|es|-1].0 else h
  }

  function Lowest(es: seq<(real, nat)>): (h: real)
    requires es != []
    ensures forall k :: 0 <= k < |es| ==> h <= es[k].0
    ensures exists k :: 0 <= k < |es| && es[k].0 == h
  {
    if |es| == 1 then es[0].0
    else
      var h := Lowest(es[..|es|-1]);
      if es[|es|-1].0 < h then es[|es|-1].0 else h
  }

  lemma StepsRise(spans: seq<Span>, x: real, y: real, x': real, y': real)
    requires Chained(spans) && Rising(spans) && x < x'
    requires MeanAt(spans, x, y) && MeanAt(spans, x', y')
    ensures y <= y'
  {
    var es, es' := EntriesAt(spans, x), EntriesAt(spans, x');
    var h, l := Highest(es), Lowest(es');
    var i :| 0 <= i < |es| && es[i].0 == h;
    var j :| 0 <= j < |es'| && es'[j].0 == l;
    EntrySpans(spans, x, i);
    EntrySpans(spans, x', j);
    EntriesRise(spans, x, x', es[i], es'[j]);
    MeanBounds(es, Lowest(es), h);
    MeanBounds(es', l, Highest(es'));
  }

  lemma BlockValueInUnit(b: Block)
    requires BlockOk(b)
    ensures 0.0 <= b.Value() <= 1.0
  {
    HitsBounds(b.outcomes);
    QuotientBounds(b.sumO, b.n as real, 0.0, 1.0);
  }

  ghost predicate UnitValues(spans: seq<Span>) {
    forall i :: 0 <= i < |spans| ==> 0.0 <= spans[i].value <= 1.0
  }

  /** Strictly increasing x, non-decreasing y in [0, 1], also where blocks share an x. */
  lemma StepsAreACalibrator(spans: seq<Span>, steps: seq<Step>)
    requires Chained(spans) && Rising(spans) && UnitValues(spans) && StepsOf(spans, steps)
    ensures CalibratorOk(steps)
  {
    forall i, j | 0 <= i < j < |steps| ensures steps[i].1 <= steps[j].1 {
      StepsRise(spans, steps[i].0, steps[i].1, steps[j].0, steps[j].1);
    }
    forall i | 0 <= i < |steps| ensures 0.0 <= steps[i].1 <= 1.0 {
      StepInUnit(spans, steps[i].0, steps[i].1);
    }
  }

  lemma StepInUnit(spans: seq<Span>, x: real, y: real)
    requires UnitValues(spans) && MeanAt(spans, x, y)
    ensures 0.0 <= y <= 1.0
  {
    var es := EntriesAt(spans, x);
    forall k | 0 <= k < |es| ensures 0.0 <= es[k].0 <= 1.0 {
      EntrySpans(spans, x, k);
    }
    MeanBounds(es, 0.0, 1.0);
  }

  lemma {:induction false} PooledChains(blocks: seq<Block>)
    requires AllOk(blocks) && NonDecreasing(Preds(blocks))
    ensures NonEmptyBlocks(blocks) && Chained(Spans(blocks))
    ensures blocks != [] ==> Preds(blocks) != [] && Preds(blocks)[|Preds(blocks)|-1] == Spans(blocks)[|blocks|-1].last
  {
    hide BlockOk, Block.Value, Chained;
    SameLength(blocks);
    if blocks == [] {
      NoSpans();
    } else {
      var init, b := blocks[..|blocks|-1], blocks[|blocks|-1];
      var p, q := Preds(init), b.preds;
      assert forall i :: 0 <= i < |p| ==> (p + q)[i] == p[i];
      PooledChains(init);
      assert (p + q)[|p|] == q[0] && (p + q)[|p + q|-1] == q[|q|-1];
      if init != [] {
        assert (p + q)[|p|-1] == p[|p|-1];
      }
      PushChained(Spans(init), SpanOf(b));
      assert Spans(blocks) == Spans(init) + [SpanOf(b)];
    }
  }

  lemma NoSpans()
    ensures Chained([])
  {
  }

  lemma PushChained(spans: seq<Span>, b: Span)
    requires Chained(spans) && b.size > 0 && b.first <= b.last
    requires spans != [] ==> spans[|spans|-1].last <= b.first
    ensures Chained(spans + [b])
  {
    forall i | 0 <= i < |spans| ensures spans[i].last <= b.first {
      if i < |spans| - 1 {
        assert spans[i].last <= spans[|spans|-1].first <= spans[|spans|-1].last;
      }
    }
  }

  lemma PooledSpans(blocks: seq<Block>)
    requires AllOk(blocks) && ValuesRise(blocks) && NonEmptyBlocks(blocks)
    ensures Rising(Spans(blocks)) && UnitValues(Spans(blocks))
  {
    forall i | 0 <= i < |blocks| ensures 0.0 <= Spans(blocks)[i].value <= 1.0 {
      BlockValueInUnit(blocks[i]);
    }
  }

  /**
   * fit_isotonic.  Missing outcomes are an error (the source indexes past the end of the list);
   * surplus outcomes are ignored.
   */
  method FitIsotonic(preds: seq<real>, outcomes: seq<bool>) returns (r: Result<seq<Step>>, ghost blocks: seq<Block>)
    ensures r.Ok? <==> |preds| <= |outcomes|
    ensures r.Ok? ==>
      && var order := Ranking(preds, |preds|);
      && Pooled(blocks, Pick(preds, order), Pick(outcomes, order))
      && NonEmptyBlocks(blocks)
      && StepsOf(Spans(blocks), r.value)
      && CalibratorOk(r.value)
      && (r.value == [] <==> preds == [])
      && (forall a, b :: 0 <= a < b < |order| ==>
            preds[order[a]] < preds[order[b]] || (preds[order[a]] == preds[order[b]] && order[a] < order[b]))
  {
    blocks := [];
    if |outcomes| < |preds| {
      return Err("list index out of range"), blocks;
    }
    var order := Ranking(preds, |preds|);
    var xs, os := Pick(preds, order), Pick(outcomes, order);
    var stack := PoolAdjacent(xs, os);
    blocks := stack;
    SortedPick(preds, order);
    PooledChains(stack);
    var steps := CollectSteps(stack);
    PooledSpans(stack);
    StepsAreACalibrator(Spans(stack), steps);
    FittedLength(stack);
    r := Ok(steps);
  }

  lemma SortedPick(preds: seq<real>, order: seq<nat>)
    requires StableOrder(preds, |preds|, order)
    ensures NonDecreasing(Pick(preds, order))
  {
    var xs := Pick(preds, order);
    forall i, j | 0 <= i <= j < |xs| ensures xs[i] <= xs[j] {
      if i < j {
        assert order[i] < |preds| && order[j] < |preds| && Precedes(preds, order[i], order[j]);
      }
    }
  }

  // ----- Applying the calibrator -----

  function ClampUnit(y: real): real {
    if y < 0.0 then 0.0 else if y > 1.0 then 1.0 else y
  }

  /** Number of leading steps that lie strictly below p. */
  function Position(steps: seq<Step>, p: real): (k: nat)
    ensures k <= |steps|
    ensures forall i :: 0 <= i < k ==> steps[i].0 < p
    ensures k < |steps| ==> p <= steps[k].0
  {
    if steps == [] || p <= steps[0].0 then 0 else 1 + Position(steps[1..], p)
  }

  /** The mean of the last step below p and the first step at or above it, ends repeated. */
  function Level(steps: seq<Step>, p: real): real
    requires steps != []
  {
    var k := Position(steps, p);
    var lo := steps[if k == 0 then 0 else k - 1].1;
    var hi := steps[if k == |steps| then k - 1 else k].1;
    ClampUnit((lo + hi) / 2.0)
  }

  /** IsotonicCalibrator.apply; an empty calibrator raises. */
  method Apply(steps: seq<Step>, p: real) returns (r: Result<real>)
    ensures r == if steps == [] then Err("list index out of range") else Ok(Level(steps, p))
  {
    if steps == [] {
      return Err("list index out of range");
    }
    var lo, hi := steps[0].1, steps[|steps|-1].1;
    var i := 0;
    while i < |steps|
      invariant 0 <= i <= |steps|
      invariant forall j :: 0 <= j < i ==> steps[j].0 < p
      invariant lo == steps[if i == 0 then 0 else i - 1].1
      invariant hi == steps[|steps|-1].1
    {
      if p <= steps[i].0 {
        hi := steps[i].1;
        break;
      }
      lo := steps[i].1;
      i := i + 1;
    }
    assert i == Position(steps, p);
    r := Ok(ClampUnit((lo + hi) / 2.0));
  }

  /** Between two steps, and at the upper one, the level is midway between the two. */
  lemma LevelIsMidway(steps: seq<Step>, p: real, i: nat)
    requires steps != [] && CalibratorOk(steps) && i <= |steps|
    requires i > 0 ==> steps[i-1].0 < p
    requires i < |steps| ==> p <= steps[i].0
    ensures 0 < i < |steps| ==> Level(steps, p) - steps[i-1].1 == steps[i].1 - Level(steps, p)
    ensures i == 0 ==> Level(steps, p) == steps[0].1
    ensures i == |steps| ==> Level(steps, p) == steps[|steps|-1].1
  {
    assert i > 0 ==> forall j :: 0 <= j < i ==> steps[j].0 <= steps[i-1].0;
    assert Position(steps, p) == i;
  }

  /** A calibrator never reorders two probabilities. */
  lemma LevelMonotone(steps: seq<Step>, p: real, q: real)
    requires steps != [] && CalibratorOk(steps) && p <= q
    ensures 0.0 <= Level(steps, p) <= Level(steps, q) <= 1.0
  {
    var k, k' := Position(steps, p), Position(steps, q);
    assert k <= k';
  }
}
