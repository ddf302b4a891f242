/**
 * The pool-adjacent-violators fit of src/predictor/calibration/isotonic.py, over exact reals.
 *
 * PoolAdjacent builds the stack of blocks; Calibrator turns it into steps and looks them up.
 */
module Isotonic {
  // ----- Outcomes, blocks, squared error -----

  function Bit(o: bool): real {
    if o then 1.0 else 0.0
  }

  /** Number of true outcomes, as a real. */
  function Hits(os: seq<bool>): real {
    if os == [] then 0.0 else Hits(os[..|os|-1]) + Bit(os[|os|-1])
  }

  /** How far the outcomes exceed the constant v in total. */
  ghost function Surplus(os: seq<bool>, v: real): real {
    if os == [] then 0.0 else Surplus(os[..|os|-1], v) + (Bit(os[|os|-1]) - v)
  }

  lemma {:induction false} SurplusIsHitsLess(os: seq<bool>, v: real)
    ensures Surplus(os, v) == Hits(os) - |os| as real * v
  {
    if os != [] {
      SurplusIsHitsLess(os[..|os|-1], v);
    }
  }

  lemma {:induction false} SurplusConcat(a: seq<bool>, b: seq<bool>, v: real)
    ensures Surplus(a + b, v) == Surplus(a, v) + Surplus(b, v)
  {
    if b == [] {
      assert a + b == a;
    } else {
      SurplusConcat(a, b[..|b|-1], v);
      assert (a + b)[..|a + b|-1] == a + b[..|b|-1];
    }
  }

  lemma {:induction false} SurplusFalls(os: seq<bool>, u: real, v: real)
    requires u <= v
    ensures Surplus(os, u) >= Surplus(os, v)
    ensures os != [] && u < v ==> Surplus(os, u) > Surplus(os, v)
  {
    if os != [] {
      SurplusFalls(os[..|os|-1], u, v);
    }
  }

  lemma {:induction false} HitsConcat(a: seq<bool>, b: seq<bool>)
    ensures Hits(a + b) == Hits(a) + Hits(b)
  {
    SurplusIsHitsLess(a, 0.0);
    SurplusIsHitsLess(b, 0.0);
    SurplusIsHitsLess(a + b, 0.0);
    SurplusConcat(a, b, 0.0);
  }

  lemma {:induction false} HitsBounds(os: seq<bool>)
    ensures 0.0 <= Hits(os) <= |os| as real
  {
    if os != [] {
      HitsBounds(os[..|os|-1]);
    }
  }

  datatype Block = Block(sumP: real, sumO: real, n: nat, preds: seq<real>, outcomes: seq<bool>) {
    function Value(): real {
      if n != 0 then sumO / n as real else 0.0
    }
  }

  /** Every prefix has a mean of at least v: its surplus over v is never negative. */
  ghost predicate PrefixesExceed(os: seq<bool>, v: real) {
    forall k :: 0 <= k <= |os| ==> Surplus(os[..k], v) >= 0.0
  }

  /** Every proper prefix even has a mean above v. */
  ghost predicate PrefixesAbove(os: seq<bool>, v: real) {
    forall k :: 0 < k < |os| ==> Surplus(os[..k], v) > 0.0
  }

  /** A sum of predictions. */
  ghost function Sum(xs: seq<real>): real {
    if xs == [] then 0.0 else Sum(xs[..|xs|-1]) + xs[|xs|-1]
  }

  lemma {:induction false} SumConcat(a: seq<real>, b: seq<real>)
    ensures Sum(a + b) == Sum(a) + Sum(b)
  {
    if b == [] {
      assert a + b == a;
    } else {
      SumConcat(a, b[..|b|-1]);
      assert (a + b)[..|a + b|-1] == a + b[..|b|-1];
    }
  }

  ghost predicate BlockOk(b: Block) {
    && 0 < b.n == |b.preds| == |b.outcomes|
    && b.sumP == Sum(b.preds) && b.sumO == Hits(b.outcomes)
    && PrefixesExceed(b.outcomes, b.Value())
    && PrefixesAbove(b.outcomes, b.Value())
  }

  /** A block's value is the mean of its outcomes. */
  lemma ValueBalances(b: Block)
    requires 0 < b.n == |b.outcomes| && b.sumO == Hits(b.outcomes)
    ensures Surplus(b.outcomes, b.Value()) == 0.0
  {
    SurplusIsHitsLess(b.outcomes, b.Value());
    DivTimes(b.sumO, b.n as real);
  }

  lemma {:induction false} HitsCountsTrue(os: seq<bool>)
    ensures Hits(os) == multiset(os)[true] as real
  {
    if os != [] {
      HitsCountsTrue(os[..|os|-1]);
      assert os == os[..|os|-1] + [os[|os|-1]];
    }
  }

  /** A block's value is the share of its samples whose event happened. */
  lemma ValueIsFrequency(b: Block)
    requires BlockOk(b)
    ensures Product(b.Value(), b.n as real) == multiset(b.outcomes)[true] as real
  {
    HitsCountsTrue(b.outcomes);
    DivTimes(b.sumO, b.n as real);
  }

  lemma DivTimes(a: real, b: real)
    requires b != 0.0
    ensures b * (a / b) == a
  {
  }

  function Merge(b1: Block, b2: Block): Block {
    Block(b1.sumP + b2.sumP, b1.sumO + b2.sumO, b1.n + b2.n, b1.preds + b2.preds, b1.outcomes + b2.outcomes)
  }

  /** The merged value lies strictly between the two merged values. */
  lemma MergedBetween(a: seq<bool>, b: seq<bool>, v1: real, v2: real, v: real)
    requires a != [] && b != [] && v1 > v2
    requires Surplus(a, v1) == 0.0 && Surplus(b, v2) == 0.0 && Surplus(a + b, v) == 0.0
    ensures v2 < v < v1
  {
    SurplusConcat(a, b, v);
    if v >= v1 {
      SurplusFalls(a, v1, v);
      SurplusFalls(b, v2, v);
      assert false;
    }
    if v <= v2 {
      SurplusFalls(a, v, v1);
      SurplusFalls(b, v, v2);
      assert false;
    }
  }

  lemma MergedPrefixes(a: seq<bool>, b: seq<bool>, v1: real, v2: real, v: real)
    requires a != [] && b != [] && v1 > v2
    requires Surplus(a, v1) == 0.0 && Surplus(b, v2) == 0.0 && Surplus(a + b, v) == 0.0
    requires PrefixesExceed(a, v1) && PrefixesExceed(b, v2)
    ensures PrefixesExceed(a + b, v) && PrefixesAbove(a + b, v)
  {
    MergedBetween(a, b, v1, v2, v);
    assert (a + b)[..|a + b|] == a + b;
    forall k | 0 <= k < |a + b|
      ensures if k == 0 then Surplus((a + b)[..k], v) == 0.0 else Surplus((a + b)[..k], v) > 0.0
    {
      if k <= |a| {
        assert (a + b)[..k] == a[..k];
        SurplusFalls(a[..k], v, v1);
      } else {
        // what is left of b after the prefix is worth no more at v than at v2
        var j := k - |a|;
        assert (a + b)[..k] == a + b[..j] && b == b[..j] + b[j..];
        assert a + b == (a + b[..j]) + b[j..];
        SurplusConcat(a + b[..j], b[j..], v);
        SurplusConcat(b[..j], b[j..], v2);
        SurplusFalls(b[j..], v2, v);
      }
    }
  }

  /** Merging a violating pair keeps the prefix property on which optimality rests. */
  lemma MergeKeepsBlockOk(b1: Block, b2: Block)
    requires BlockOk(b1) && BlockOk(b2) && b1.Value() > b2.Value()
    ensures BlockOk(Merge(b1, b2))
  {
    HitsConcat(b1.outcomes, b2.outcomes);
    SumConcat(b1.preds, b2.preds);
    ValueBalances(b1);
    ValueBalances(b2);
    ValueBalances(Merge(b1, b2));
    MergedPrefixes(b1.outcomes, b2.outcomes, b1.Value(), b2.Value(), Merge(b1, b2).Value());
  }

  // ----- The pooled stack -----

  predicate NonDecreasing(z: seq<real>) {
    forall i, j :: 0 <= i <= j < |z| ==> z[i] <= z[j]
  }

  function Preds(blocks: seq<Block>): seq<real> {
    if blocks == [] then [] else Preds(blocks[..|blocks|-1]) + blocks[|blocks|-1].preds
  }

  function Outcomes(blocks: seq<Block>): seq<bool> {
    if blocks == [] then [] else Outcomes(blocks[..|blocks|-1]) + blocks[|blocks|-1].outcomes
  }

  /** The fitted sequence: each block's value once for each of its samples. */
  function Fitted(blocks: seq<Block>): seq<real> {
    if blocks == [] then []
    else Fitted(blocks[..|blocks|-1]) + Constant(blocks[|blocks|-1].Value(), blocks[|blocks|-1].n)
  }

  function Constant(v: real, n: nat): (z: seq<real>)
    ensures |z| == n && forall y <- z :: y == v
  {
    if n == 0 then [] else Constant(v, n - 1) + [v]
  }

  ghost predicate AllOk(blocks: seq<Block>) {
    forall i :: 0 <= i < |blocks| ==> BlockOk(blocks[i])
  }

  ghost predicate ValuesRise(blocks: seq<Block>) {
    forall i, j :: 0 <= i <= j < |blocks| ==> blocks[i].Value() <= blocks[j].Value()
  }

  /** The stack partitions the sorted samples into good blocks of rising value. */
  ghost predicate Pooled(blocks: seq<Block>, xs: seq<real>, os: seq<bool>) {
    && AllOk(blocks)
    && ValuesRise(blocks)
    && Preds(blocks) == xs
    && Outcomes(blocks) == os
  }

  /** The stack while a new block settles: only its top may be lower than the one below. */
  ghost predicate Settling(blocks: seq<Block>, xs: seq<real>, os: seq<bool>) {
    && |blocks| >= 1
    && AllOk(blocks)
    && ValuesRise(blocks[..|blocks|-1])
    && Preds(blocks) == xs
    && Outcomes(blocks) == os
  }

  /** The block stack of lines 23 to 44, on samples already in sorted order. */
  method PoolAdjacent(xs: seq<real>, os: seq<bool>) returns (blocks: seq<Block>)
    requires |xs| == |os|
    ensures Pooled(blocks, xs, os)
  {
    blocks := [];
    for i := 0 to |xs|
      invariant Pooled(blocks, xs[..i], os[..i])
    {
      PushSettles(blocks, xs, os, i);
      blocks := blocks + [Block(xs[i], Bit(os[i]), 1, [xs[i]], [os[i]])];
      while |blocks| >= 2 && blocks[|blocks|-2].Value() > blocks[|blocks|-1].Value()
        invariant Settling(blocks, xs[..i+1], os[..i+1])
        decreases |blocks|
      {
        MergeSettles(blocks, xs[..i+1], os[..i+1]);
        var b2 := blocks[|blocks|-1];
        var b1 := blocks[|blocks|-2];
        blocks := blocks[..|blocks|-2] + [Merge(b1, b2)];
      }
      AppendRises(blocks);
    }
    assert xs[..|xs|] == xs && os[..|os|] == os;
  }

  lemma PushSettles(blocks: seq<Block>, xs: seq<real>, os: seq<bool>, i: nat)
    requires |xs| == |os| && i < |xs| && Pooled(blocks, xs[..i], os[..i])
    ensures Settling(blocks + [Block(xs[i], Bit(os[i]), 1, [xs[i]], [os[i]])], xs[..i+1], os[..i+1])
  {
    var b := Block(xs[i], Bit(os[i]), 1, [xs[i]], [os[i]]);
    SingleOk(b, xs[i], os[i]);
    assert (blocks + [b])[..|blocks|] == blocks;
    assert xs[..i] + [xs[i]] == xs[..i+1] && os[..i] + [os[i]] == os[..i+1];
  }

  lemma MergeSettles(blocks: seq<Block>, xs: seq<real>, os: seq<bool>)
    requires Settling(blocks, xs, os) && |blocks| >= 2
    requires blocks[|blocks|-2].Value() > blocks[|blocks|-1].Value()
    ensures Settling(blocks[..|blocks|-2] + [Merge(blocks[|blocks|-2], blocks[|blocks|-1])], xs, os)
  {
    var b1, b2 := blocks[|blocks|-2], blocks[|blocks|-1];
    MergeKeepsBlockOk(b1, b2);
    var base := blocks[..|blocks|-2];
    var m := Merge(b1, b2);
    assert blocks[..|blocks|-1][..|blocks|-2] == base && (base + [m])[..|base|] == base;
    assert Preds(blocks) == Preds(base) + b1.preds + b2.preds;
    assert Outcomes(blocks) == Outcomes(base) + b1.outcomes + b2.outcomes;
  }

  lemma SingleOk(b: Block, x: real, o: bool)
    requires b == Block(x, Bit(o), 1, [x], [o])
    ensures BlockOk(b)
  {
    assert [o][..0] == [] && [o][..1] == [o];
    assert Hits([o]) == Bit(o) && Sum([x]) == x;
    forall k | 0 <= k <= 1 ensures Hits(b.outcomes[..k]) >= k as real * b.Value() {
    }
  }

  lemma AppendRises(blocks: seq<Block>)
    requires |blocks| >= 1 && ValuesRise(blocks[..|blocks|-1])
    requires |blocks| >= 2 ==> blocks[|blocks|-2].Value() <= blocks[|blocks|-1].Value()
    ensures ValuesRise(blocks)
  {
    var base := blocks[..|blocks|-1];
    forall i, j | 0 <= i <= j < |blocks| ensures blocks[i].Value() <= blocks[j].Value() {
      if j < |base| {
        assert base[i].Value() <= base[j].Value();
      } else if i < j {
        assert base[i].Value() <= base[|base|-1].Value();
      }
    }
  }

  // ----- The only such stack -----

  /** What is left of good blocks after a cut is worth no more than the highest block. */
  lemma {:induction false} SuffixBelow(blocks: seq<Block>, j: nat, v: real)
    requires AllOk(blocks) && j <= |Outcomes(blocks)|
    requires forall i :: 0 <= i < |blocks| ==> blocks[i].Value() <= v
    ensures Surplus(Outcomes(blocks)[j..], v) <= 0.0
  {
    if blocks != [] {
      var init, b := blocks[..|blocks|-1], blocks[|blocks|-1];
      var p, k := Outcomes(init), if j < |Outcomes(init)| then 0 else j - |Outcomes(init)|;
      TailBelow(b, k, v);
      if j < |p| {
        SuffixBelow(init, j, v);
        assert (p + b.outcomes)[j..] == p[j..] + b.outcomes[0..];
        SurplusConcat(p[j..], b.outcomes[0..], v);
      } else {
        assert (p + b.outcomes)[j..] == b.outcomes[k..];
      }
    }
  }

  lemma TailBelow(b: Block, k: nat, v: real)
    requires BlockOk(b) && b.Value() <= v && k <= |b.outcomes|
    ensures Surplus(b.outcomes[k..], v) <= 0.0
  {
    ValueBalances(b);
    assert b.outcomes == b.outcomes[..k] + b.outcomes[k..];
    SurplusConcat(b.outcomes[..k], b.outcomes[k..], b.Value());
    SurplusFalls(b.outcomes[k..], b.Value(), v);
  }

  /** Neither of two such stacks has a longer last block. */
  lemma LastBlockNotLonger(blocks: seq<Block>, others: seq<Block>, xs: seq<real>, os: seq<bool>)
    requires Pooled(blocks, xs, os) && Pooled(others, xs, os) && blocks != [] && others != []
    ensures blocks[|blocks|-1].n <= others[|others|-1].n
  {
    var b, c, rest := blocks[|blocks|-1], others[|others|-1], others[..|others|-1];
    if b.n > c.n {
      // c is the end of b, and the part of b before c is covered by lower blocks of the other stack
      var k, p := b.n - c.n, Outcomes(rest);
      var start := |p| - k;
      assert Outcomes(blocks) == Outcomes(blocks[..|blocks|-1]) + b.outcomes == p + c.outcomes;
      assert b.outcomes == os[|os|-b.n..] && b.outcomes[..k] == p[start..] && b.outcomes[k..] == c.outcomes;
      assert b.outcomes == b.outcomes[..k] + c.outcomes;
      ValueBalances(b);
      ValueBalances(c);
      SurplusConcat(b.outcomes[..k], c.outcomes, b.Value());
      assert Surplus(b.outcomes[..k], b.Value()) > 0.0;
      if c.Value() >= b.Value() {
        SurplusFalls(c.outcomes, b.Value(), c.Value());
        assert false;
      }
      SuffixBelow(rest, start, c.Value());
      SurplusFalls(b.outcomes[..k], c.Value(), b.Value());
    }
  }

  /** A pooled stack without its last block is pooled over the samples before it. */
  lemma DropLast(blocks: seq<Block>, xs: seq<real>, os: seq<bool>)
    requires Pooled(blocks, xs, os) && blocks != []
    ensures var b := blocks[|blocks|-1];
      && |xs| == |os| && b.n <= |os| && BlockOk(b)
      && b.preds == xs[|xs|-b.n..] && b.outcomes == os[|os|-b.n..]
      && Pooled(blocks[..|blocks|-1], xs[..|xs|-b.n], os[..|os|-b.n])
  {
    hide BlockOk, Block.Value;
    var init := blocks[..|blocks|-1];
    SameLength(blocks);
    SameLength(init);
  }

  lemma {:induction false} SameLength(blocks: seq<Block>)
    requires AllOk(blocks)
    ensures |Preds(blocks)| == |Outcomes(blocks)|
    ensures forall i :: 0 <= i < |blocks| ==> blocks[i].n == |blocks[i].preds| == |blocks[i].outcomes| > 0
    ensures blocks != [] ==> Preds(blocks) != []
  {
    if blocks != [] {
      SameLength(blocks[..|blocks|-1]);
    }
  }

  lemma SameBlock(b: Block, c: Block)
    requires BlockOk(b) && BlockOk(c) && b.preds == c.preds && b.outcomes == c.outcomes
    ensures b == c
  {
  }

  /** Good blocks of rising value over the same samples are the same blocks. */
  lemma {:induction false} PooledIsUnique(blocks: seq<Block>, others: seq<Block>, xs: seq<real>, os: seq<bool>)
    requires Pooled(blocks, xs, os) && Pooled(others, xs, os)
    ensures blocks == others
  {
    hide BlockOk, Pooled;
    if blocks == [] || others == [] {
      NoSamples(blocks, xs, os);
      NoSamples(others, xs, os);
    } else {
      LastBlockNotLonger(blocks, others, xs, os);
      LastBlockNotLonger(others, blocks, xs, os);
      DropLast(blocks, xs, os);
      DropLast(others, xs, os);
      var b, c := blocks[|blocks|-1], others[|others|-1];
      SameBlock(b, c);
      PooledIsUnique(blocks[..|blocks|-1], others[..|others|-1], xs[..|xs|-b.n], os[..|os|-b.n]);
      assert blocks == blocks[..|blocks|-1] + [b] && others == others[..|others|-1] + [c];
    }
  }

  lemma NoSamples(blocks: seq<Block>, xs: seq<real>, os: seq<bool>)
    requires Pooled(blocks, xs, os)
    ensures blocks == [] <==> xs == []
  {
    SameLength(blocks);
  }

  // ----- Least-squares optimality -----

  function Product(a: real, b: real): real {
    a * b
  }

  function Square(a: real): real {
    Product(a, a)
  }

  lemma ProductPositive(a: real, b: real)
    requires (a > 0.0 && b > 0.0) || (a < 0.0 && b < 0.0)
    ensures Product(a, b) > 0.0
  {
  }

  lemma SquareSign(a: real)
    ensures Square(a) >= 0.0
    ensures a != 0.0 ==> Square(a) > 0.0
  {
    if a != 0.0 {
      ProductPositive(a, a);
    }
  }

  function SquaredError(os: seq<bool>, z: seq<real>): real
    requires |os| == |z|
  {
    if os == [] then 0.0
    else
      var k := |os| - 1;
      SquaredError(os[..k], z[..k]) + Square(Bit(os[k]) - z[k])
  }

  function SquaredDistance(y: seq<real>, z: seq<real>): real
    requires |y| == |z|
  {
    if y == [] then 0.0
    else
      var k := |y| - 1;
      SquaredDistance(y[..k], z[..k]) + Square(y[k] - z[k])
  }

  /** The inner product of the residuals of the constant v with the shift z - v. */
  function Cross(os: seq<bool>, v: real, z: seq<real>): real
    requires |os| == |z|
  {
    if os == [] then 0.0
    else
      var k := |os| - 1;
      Cross(os[..k], v, z[..k]) + Product(Bit(os[k]) - v, z[k] - v)
  }

  lemma SquareOfShift(o: real, v: real, t: real)
    ensures Square(o - t) == Square(o - v) - 2.0 * Product(o - v, t - v) + Square(v - t)
  {
  }

  lemma ConstantStep(os: seq<bool>, v: real, z: seq<real>)
    requires |os| == |z| > 0
    ensures var k := |os| - 1;
      && SquaredError(os, Constant(v, k + 1)) == SquaredError(os[..k], Constant(v, k)) + Square(Bit(os[k]) - v)
      && SquaredDistance(Constant(v, k + 1), z) == SquaredDistance(Constant(v, k), z[..k]) + Square(v - z[k])
  {
    hide Square, Bit, SquaredError, SquaredDistance, Constant;
    var k := |os| - 1;
    var c := Constant(v, k + 1);
    ConstantShape(v, k);
    ErrorStep(os, c);
    DistanceStep(c, z);
  }

  lemma ConstantShape(v: real, k: nat)
    ensures Constant(v, k + 1)[..k] == Constant(v, k) && Constant(v, k + 1)[k] == v
  {
  }

  lemma ErrorStep(os: seq<bool>, z: seq<real>)
    requires |os| == |z| > 0
    ensures var k := |os| - 1; SquaredError(os, z) == SquaredError(os[..k], z[..k]) + Square(Bit(os[k]) - z[k])
  {
  }

  lemma DistanceStep(y: seq<real>, z: seq<real>)
    requires |y| == |z| > 0
    ensures var k := |y| - 1; SquaredDistance(y, z) == SquaredDistance(y[..k], z[..k]) + Square(y[k] - z[k])
  {
  }

  lemma {:induction false} ExpandSquare(os: seq<bool>, v: real, z: seq<real>)
    requires |os| == |z|
    ensures SquaredError(os, z)
         == SquaredError(os, Constant(v, |os|)) - 2.0 * Cross(os, v, z) + SquaredDistance(Constant(v, |os|), z)
  {
    if os != [] {
      var k := |os| - 1;
      ConstantStep(os, v, z);
      ExpandSquare(os[..k], v, z[..k]);
      SquareOfShift(Bit(os[k]), v, z[k]);
    }
  }

  lemma CrossStep(c: real, s: real, d: real, a: real, b: real)
    requires c <= Product(s, a) && s >= 0.0 && a <= b
    ensures c + Product(d, b) <= Product(s + d, b)
  {
    assert s * a <= s * b;
  }

  /** Summation by parts: surpluses of prefixes bound the cross term by the last shift. */
  lemma {:induction false} CrossBound(os: seq<bool>, v: real, z: seq<real>)
    requires |os| == |z| > 0 && NonDecreasing(z) && PrefixesExceed(os, v)
    ensures Cross(os, v, z) <= Product(Surplus(os, v), z[|z|-1] - v)
  {
    var k := |os| - 1;
    if k == 0 {
      assert Cross(os[..0], v, z[..0]) == 0.0 && Surplus(os[..0], v) == 0.0;
    } else {
      assert Surplus(os[..k], v) >= 0.0;
      forall j | 0 <= j <= k ensures Surplus(os[..k][..j], v) >= 0.0 {
        assert os[..k][..j] == os[..j];
      }
      CrossBound(os[..k], v, z[..k]);
      CrossStep(Cross(os[..k], v, z[..k]), Surplus(os[..k], v), Bit(os[k]) - v, z[k-1] - v, z[k] - v);
    }
  }

  /** On one block no non-decreasing sequence beats the block's constant value. */
  lemma BlockOptimal(os: seq<bool>, v: real, z: seq<real>)
    requires |os| == |z| > 0 && NonDecreasing(z) && PrefixesExceed(os, v) && Surplus(os, v) == 0.0
    ensures SquaredError(os, z) >= SquaredError(os, Constant(v, |os|)) + SquaredDistance(Constant(v, |os|), z)
  {
    ExpandSquare(os, v, z);
    CrossBound(os, v, z);
    assert Product(0.0, z[|z|-1] - v) == 0.0;
  }

  lemma {:induction false} SquaredErrorConcat(os: seq<bool>, os': seq<bool>, z: seq<real>, z': seq<real>)
    requires |os| == |z| && |os'| == |z'|
    ensures SquaredError(os + os', z + z') == SquaredError(os, z) + SquaredError(os', z')
  {
    if os' == [] {
      assert os + os' == os && z + z' == z;
    } else {
      var k := |os'| - 1;
      SquaredErrorConcat(os, os'[..k], z, z'[..k]);
      assert (os + os')[..|os|+k] == os + os'[..k] && (z + z')[..|z|+k] == z + z'[..k];
    }
  }

  lemma {:induction false} SquaredDistanceConcat(y: seq<real>, y': seq<real>, z: seq<real>, z': seq<real>)
    requires |y| == |z| && |y'| == |z'|
    ensures SquaredDistance(y + y', z + z') == SquaredDistance(y, z) + SquaredDistance(y', z')
  {
    if y' == [] {
      assert y + y' == y && z + z' == z;
    } else {
      var k := |y'| - 1;
      SquaredDistanceConcat(y, y'[..k], z, z'[..k]);
      assert (y + y')[..|y|+k] == y + y'[..k] && (z + z')[..|z|+k] == z + z'[..k];
    }
  }

  lemma {:induction false} FittedLength(blocks: seq<Block>)
    requires AllOk(blocks)
    ensures |Fitted(blocks)| == |Outcomes(blocks)| == |Preds(blocks)|
  {
    if blocks != [] {
      FittedLength(blocks[..|blocks|-1]);
    }
  }

  /** The stack's values are least squares, with a margin that makes them the only minimiser. */
  lemma {:induction false} FitIsOptimal(blocks: seq<Block>, z: seq<real>)
    requires AllOk(blocks)
    requires |z| == |Outcomes(blocks)| && NonDecreasing(z)
    ensures |Fitted(blocks)| == |z|
    ensures SquaredError(Outcomes(blocks), z)
         >= SquaredError(Outcomes(blocks), Fitted(blocks)) + SquaredDistance(Fitted(blocks), z)
  {
    FittedLength(blocks);
    if blocks != [] {
      var init, b := blocks[..|blocks|-1], blocks[|blocks|-1];
      FittedLength(init);
      var m := |Outcomes(init)|;
      FitIsOptimal(init, z[..m]);
      ValueBalances(b);
      BlockOptimal(b.outcomes, b.Value(), z[m..]);
      assert z[..m] + z[m..] == z;
      var c := Constant(b.Value(), b.n);
      SquaredErrorConcat(Outcomes(init), b.outcomes, z[..m], z[m..]);
      SquaredErrorConcat(Outcomes(init), b.outcomes, Fitted(init), c);
      SquaredDistanceConcat(Fitted(init), c, z[..m], z[m..]);
    }
  }

  /** The fitted sequence is itself non-decreasing, so the optimum above is attained. */
  lemma {:induction false} FitIsFeasible(blocks: seq<Block>)
    requires AllOk(blocks) && ValuesRise(blocks)
    ensures NonDecreasing(Fitted(blocks))
    ensures blocks != [] ==> forall y <- Fitted(blocks) :: y <= blocks[|blocks|-1].Value()
  {
    if blocks != [] {
      var init, b := blocks[..|blocks|-1], blocks[|blocks|-1];
      FitIsFeasible(init);
      var y, c := Fitted(init), Constant(b.Value(), b.n);
      forall i, j | 0 <= i <= j < |y + c| ensures (y + c)[i] <= (y + c)[j] {
        if j < |y| {
          assert y[i] <= y[j];
        } else {
          assert (y + c)[j] == c[j - |y|] && c[j - |y|] in c;
          if i < |y| {
            assert y[i] in y && y[i] <= init[|init|-1].Value() <= b.Value();
          } else {
            assert (y + c)[i] == c[i - |y|] && c[i - |y|] in c;
          }
        }
      }
    }
  }

  lemma {:induction false} DistanceNonNegative(y: seq<real>, z: seq<real>)
    requires |y| == |z|
    ensures SquaredDistance(y, z) >= 0.0
  {
    if y != [] {
      var k := |y| - 1;
      SquareSign(y[k] - z[k]);
      DistanceNonNegative(y[..k], z[..k]);
    }
  }

  lemma {:induction false} ZeroDistance(y: seq<real>, z: seq<real>)
    requires |y| == |z| && SquaredDistance(y, z) <= 0.0
    ensures y == z
  {
    if y != [] {
      var k := |y| - 1;
      SquareSign(y[k] - z[k]);
      DistanceNonNegative(y[..k], z[..k]);
      ZeroDistance(y[..k], z[..k]);
      assert y == y[..k] + [y[k]] && z == z[..k] + [z[k]];
    }
  }

  /** The fit is the unique least-squares non-decreasing sequence for the sorted outcomes. */
  lemma PooledIsTheLeastSquaresFit(blocks: seq<Block>, xs: seq<real>, os: seq<bool>, z: seq<real>)
    requires Pooled(blocks, xs, os) && |z| == |os| && NonDecreasing(z)
    ensures |Fitted(blocks)| == |os| && NonDecreasing(Fitted(blocks))
    ensures SquaredError(os, Fitted(blocks)) <= SquaredError(os, z)
    ensures SquaredError(os, z) <= SquaredError(os, Fitted(blocks)) ==> z == Fitted(blocks)
  {
    FitIsOptimal(blocks, z);
    FitIsFeasible(blocks);
    DistanceNonNegative(Fitted(blocks), z);
    if SquaredError(os, z) <= SquaredError(os, Fitted(blocks)) {
      ZeroDistance(Fitted(blocks), z);
    }
  }
}
