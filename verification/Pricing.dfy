/**
 * The bracket-to-tier compiler of shell/pi/packages/ai/scripts/ai-gateway-pricing.ts and the tier
 * lookup of shell/pi/packages/ai/src/models.ts.  The conversion to dollars per million is a parameter.
 */
module Pricing {
  import opened Wrappers

  datatype Price = Text(text: string) | Number(number: real)

  /** `min` is inclusive, `max` exclusive. */
  datatype Bracket = Bracket(cost: Option<Price>, min: Option<int>, max: Option<int>)

  datatype Field = Input | Output | CacheRead | CacheWrite

  const FIELDS := [Input, Output, CacheRead, CacheWrite]

  datatype Pricing = Pricing(
    input: Option<Price>, output: Option<Price>, inputCacheRead: Option<Price>, inputCacheWrite: Option<Price>,
    inputTiers: Option<seq<Bracket>>, outputTiers: Option<seq<Bracket>>,
    cacheReadTiers: Option<seq<Bracket>>, cacheWriteTiers: Option<seq<Bracket>>)

  datatype Rates = Rates(inputRate: real, outputRate: real, cacheReadRate: real, cacheWriteRate: real)
  datatype Tier = Tier(inputTokensAbove: int, rates: Rates)
  datatype Cost = Cost(base: Rates, tiers: seq<Tier>)

  type PerMillion = Option<Price> -> real

  /** No pricing at all reads as a pricing without prices and brackets. */
  function Given(p: Option<Pricing>): Pricing {
    if p.Some? then p.value else Pricing(None, None, None, None, None, None, None, None)
  }

  function Flat(p: Pricing, f: Field): Option<Price> {
    match f
    case Input => p.input
    case Output => p.output
    case CacheRead => p.inputCacheRead
    case CacheWrite => p.inputCacheWrite
  }

  function Listed(p: Pricing, f: Field): Option<seq<Bracket>> {
    match f
    case Input => p.inputTiers
    case Output => p.outputTiers
    case CacheRead => p.cacheReadTiers
    case CacheWrite => p.cacheWriteTiers
  }

  function Brackets(p: Pricing, f: Field): seq<Bracket> {
    if Listed(p, f).Some? then Listed(p, f).value else []
  }

  function Rate(r: Rates, f: Field): real {
    match f
    case Input => r.inputRate
    case Output => r.outputRate
    case CacheRead => r.cacheReadRate
    case CacheWrite => r.cacheWriteRate
  }

  function WithRate(r: Rates, f: Field, x: real): (changed: Rates)
    ensures forall g :: Rate(changed, g) == if g == f then x else Rate(r, g)
  {
    match f
    case Input => r.(inputRate := x)
    case Output => r.(outputRate := x)
    case CacheRead => r.(cacheReadRate := x)
    case CacheWrite => r.(cacheWriteRate := x)
  }

  function BaseRates(p: Pricing, pm: PerMillion): Rates {
    Rates(pm(p.input), pm(p.output), pm(p.inputCacheRead), pm(p.inputCacheWrite))
  }

  // ----- The simple form: look the prompt length up in the brackets -----

  predicate Contains(b: Bracket, n: int) {
    (if b.min.Some? then b.min.value else 0) <= n && (b.max.None? || n < b.max.value)
  }

  /** Index of the first bracket containing `n`, or the number of brackets. */
  function First(bs: seq<Bracket>, n: int): (i: nat)
    ensures i <= |bs| && (i < |bs| ==> Contains(bs[i], n))
    ensures forall j :: 0 <= j < i ==> !Contains(bs[j], n)
  {
    if bs == [] then 0
    else
      var i := First(bs[..|bs|-1], n);
      assert forall j :: 0 <= j < |bs| - 1 ==> bs[..|bs|-1][j] == bs[j];
      if i < |bs| - 1 || Contains(bs[|bs|-1], n) then i else |bs|
  }

  /** The rate a prompt of `n` tokens has by its brackets. */
  function RateAt(p: Pricing, f: Field, n: int, pm: PerMillion): real {
    var bs, i := Brackets(p, f), First(Brackets(p, f), n);
    if i < |bs| && bs[i].cost.Some? then pm(bs[i].cost) else pm(Flat(p, f))
  }

  ghost predicate IsStart(p: Pricing, x: int) {
    x > 0 && exists f, i :: 0 <= i < |Brackets(p, f)| && Brackets(p, f)[i].min == Some(x)
  }

  // ----- The compiler -----

  method CollectStarts(p: Pricing) returns (starts: set<int>)
    ensures forall x :: x in starts <==> IsStart(p, x)
  {
    starts := {};
    var k := 0;
    while k < |FIELDS|
      invariant 0 <= k <= |FIELDS|
      invariant forall x :: x in starts ==> IsStart(p, x)
      invariant forall g, i :: 0 <= g < k && 0 <= i < |Brackets(p, FIELDS[g])| ==>
        Entered(Brackets(p, FIELDS[g])[i], starts)
    {
      var bs := Brackets(p, FIELDS[k]);
      var n := 0;
      while n < |bs|
        invariant 0 <= n <= |bs|
        invariant forall x :: x in starts ==> IsStart(p, x)
        invariant forall i :: 0 <= i < n ==> Entered(bs[i], starts)
        invariant forall g, i :: 0 <= g < k && 0 <= i < |Brackets(p, FIELDS[g])| ==>
          Entered(Brackets(p, FIELDS[g])[i], starts)
      {
        if bs[n].min.Some? && bs[n].min.value > 0 {
          assert IsStart(p, bs[n].min.value);
          starts := starts + {bs[n].min.value};
        }
        n := n + 1;
      }
      k := k + 1;
    }
    forall x | IsStart(p, x) ensures x in starts {
      var f, i :| 0 <= i < |Brackets(p, f)| && Brackets(p, f)[i].min == Some(x);
      var g := match f case Input => 0 case Output => 1 case CacheRead => 2 case CacheWrite => 3;
      assert FIELDS[g] == f;
      assert Entered(Brackets(p, FIELDS[g])[i], starts);
    }
  }

  predicate Entered(b: Bracket, starts: set<int>) {
    b.min.Some? && b.min.value > 0 ==> b.min.value in starts
  }

  ghost predicate Increasing(s: seq<int>) {
    forall i, j :: 0 <= i < j < |s| ==> s[i] < s[j]
  }

  /** Spreading the set and sorting it numerically. */
  method Sorted(starts: set<int>) returns (s: seq<int>)
    ensures Increasing(s) && forall x :: x in s <==> x in starts
  {
    s := [];
    var rest := starts;
    while rest != {}
      invariant rest <= starts && Increasing(s)
      invariant forall x :: x in s <==> x in starts - rest
      invariant forall i, y :: 0 <= i < |s| && y in rest ==> s[i] < y
      decreases |rest|
    {
      ghost var least := Least(rest);
      var x :| x in rest && forall y :: y in rest ==> x <= y;
      s, rest := s + [x], rest - {x};
    }
  }

  lemma Inhabited<T>(xs: set<T>) returns (a: T)
    requires xs != {}
    ensures a in xs
  {
    a :| a in xs;
  }

  lemma Least(xs: set<int>) returns (x: int)
    requires xs != {}
    ensures x in xs && forall y :: y in xs ==> x <= y
    decreases |xs|
  {
    var a := Inhabited(xs);
    x := a;
    if xs - {a} != {} {
      var b := Least(xs - {a});
      x := if a <= b then a else b;
    }
    assert forall y :: y in xs ==> y == a || y in xs - {a};
  }

  /** What compilation produces: one tier below each start, in order, with the rates at the start. */
  ghost predicate Compiled(cost: Cost, p: Pricing, pm: PerMillion) {
    && cost.base == BaseRates(p, pm)
    && (forall i, j :: 0 <= i < j < |cost.tiers| ==> cost.tiers[i].inputTokensAbove < cost.tiers[j].inputTokensAbove)
    && (forall i :: 0 <= i < |cost.tiers| ==> TierOk(cost.tiers[i], p, pm))
    && (forall x :: IsStart(p, x) ==> HasTier(cost.tiers, x))
  }

  ghost predicate HasTier(tiers: seq<Tier>, x: int) {
    exists i :: 0 <= i < |tiers| && tiers[i].inputTokensAbove == x - 1
  }

  ghost predicate TierOk(t: Tier, p: Pricing, pm: PerMillion) {
    IsStart(p, t.inputTokensAbove + 1) && forall f :: Rate(t.rates, f) == RateAt(p, f, t.inputTokensAbove + 1, pm)
  }

  /** The first bracket containing a start, by search. */
  method FindBracket(bs: seq<Bracket>, start: int) returns (i: nat)
    ensures i == First(bs, start)
  {
    i := 0;
    while i < |bs| && !Contains(bs[i], start)
      invariant 0 <= i <= |bs|
      invariant forall j :: 0 <= j < i ==> !Contains(bs[j], start)
    {
      i := i + 1;
    }
  }

  method CompileTier(p: Pricing, start: int, pm: PerMillion) returns (tier: Tier)
    ensures tier.inputTokensAbove == start - 1
    ensures forall f :: Rate(tier.rates, f) == RateAt(p, f, start, pm)
  {
    hide First, Contains, Brackets, Listed;
    tier := Tier(start - 1, BaseRates(p, pm));
    var k := 0;
    while k < |FIELDS|
      invariant 0 <= k <= |FIELDS| && tier.inputTokensAbove == start - 1
      invariant forall g :: 0 <= g < k ==> Rate(tier.rates, FIELDS[g]) == RateAt(p, FIELDS[g], start, pm)
      invariant forall g :: k <= g < |FIELDS| ==> Rate(tier.rates, FIELDS[g]) == pm(Flat(p, FIELDS[g]))
    {
      var bs := Brackets(p, FIELDS[k]);
      var i := FindBracket(bs, start);
      if i < |bs| && bs[i].cost.Some? {
        tier := tier.(rates := WithRate(tier.rates, FIELDS[k], pm(bs[i].cost)));
      }
      k := k + 1;
    }
    assert FIELDS[0] == Input && FIELDS[1] == Output && FIELDS[2] == CacheRead && FIELDS[3] == CacheWrite;
  }

  /** getAiGatewayCost */
  method GetAiGatewayCost(pricing: Option<Pricing>, pm: PerMillion) returns (cost: Cost)
    ensures Compiled(cost, Given(pricing), pm)
  {
    hide RateAt, Rate, IsStart, First, BaseRates, Given;
    var p := Given(pricing);
    var starts := CollectStarts(p);
    var sorted := Sorted(starts);
    var tiers: seq<Tier> := [];
    while |tiers| < |sorted|
      invariant |tiers| <= |sorted|
      invariant forall i :: 0 <= i < |tiers| ==> tiers[i].inputTokensAbove == sorted[i] - 1 && TierOk(tiers[i], p, pm)
    {
      assert sorted[|tiers|] in sorted;
      var tier := CompileTier(p, sorted[|tiers|], pm);
      tiers := tiers + [tier];
    }
    cost := Cost(BaseRates(p, pm), tiers);
    forall x | IsStart(p, x) ensures HasTier(tiers, x) {
      assert x in sorted;
      var i :| 0 <= i < |sorted| && sorted[i] == x;
      assert tiers[i].inputTokensAbove == x - 1;
    }
  }

  // ----- The lookup -----

  predicate Matches(t: Tier, n: int) {
    -1 < t.inputTokensAbove < n
  }

  /** The rates charged: those of the highest tier below `n`, or the base rates. */
  ghost predicate Charged(cost: Cost, n: int, r: Rates) {
    || (r == cost.base && forall i :: 0 <= i < |cost.tiers| ==> !Matches(cost.tiers[i], n))
    || exists k :: IsMatched(cost.tiers, n, k) && r == cost.tiers[k].rates
  }

  ghost predicate IsMatched(tiers: seq<Tier>, n: int, k: int) {
    && 0 <= k < |tiers| && Matches(tiers[k], n)
    && (forall i :: 0 <= i < |tiers| && Matches(tiers[i], n) ==> tiers[i].inputTokensAbove <= tiers[k].inputTokensAbove)
    && (forall i :: 0 <= i < k && Matches(tiers[i], n) ==> tiers[i].inputTokensAbove < tiers[k].inputTokensAbove)
  }

  /** The tier search of calculateCost. */
  method RatesFor(cost: Cost, inputTokens: int) returns (rates: Rates)
    ensures Charged(cost, inputTokens, rates)
  {
    rates := cost.base;
    var matchedThreshold := -1;
    ghost var at: Option<int> := None;
    var n := 0;
    while n < |cost.tiers|
      invariant 0 <= n <= |cost.tiers|
      invariant (at.None? ==>
        matchedThreshold == -1 && rates == cost.base && forall i :: 0 <= i < n ==> !Matches(cost.tiers[i], inputTokens))
      invariant (at.Some? ==>
        && IsMatched(cost.tiers[..n], inputTokens, at.value) && rates == cost.tiers[at.value].rates
        && matchedThreshold == cost.tiers[at.value].inputTokensAbove)
    {
      var tier := cost.tiers[n];
      if inputTokens > tier.inputTokensAbove && tier.inputTokensAbove > matchedThreshold {
        rates, matchedThreshold := tier.rates, tier.inputTokensAbove;
        at := Some(n);
      }
      assert cost.tiers[..n+1] == cost.tiers[..n] + [tier];
      n := n + 1;
    }
    assert cost.tiers[..n] == cost.tiers;
  }

  // ----- Compilation preserves meaning -----

  /** `s` is the last start up to `n`. */
  ghost predicate LastStart(p: Pricing, s: int, n: int) {
    IsStart(p, s) && s <= n && forall x :: IsStart(p, x) && x <= n ==> x <= s
  }

  /** Every tier stands, for every length it serves, for the bracket found at its start. */
  ghost predicate BracketsKept(p: Pricing) {
    forall f, s, n :: LastStart(p, s, n) ==> First(Brackets(p, f), n) == First(Brackets(p, f), s)
  }

  /** No gap: the bracket found at a start is open-ended, or some start comes before or at its end. */
  ghost predicate NoGap(p: Pricing, f: Field, s: int) {
    var bs, i := Brackets(p, f), First(Brackets(p, f), s);
    i < |bs| && bs[i].max.Some? ==> exists x :: IsStart(p, x) && s < x <= bs[i].max.value
  }

  ghost predicate NoGaps(p: Pricing) {
    forall f, s :: IsStart(p, s) ==> NoGap(p, f, s)
  }

  /** A bracket containing `n` already contained the last start before `n`. */
  lemma ContainedSinceStart(p: Pricing, f: Field, s: int, n: int, j: nat)
    requires LastStart(p, s, n) && j < |Brackets(p, f)| && Contains(Brackets(p, f)[j], n)
    ensures Contains(Brackets(p, f)[j], s)
  {
    var b := Brackets(p, f)[j];
    if b.min.Some? && b.min.value > s {
      assert IsStart(p, b.min.value);
    }
  }

  lemma TierStandsForBracket(p: Pricing, f: Field, s: int, n: int)
    requires LastStart(p, s, n) && NoGap(p, f, s)
    ensures First(Brackets(p, f), n) == First(Brackets(p, f), s)
  {
    var bs, at, from := Brackets(p, f), First(Brackets(p, f), n), First(Brackets(p, f), s);
    if at < |bs| {
      ContainedSinceStart(p, f, s, n, at);
    }
    if from < |bs| {
      assert Contains(bs[from], n);
    }
  }

  /** A gap shows at the end of the bracket. */
  lemma GapShows(p: Pricing, f: Field, s: int)
    requires IsStart(p, s) && !NoGap(p, f, s)
    ensures var bs, i := Brackets(p, f), First(Brackets(p, f), s);
      && i < |bs| && bs[i].max.Some? && LastStart(p, s, bs[i].max.value) && First(bs, bs[i].max.value) != i
  {
    var bs, i := Brackets(p, f), First(Brackets(p, f), s);
    assert Contains(bs[i], s) && !Contains(bs[i], bs[i].max.value);
  }

  /** Compilation keeps every bracket lookup at or above the first start exactly when there is no gap. */
  lemma KeptExactlyWithoutGaps(p: Pricing)
    ensures BracketsKept(p) <==> NoGaps(p)
  {
    if NoGaps(p) {
      forall f, s, n | LastStart(p, s, n) ensures First(Brackets(p, f), n) == First(Brackets(p, f), s) {
        assert NoGap(p, f, s);
        TierStandsForBracket(p, f, s, n);
      }
    }
    if !NoGaps(p) {
      var f, s :| IsStart(p, s) && !NoGap(p, f, s);
      GapShows(p, f, s);
    }
  }

  /** The condition a price list is meant to meet: each finite end is the start of some bracket. */
  ghost predicate EndsAreStarts(p: Pricing) {
    forall f, i :: 0 <= i < |Brackets(p, f)| && Brackets(p, f)[i].max.Some? && Brackets(p, f)[i].max.value > 0
      ==> IsStart(p, Brackets(p, f)[i].max.value)
  }

  lemma EndsAreStartsLeaveNoGap(p: Pricing)
    requires EndsAreStarts(p)
    ensures NoGaps(p)
  {
    forall f, s | IsStart(p, s) ensures NoGap(p, f, s) {
      var bs, i := Brackets(p, f), First(Brackets(p, f), s);
      if i < |bs| && bs[i].max.Some? {
        assert Contains(bs[i], s);
        assert IsStart(p, bs[i].max.value);
      }
    }
  }

  /** Below every start the flat prices are charged. */
  lemma BelowEveryStart(cost: Cost, p: Pricing, pm: PerMillion, n: int, r: Rates)
    requires Compiled(cost, p, pm) && Charged(cost, n, r) && forall x :: IsStart(p, x) ==> n < x
    ensures r == BaseRates(p, pm)
  {
    forall i | 0 <= i < |cost.tiers| ensures !Matches(cost.tiers[i], n) {
      assert TierOk(cost.tiers[i], p, pm);
    }
  }

  lemma StartsArePositive(p: Pricing, s: int)
    requires IsStart(p, s)
    ensures s > 0
  {
  }

  lemma TierOfStart(cost: Cost, p: Pricing, pm: PerMillion, n: int, s: int) returns (i: nat)
    requires Compiled(cost, p, pm) && IsStart(p, s) && s <= n
    ensures i < |cost.tiers| && cost.tiers[i].inputTokensAbove == s - 1 && Matches(cost.tiers[i], n)
  {
    hide IsStart, TierOk;
    assert HasTier(cost.tiers, s);
    i :| 0 <= i < |cost.tiers| && cost.tiers[i].inputTokensAbove == s - 1;
    StartsArePositive(p, s);
  }

  lemma TierIsOk(cost: Cost, p: Pricing, pm: PerMillion, k: nat)
    requires Compiled(cost, p, pm) && k < |cost.tiers|
    ensures TierOk(cost.tiers[k], p, pm)
  {
    hide TierOk, HasTier;
  }

  /** The charged tier is the one compiled for the last start. */
  lemma ChargedAtLastStart(cost: Cost, p: Pricing, pm: PerMillion, n: int, r: Rates, s: int, f: Field)
    requires Compiled(cost, p, pm) && Charged(cost, n, r) && LastStart(p, s, n)
    ensures Rate(r, f) == RateAt(p, f, s, pm)
  {
    hide First, RateAt, Rate, IsStart, Compiled;
    var i := TierOfStart(cost, p, pm, n, s);
    var k :| IsMatched(cost.tiers, n, k) && r == cost.tiers[k].rates;
    TierIsOk(cost, p, pm, k);
    assert cost.tiers[k].inputTokensAbove == s - 1;
  }

  /**
   * Compile, then look up: from the first start on, a prompt pays by each field's own brackets, in
   * every price list without gaps.
   */
  lemma CompiledRatesAreBracketRates(cost: Cost, p: Pricing, pm: PerMillion, n: int, r: Rates, first: int, f: Field)
    requires Compiled(cost, p, pm) && Charged(cost, n, r) && NoGaps(p)
    requires IsStart(p, first) && first <= n
    ensures Rate(r, f) == RateAt(p, f, n, pm)
  {
    var s := FindLastStart(cost, p, pm, n, first);
    ChargedAtLastStart(cost, p, pm, n, r, s, f);
    assert NoGap(p, f, s);
    TierStandsForBracket(p, f, s, n);
  }

  lemma FindLastStart(cost: Cost, p: Pricing, pm: PerMillion, n: int, first: int) returns (s: int)
    requires Compiled(cost, p, pm) && IsStart(p, first) && first <= n
    ensures LastStart(p, s, n)
    decreases n - first
  {
    if exists x :: IsStart(p, x) && first < x <= n {
      var x :| IsStart(p, x) && first < x <= n;
      s := FindLastStart(cost, p, pm, n, x);
    } else {
      s := first;
    }
  }

  // ----- The exact condition for the charged rates -----

  /** At each end of a field's bracket the field still costs what it cost at the last start. */
  ghost predicate EndsCharged(p: Pricing, pm: PerMillion) {
    forall f, i, s ::
      0 <= i < |Brackets(p, f)| && Brackets(p, f)[i].max.Some? && LastStart(p, s, Brackets(p, f)[i].max.value) ==>
        RateAt(p, f, Brackets(p, f)[i].max.value, pm) == RateAt(p, f, s, pm)
  }

  /** Away from starts and ends the first bracket does not change. */
  lemma FirstUnchanged(p: Pricing, f: Field, n: int)
    requires n > 0 && !IsStart(p, n)
    requires forall i :: 0 <= i < |Brackets(p, f)| ==> Brackets(p, f)[i].max != Some(n)
    ensures First(Brackets(p, f), n) == First(Brackets(p, f), n - 1)
  {
    var bs := Brackets(p, f);
    forall i | 0 <= i < |bs| ensures Contains(bs[i], n) <==> Contains(bs[i], n - 1) {
      assert bs[i].min == Some(n) ==> IsStart(p, n);
    }
  }

  /** If the ends are charged right, so is every length from the last start on. */
  lemma {:induction false} RateSinceStart(p: Pricing, pm: PerMillion, f: Field, s: int, n: int)
    requires LastStart(p, s, n) && EndsCharged(p, pm)
    ensures RateAt(p, f, n, pm) == RateAt(p, f, s, pm)
    decreases n - s
  {
    if n != s {
      if i :| 0 <= i < |Brackets(p, f)| && Brackets(p, f)[i].max == Some(n) {
        assert LastStart(p, s, Brackets(p, f)[i].max.value);
      } else {
        StartsArePositive(p, s);
        FirstUnchanged(p, f, n);
        RateSinceStart(p, pm, f, s, n - 1);
      }
    }
  }

  lemma TiersRise(cost: Cost, p: Pricing, pm: PerMillion, i: nat, j: nat)
    requires Compiled(cost, p, pm) && i < |cost.tiers| && j < |cost.tiers|
    ensures i < j ==> cost.tiers[i].inputTokensAbove < cost.tiers[j].inputTokensAbove
  {
    hide TierOk, HasTier;
  }

  lemma SomeoneIsCharged(cost: Cost, p: Pricing, pm: PerMillion, n: int, s: int) returns (r: Rates)
    requires Compiled(cost, p, pm) && LastStart(p, s, n)
    ensures Charged(cost, n, r)
  {
    hide Compiled, IsStart, Rate, RateAt;
    var i := TierOfStart(cost, p, pm, n, s);
    r := cost.tiers[i].rates;
    forall k | 0 <= k < |cost.tiers| && Matches(cost.tiers[k], n)
      ensures cost.tiers[k].inputTokensAbove <= s - 1 && (k < i ==> cost.tiers[k].inputTokensAbove < s - 1)
    {
      TierIsOk(cost, p, pm, k);
      TiersRise(cost, p, pm, k, i);
    }
    assert IsMatched(cost.tiers, n, i);
  }

  /** Every prompt from the first start on pays its own bracket prices. */
  ghost predicate AllCharged(cost: Cost, p: Pricing, pm: PerMillion) {
    forall f, n, s, r :: LastStart(p, s, n) && Charged(cost, n, r) ==> Rate(r, f) == RateAt(p, f, n, pm)
  }

  /** Charges are right for every length exactly when they are right at the ends of the brackets. */
  lemma ChargedExactlyAtEnds(cost: Cost, p: Pricing, pm: PerMillion)
    requires Compiled(cost, p, pm)
    ensures AllCharged(cost, p, pm) <==> EndsCharged(p, pm)
  {
    hide Compiled, Charged, LastStart, RateAt, Rate, Brackets;
    if EndsCharged(p, pm) {
      forall f, n, s, r | LastStart(p, s, n) && Charged(cost, n, r) ensures Rate(r, f) == RateAt(p, f, n, pm) {
        ChargedAtLastStart(cost, p, pm, n, r, s, f);
        RateSinceStart(p, pm, f, s, n);
      }
    }
    if AllCharged(cost, p, pm) {
      forall f, i, s |
        0 <= i < |Brackets(p, f)| && Brackets(p, f)[i].max.Some? && LastStart(p, s, Brackets(p, f)[i].max.value)
        ensures RateAt(p, f, Brackets(p, f)[i].max.value, pm) == RateAt(p, f, s, pm)
      {
        var end := Brackets(p, f)[i].max.value;
        var r := SomeoneIsCharged(cost, p, pm, end, s);
        ChargedAtLastStart(cost, p, pm, end, r, s, f);
      }
    }
  }

  // ----- The charges, field by field -----

  predicate Holds(b: Bracket, n: int) {
    && (b.min.None? ==> 0 <= n) && (b.min.Some? ==> b.min.value <= n)
    && (b.max.Some? ==> n < b.max.value)
  }

  function ListOf(listed: Option<seq<Bracket>>): seq<Bracket> {
    if listed.Some? then listed.value else []
  }

  /** x is what n tokens cost by one list: the price of the first bracket that holds n, or else the flat price. */
  ghost predicate Costs(bs: seq<Bracket>, flat: Option<Price>, n: int, x: real, pm: PerMillion) {
    || (x == pm(flat) && forall i :: 0 <= i < |bs| ==> !Holds(bs[i], n))
    || exists i :: 0 <= i < |bs| && Holds(bs[i], n) && (forall j :: 0 <= j < i ==> !Holds(bs[j], n))
         && x == pm(if bs[i].cost.Some? then bs[i].cost else flat)
  }

  /** Some bracket of the four lists begins at x. */
  ghost predicate BeginsAt(p: Pricing, x: int) {
    exists b: Bracket :: b.min == Some(x)
      && (b in ListOf(p.inputTiers) || b in ListOf(p.outputTiers) || b in ListOf(p.cacheReadTiers)
          || b in ListOf(p.cacheWriteTiers))
  }

  lemma StartsAreBeginnings(p: Pricing, x: int)
    ensures IsStart(p, x) <==> x > 0 && BeginsAt(p, x)
  {
    if x > 0 && BeginsAt(p, x) {
      var b: Bracket :| b.min == Some(x) && (b in ListOf(p.inputTiers) || b in ListOf(p.outputTiers)
        || b in ListOf(p.cacheReadTiers) || b in ListOf(p.cacheWriteTiers));
      var f := if b in ListOf(p.inputTiers) then Input else if b in ListOf(p.outputTiers) then Output
        else if b in ListOf(p.cacheReadTiers) then CacheRead else CacheWrite;
      assert b in Brackets(p, f);
    }
    if IsStart(p, x) {
      var f, i :| 0 <= i < |Brackets(p, f)| && Brackets(p, f)[i].min == Some(x);
      assert Brackets(p, f)[i] in Brackets(p, f);
    }
  }

  lemma RateCosts(p: Pricing, f: Field, n: int, pm: PerMillion)
    ensures Costs(Brackets(p, f), Flat(p, f), n, RateAt(p, f, n, pm), pm)
  {
    var bs, i := Brackets(p, f), First(Brackets(p, f), n);
    assert forall j :: 0 <= j < |bs| ==> (Holds(bs[j], n) <==> Contains(bs[j], n));
  }

  /**
   * Compile, then look up: from the last beginning s on, if the bracket ends are charged right, each of the
   * four rates is what its own list says of the prompt; below every beginning each is its flat price.
   */
  lemma ChargesByField(cost: Cost, p: Pricing, pm: PerMillion, n: int, r: Rates)
    requires Compiled(cost, p, pm) && EndsCharged(p, pm) && Charged(cost, n, r)
    ensures ((exists s :: 0 < s <= n && BeginsAt(p, s)) ==>
      && Costs(ListOf(p.inputTiers), p.input, n, r.inputRate, pm)
      && Costs(ListOf(p.outputTiers), p.output, n, r.outputRate, pm)
      && Costs(ListOf(p.cacheReadTiers), p.inputCacheRead, n, r.cacheReadRate, pm)
      && Costs(ListOf(p.cacheWriteTiers), p.inputCacheWrite, n, r.cacheWriteRate, pm))
    ensures (!(exists s :: 0 < s <= n && BeginsAt(p, s)) ==>
      r == Rates(pm(p.input), pm(p.output), pm(p.inputCacheRead), pm(p.inputCacheWrite)))
  {
    hide Compiled, EndsCharged, Charged, IsStart, BeginsAt, Costs, RateAt;
    forall x ensures IsStart(p, x) <==> x > 0 && BeginsAt(p, x) {
      StartsAreBeginnings(p, x);
    }
    if s :| 0 < s <= n && BeginsAt(p, s) {
      var last := FindLastStart(cost, p, pm, n, s);
      ChargedExactlyAtEnds(cost, p, pm);
      forall f ensures Costs(Brackets(p, f), Flat(p, f), n, Rate(r, f), pm) {
        assert Rate(r, f) == RateAt(p, f, n, pm);
        RateCosts(p, f, n, pm);
      }
      assert Rate(r, Input) == r.inputRate && Rate(r, Output) == r.outputRate;
      assert Rate(r, CacheRead) == r.cacheReadRate && Rate(r, CacheWrite) == r.cacheWriteRate;
      assert Brackets(p, Input) == ListOf(p.inputTiers) && Brackets(p, Output) == ListOf(p.outputTiers);
      assert Brackets(p, CacheRead) == ListOf(p.cacheReadTiers) && Brackets(p, CacheWrite) == ListOf(p.cacheWriteTiers);
    } else {
      BelowEveryStart(cost, p, pm, n, r);
    }
  }

  /** A gap overcharges: past the end of the only bracket the tier goes on charging its rate. */
  lemma GapKeepsCharging(price: Price, pm: PerMillion, cost: Cost, r: Rates)
    requires pm(Some(price)) != pm(None)
    requires Compiled(cost, OneBracket(price), pm) && Charged(cost, 10, r)
    ensures Rate(r, Input) == pm(Some(price)) && RateAt(OneBracket(price), Input, 10, pm) == pm(None)
  {
    hide Compiled, Charged, First;
    var p := OneBracket(price);
    assert Brackets(p, Input)[0].min == Some(1);
    assert IsStart(p, 1);
    assert First(Brackets(p, Input), 1) == 0 && First(Brackets(p, Input), 10) == 1;
    assert LastStart(p, 1, 10);
    ChargedAtLastStart(cost, p, pm, 10, r, 1, Input);
  }

  function OneBracket(price: Price): Pricing {
    Pricing(None, None, None, None, Some([Bracket(Some(price), Some(1), Some(10))]), None, None, None)
  }
}
