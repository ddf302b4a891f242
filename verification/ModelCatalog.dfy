/**
 * Version order and catalog selection of shell/pi/scripts/model-catalog-protocol.ts.  Version
 * parsing is a parameter; localeCompare is an abstract strict total order.
 */
module ModelCatalog {
  import opened Wrappers

  /** A parsed version; a release has no prerelease identifiers. */
  datatype Version = Version(major: nat, minor: nat, patch: nat, prerelease: seq<string>)

  type Locale = (string, string) -> int

  /** What is assumed of localeCompare: the sign of a strict total order. */
  ghost predicate LocaleOk(lc: Locale) {
    && (forall a, b :: lc(a, b) == 0 <==> a == b)
    && (forall a, b :: lc(a, b) < 0 <==> lc(b, a) > 0)
    && (forall a, b, c :: lc(a, b) < 0 && lc(b, c) < 0 ==> lc(a, c) < 0)
  }

  // ----- Identifiers -----

  predicate Digits(s: string) {
    s != [] && forall i :: 0 <= i < |s| ==> '0' <= s[i] <= '9'
  }

  /** Number(s) on a digit string, exact. */
  function Value(s: string): nat
    requires Digits(s) || s == []
  {
    if s == [] then 0
    else
      assert s[..|s|-1] == [] || Digits(s[..|s|-1]);
      10 * Value(s[..|s|-1]) + (s[|s|-1] - '0') as nat
  }

  /** Comparison of two different identifiers. */
  function CompareParts(a: string, b: string, lc: Locale): int {
    if Digits(a) && Digits(b) then Value(a) - Value(b)
    else if Digits(a) then -1
    else if Digits(b) then 1
    else lc(a, b)
  }

  /** The loop over identifiers: the first pair that differs decides, a shorter list is lower. */
  function ComparePrerelease(a: seq<string>, b: seq<string>, lc: Locale): int {
    if a == [] && b == [] then 0
    else if a == [] then -1
    else if b == [] then 1
    else if a[0] == b[0] then ComparePrerelease(a[1..], b[1..], lc)
    else CompareParts(a[0], b[0], lc)
  }

  /** comparePiVersions */
  function Compare(l: Version, r: Version, lc: Locale): int {
    if l.major != r.major then l.major - r.major
    else if l.minor != r.minor then l.minor - r.minor
    else if l.patch != r.patch then l.patch - r.patch
    else if l.prerelease == r.prerelease then 0
    else if l.prerelease == [] then 1
    else if r.prerelease == [] then -1
    else ComparePrerelease(l.prerelease, r.prerelease, lc)
  }

  /** The source's loop for the identifiers, against the recursive form. */
  method ComparePrereleaseLoop(a: seq<string>, b: seq<string>, lc: Locale) returns (r: int)
    ensures r == ComparePrerelease(a, b, lc)
  {
    var i := 0;
    while i < |a| || i < |b|
      invariant i <= |a| && i <= |b|
      invariant ComparePrerelease(a, b, lc) == ComparePrerelease(a[i..], b[i..], lc)
      decreases |a| + |b| - i
    {
      if i >= |a| {
        return -1;
      }
      if i >= |b| {
        return 1;
      }
      if a[i] != b[i] {
        return CompareParts(a[i], b[i], lc);
      }
      assert a[i..][1..] == a[i+1..] && b[i..][1..] == b[i+1..];
      i := i + 1;
    }
    r := 0;
  }

  // ----- Precedence, as in section 11 of Semantic Versioning 2.0.0 -----

  /** Two lists agree before position i and not at it; i may be the length of one of them. */
  ghost predicate DifferFirstAt(a: seq<string>, b: seq<string>, i: nat) {
    && i <= |a| && i <= |b| && i < |a| + |b| - i
    && (forall j :: 0 <= j < i ==> a[j] == b[j])
    && (i < |a| && i < |b| ==> a[i] != b[i])
  }

  /** Numeric identifiers are ordered by value and below alphanumeric ones, which the locale orders. */
  predicate LowerIdentifier(a: string, b: string, lc: Locale) {
    || (Digits(a) && Digits(b) && Value(a) < Value(b))
    || (Digits(a) && !Digits(b))
    || (!Digits(a) && !Digits(b) && lc(a, b) < 0)
  }

  /** The first identifier that differs decides; without one the shorter list is lower. */
  ghost predicate LowerPrerelease(a: seq<string>, b: seq<string>, lc: Locale) {
    exists i: nat :: DifferFirstAt(a, b, i) && (i == |a| || (i < |b| && LowerIdentifier(a[i], b[i], lc)))
  }

  /** Major, minor and patch decide in this order, then a release is above its prereleases. */
  ghost predicate Precedes(l: Version, r: Version, lc: Locale) {
    || l.major < r.major
    || (l.major == r.major && l.minor < r.minor)
    || (l.major == r.major && l.minor == r.minor && l.patch < r.patch)
    || (l.major == r.major && l.minor == r.minor && l.patch == r.patch
        && l.prerelease != [] && (r.prerelease == [] || LowerPrerelease(l.prerelease, r.prerelease, lc)))
  }

  lemma {:induction false} ListPrecedence(a: seq<string>, b: seq<string>, lc: Locale)
    requires LocaleOk(lc)
    ensures ComparePrerelease(a, b, lc) < 0 <==> LowerPrerelease(a, b, lc)
  {
    if a != [] && b != [] && a[0] == b[0] {
      ListPrecedence(a[1..], b[1..], lc);
      if LowerPrerelease(a[1..], b[1..], lc) {
        var i: nat :| DifferFirstAt(a[1..], b[1..], i)
          && (i == |a| - 1 || (i < |b| - 1 && LowerIdentifier(a[1..][i], b[1..][i], lc)));
        assert DifferFirstAt(a, b, i + 1);
      }
      if LowerPrerelease(a, b, lc) {
        var i: nat :| DifferFirstAt(a, b, i) && (i == |a| || (i < |b| && LowerIdentifier(a[i], b[i], lc)));
        assert DifferFirstAt(a[1..], b[1..], i - 1);
      }
    } else if a != b {
      assert DifferFirstAt(a, b, 0);
    }
  }

  /** The comparison is negative exactly for versions of lower precedence. */
  lemma CompareIsPrecedence(l: Version, r: Version, lc: Locale)
    requires LocaleOk(lc)
    ensures Compare(l, r, lc) < 0 <==> Precedes(l, r, lc)
    ensures Compare(l, r, lc) > 0 <==> Precedes(r, l, lc)
  {
    ListPrecedence(l.prerelease, r.prerelease, lc);
    ListPrecedence(r.prerelease, l.prerelease, lc);
    ListAntisymmetry(r.prerelease, l.prerelease, lc);
    hide LowerPrerelease, LocaleOk, ComparePrerelease;
  }

  /** Numerals without leading zeros are ordered by length, then digit by digit. */
  lemma NumeralsByLength(a: string, b: string, i: nat)
    requires Digits(a) && Digits(b) && Canonical(a) && Canonical(b)
    ensures |a| < |b| ==> Value(a) < Value(b)
    ensures |a| == |b| && i < |a| && a[..i] == b[..i] && a[i] < b[i] ==> Value(a) < Value(b)
  {
    if |a| < |b| {
      ValueBounds(a);
      ValueBounds(b);
      Pow10Mono(|a|, |b| - 1);
    } else if |a| == |b| && i < |a| && a[..i] == b[..i] && a[i] < b[i] {
      FirstDigitDecides(a, b, i);
    }
  }

  lemma {:induction false} FirstDigitDecides(a: string, b: string, i: nat)
    requires Digits(a) && Digits(b) && i < |a| == |b| && a[..i] == b[..i] && a[i] < b[i]
    ensures Value(a) < Value(b)
  {
    var k := |a| - 1;
    if i < k {
      assert a[..k][..i] == a[..i] && b[..k][..i] == b[..i];
      FirstDigitDecides(a[..k], b[..k], i);
    } else {
      assert a[..k] == b[..k];
    }
  }

  /** The precedence examples of section 11: each version of the list is below the next. */
  lemma SpecificationExamples(lc: Locale)
    requires LocaleOk(lc) && lc("alpha", "beta") < 0 && lc("beta", "rc") < 0
    ensures Compare(Version(1, 0, 0, ["alpha"]), Version(1, 0, 0, ["alpha", "1"]), lc) < 0
    ensures Compare(Version(1, 0, 0, ["alpha", "1"]), Version(1, 0, 0, ["alpha", "beta"]), lc) < 0
    ensures Compare(Version(1, 0, 0, ["alpha", "beta"]), Version(1, 0, 0, ["beta"]), lc) < 0
    ensures Compare(Version(1, 0, 0, ["beta"]), Version(1, 0, 0, ["beta", "2"]), lc) < 0
    ensures Compare(Version(1, 0, 0, ["beta", "2"]), Version(1, 0, 0, ["beta", "11"]), lc) < 0
    ensures Compare(Version(1, 0, 0, ["beta", "11"]), Version(1, 0, 0, ["rc", "1"]), lc) < 0
    ensures Compare(Version(1, 0, 0, ["rc", "1"]), Version(1, 0, 0, []), lc) < 0
  {
    assert !Digits("alpha") && !Digits("beta") && !Digits("rc") by {
      assert "alpha"[0] == 'a' && "beta"[0] == 'b' && "rc"[0] == 'r';
    }
    assert Digits("1") && Digits("2") && Digits("11");
    NumeralsByLength("2", "11", 0);
    hide Value, Digits, LocaleOk;
    assert ["alpha", "1"][1..] == ["1"] && ["alpha", "beta"][1..] == ["beta"] && ["alpha"][1..] == [];
    assert ["beta", "2"][1..] == ["2"] && ["beta", "11"][1..] == ["11"] && ["beta"][1..] == [];
  }

  // ----- Precedence as a key order -----

  /** The first identifiers in which two lists differ are both numeric with the same value. */
  predicate ZeroTied(a: seq<string>, b: seq<string>) {
    a != [] && b != [] &&
    if a[0] == b[0] then ZeroTied(a[1..], b[1..])
    else Digits(a[0]) && Digits(b[0]) && Value(a[0]) == Value(b[0])
  }

  /** Two different versions that compare as equal: they differ first by leading zeros. */
  predicate LeadingZeroTie(l: Version, r: Version) {
    l.major == r.major && l.minor == r.minor && l.patch == r.patch && ZeroTied(l.prerelease, r.prerelease)
  }

  predicate Canonical(s: string) {
    Digits(s) ==> |s| == 1 || s[0] != '0'
  }

  predicate NoLeadingZeros(v: Version) {
    forall i :: 0 <= i < |v.prerelease| ==> Canonical(v.prerelease[i])
  }

  lemma {:induction false} ValueBounds(s: string)
    requires Digits(s)
    ensures Value(s) < Pow10(|s|)
    ensures s[0] != '0' ==> Value(s) >= Pow10(|s| - 1)
  {
    if |s| > 1 {
      ValueBounds(s[..|s|-1]);
    } else {
      assert Value(s[..0]) == 0;
    }
  }

  function Pow10(n: nat): nat {
    if n == 0 then 1 else 10 * Pow10(n - 1)
  }

  lemma {:induction false} Pow10Mono(m: nat, n: nat)
    requires m <= n
    ensures 1 <= Pow10(m) <= Pow10(n)
    decreases n
  {
    if m < n {
      Pow10Mono(m, n - 1);
    } else if m > 0 {
      Pow10Mono(m - 1, n - 1);
    }
  }

  /** Decimal numerals without leading zeros denote different numbers. */
  lemma {:induction false} CanonicalValue(a: string, b: string)
    requires Digits(a) && Digits(b) && Canonical(a) && Canonical(b) && Value(a) == Value(b)
    ensures a == b
  {
    ValueBounds(a);
    ValueBounds(b);
    if |a| < |b| {
      Pow10Mono(|a|, |b| - 1);
      assert false;
    } else if |b| < |a| {
      Pow10Mono(|b|, |a| - 1);
      assert false;
    } else {
      SameLengthValue(a, b);
    }
  }

  lemma {:induction false} SameLengthValue(a: string, b: string)
    requires Digits(a) && Digits(b) && |a| == |b| && Value(a) == Value(b)
    ensures a == b
  {
    var k := |a| - 1;
    assert a == a[..k] + [a[k]] && b == b[..k] + [b[k]];
    assert Value(a) == 10 * Value(a[..k]) + (a[k] - '0') as nat;
    assert Value(b) == 10 * Value(b[..k]) + (b[k] - '0') as nat;
    assert Value(a[..k]) == Value(b[..k]) && a[k] == b[k];
    if k > 0 {
      SameLengthValue(a[..k], b[..k]);
    }
  }

  lemma {:induction false} CanonicalListsDoNotTie(a: seq<string>, b: seq<string>)
    requires forall i :: 0 <= i < |a| ==> Canonical(a[i])
    requires forall i :: 0 <= i < |b| ==> Canonical(b[i])
    ensures !ZeroTied(a, b)
  {
    if a != [] && b != [] {
      if a[0] == b[0] {
        CanonicalListsDoNotTie(a[1..], b[1..]);
      } else if Digits(a[0]) && Digits(b[0]) && Value(a[0]) == Value(b[0]) {
        CanonicalValue(a[0], b[0]);
      }
    }
  }

  lemma NoLeadingZerosNoTie(l: Version, r: Version)
    requires NoLeadingZeros(l) && NoLeadingZeros(r)
    ensures !LeadingZeroTie(l, r)
  {
    CanonicalListsDoNotTie(l.prerelease, r.prerelease);
  }

  // ----- The order -----

  lemma {:induction false} ListAntisymmetry(a: seq<string>, b: seq<string>, lc: Locale)
    requires LocaleOk(lc)
    ensures ComparePrerelease(a, b, lc) < 0 <==> ComparePrerelease(b, a, lc) > 0
    ensures ComparePrerelease(a, b, lc) == 0 <==> a == b || ZeroTied(a, b)
    ensures ZeroTied(a, b) == ZeroTied(b, a)
  {
    if a != [] && b != [] && a[0] == b[0] {
      ListAntisymmetry(a[1..], b[1..], lc);
      assert a == [a[0]] + a[1..] && b == [b[0]] + b[1..];
    }
  }

  /** The comparison is total and antisymmetric in sign; ties are equality or leading zeros. */
  lemma CompareIsAntisymmetric(l: Version, r: Version, lc: Locale)
    requires LocaleOk(lc)
    ensures Compare(l, r, lc) < 0 <==> Compare(r, l, lc) > 0
    ensures Compare(l, r, lc) == 0 <==> l == r || LeadingZeroTie(l, r)
  {
    ListAntisymmetry(l.prerelease, r.prerelease, lc);
  }

  lemma {:induction false} ListTransitive(a: seq<string>, b: seq<string>, c: seq<string>, lc: Locale)
    requires LocaleOk(lc) && ComparePrerelease(a, b, lc) <= 0 && ComparePrerelease(b, c, lc) <= 0 && !ZeroTied(b, c)
    ensures ComparePrerelease(a, c, lc) <= 0
    ensures ComparePrerelease(b, c, lc) < 0 && !ZeroTied(a, b) ==> ComparePrerelease(a, c, lc) < 0
  {
    if a != [] && b != [] && c != [] {
      if a[0] == b[0] && b[0] == c[0] {
        ListTransitive(a[1..], b[1..], c[1..], lc);
      } else {
        PartsTransitive(a[0], b[0], c[0], lc);
      }
    }
  }

  lemma PartsTransitive(a: string, b: string, c: string, lc: Locale)
    requires LocaleOk(lc)
    ensures (a != b && b != c && CompareParts(a, b, lc) <= 0 && CompareParts(b, c, lc) < 0 && a != c ==>
      CompareParts(a, c, lc) < 0)
    ensures a != b && b != c && CompareParts(a, b, lc) <= 0 && CompareParts(b, c, lc) < 0 ==> a != c
    ensures a != b && CompareParts(a, b, lc) == 0 ==> Digits(a) && Digits(b) && Value(a) == Value(b)
  {
  }

  /** Transitive into a strictly higher version, whatever the leading zeros. */
  lemma CompareIsTransitive(x: Version, p: Version, s: Version, lc: Locale)
    requires LocaleOk(lc) && Compare(x, p, lc) <= 0 && Compare(p, s, lc) <= 0 && !LeadingZeroTie(p, s)
    ensures Compare(x, s, lc) <= 0
    ensures Compare(p, s, lc) < 0 && !LeadingZeroTie(x, p) ==> Compare(x, s, lc) < 0
  {
    ListAntisymmetry(x.prerelease, p.prerelease, lc);
    ListAntisymmetry(p.prerelease, s.prerelease, lc);
    if ComparePrerelease(x.prerelease, p.prerelease, lc) <= 0 && ComparePrerelease(p.prerelease, s.prerelease, lc) <= 0
      && !ZeroTied(p.prerelease, s.prerelease)
    {
      ListTransitive(x.prerelease, p.prerelease, s.prerelease, lc);
    }
  }

  lemma {:induction false} LongerThanTie(a: seq<string>, b: seq<string>, lc: Locale)
    requires LocaleOk(lc) && ZeroTied(a, b)
    ensures ComparePrerelease(b + ["0"], b, lc) > 0
    ensures ZeroTied(b + ["0"], a)
  {
    var c := b + ["0"];
    assert c[1..] == b[1..] + ["0"];
    if a[0] == b[0] {
      LongerThanTie(a[1..], b[1..], lc);
    } else {
      LongerThanSelf(b, lc);
    }
  }

  lemma {:induction false} LongerThanSelf(b: seq<string>, lc: Locale)
    ensures ComparePrerelease(b + ["0"], b, lc) > 0
  {
    var c := b + ["0"];
    if b != [] {
      assert c[1..] == b[1..] + ["0"];
      LongerThanSelf(b[1..], lc);
    }
  }

  /** Higher than `v`, yet tied with everything that ties with `v` by leading zeros. */
  function Extended(v: Version): Version {
    v.(prerelease := v.prerelease + ["0"])
  }

  lemma ExtendedBreaksTransitivity(p: Version, s: Version, lc: Locale)
    requires LocaleOk(lc) && LeadingZeroTie(p, s)
    ensures Compare(Extended(s), p, lc) == 0 && Compare(Extended(s), s, lc) > 0
  {
    LongerThanTie(p.prerelease, s.prerelease, lc);
    ListAntisymmetry(Extended(s).prerelease, p.prerelease, lc);
  }

  ghost predicate EverythingBelowIsBelow(p: Version, s: Version, lc: Locale) {
    forall x :: Compare(x, p, lc) <= 0 ==> Compare(x, s, lc) <= 0
  }

  /** Exactly when the order is transitive: `p <= s` carries everything below `p` below `s`. */
  lemma TransitiveExactlyWithoutTies(p: Version, s: Version, lc: Locale)
    requires LocaleOk(lc) && Compare(p, s, lc) <= 0
    ensures EverythingBelowIsBelow(p, s, lc) <==> !LeadingZeroTie(p, s)
  {
    if LeadingZeroTie(p, s) {
      ExtendedBreaksTransitivity(p, s, lc);
    } else {
      forall x | Compare(x, p, lc) <= 0 ensures Compare(x, s, lc) <= 0 {
        CompareIsTransitive(x, p, s, lc);
      }
    }
  }

  /** 1.0.0-1 and 1.0.0-01 tie, and 1.0.0-01.0 is above the second but not above the first. */
  lemma LeadingZerosBreakTheOrder(lc: Locale)
    requires LocaleOk(lc)
    ensures var one, zeroOne, longer := Version(1, 0, 0, ["1"]), Version(1, 0, 0, ["01"]),
      Version(1, 0, 0, ["01", "0"]);
      Compare(longer, one, lc) == 0 && Compare(one, zeroOne, lc) == 0 && Compare(longer, zeroOne, lc) > 0
  {
    var one, zeroOne := Version(1, 0, 0, ["1"]), Version(1, 0, 0, ["01"]);
    assert Value("1") == 10 * Value("1"[..0]) + 1;
    assert Value("0") == 10 * Value("0"[..0]) + 0;
    assert "01"[..1] == "0";
    assert Value("01") == 10 * Value("01"[..1]) + 1;
    assert LeadingZeroTie(one, zeroOne);
    ExtendedBreaksTransitivity(one, zeroOne, lc);
    CompareIsAntisymmetric(one, zeroOne, lc);
    assert Extended(zeroOne) == Version(1, 0, 0, ["01", "0"]);
  }

  /** On versions without leading zeros the comparison is a total order, as Semantic Versioning asks. */
  lemma CanonicalVersionsAreTotallyOrdered(x: Version, p: Version, s: Version, lc: Locale)
    requires LocaleOk(lc) && NoLeadingZeros(x) && NoLeadingZeros(p) && NoLeadingZeros(s)
    ensures Compare(x, p, lc) <= 0 || Compare(p, x, lc) <= 0
    ensures Compare(x, p, lc) <= 0 && Compare(p, s, lc) <= 0 ==> Compare(x, s, lc) <= 0
    ensures Compare(x, p, lc) == 0 <==> x == p
  {
    NoLeadingZerosNoTie(x, p);
    NoLeadingZerosNoTie(p, s);
    CompareIsAntisymmetric(x, p, lc);
    if Compare(x, p, lc) <= 0 && Compare(p, s, lc) <= 0 {
      CompareIsTransitive(x, p, s, lc);
    }
  }

  // ----- Selecting a catalog -----

  datatype Entry = Entry(minimumPiVersion: string, revision: string)
  datatype Index = Index(schemaVersion: int, defaultRevision: string, catalogs: seq<Entry>)

  type Parser = string -> Option<Version>

  predicate Parses(e: Entry, parse: Parser) {
    parse(e.minimumPiVersion).Some?
  }

  function Minimum(e: Entry, parse: Parser): Version
    requires Parses(e, parse)
  {
    parse(e.minimumPiVersion).value
  }

  ghost predicate Compatible(e: Entry, client: Version, parse: Parser, lc: Locale) {
    Parses(e, parse) && !Precedes(client, Minimum(e, parse), lc)
  }

  /** Entry `k` may be served: compatible, nothing compatible is higher, first of its version. */
  ghost predicate Selected(es: seq<Entry>, k: nat, client: Version, parse: Parser, lc: Locale) {
    && k < |es| && Compatible(es[k], client, parse, lc)
    && (forall j :: 0 <= j < |es| && Compatible(es[j], client, parse, lc) ==>
          !Precedes(Minimum(es[k], parse), Minimum(es[j], parse), lc))
    && (forall j :: 0 <= j < k && Compatible(es[j], client, parse, lc) ==>
          Minimum(es[j], parse) != Minimum(es[k], parse))
  }

  lemma NotBelowItself(v: Version, lc: Locale)
    requires LocaleOk(lc)
    ensures !Precedes(v, v, lc)
  {
    CompareIsPrecedence(v, v, lc);
    CompareIsAntisymmetric(v, v, lc);
  }

  /** What is not above `p` is not above what is above `p`. */
  lemma PrecedesTransitive(x: Version, p: Version, s: Version, lc: Locale)
    requires LocaleOk(lc) && !Precedes(p, x, lc) && Precedes(p, s, lc)
    ensures !Precedes(s, x, lc)
  {
    hide Precedes, Compare, LocaleOk, LeadingZeroTie;
    CompareIsPrecedence(x, p, lc);
    CompareIsPrecedence(p, s, lc);
    CompareIsPrecedence(x, s, lc);
    CompareIsAntisymmetric(p, s, lc);
    CompareIsTransitive(x, p, s, lc);
  }

  lemma SelectedMovesUp(es: seq<Entry>, k: nat, n: nat, client: Version, parse: Parser, lc: Locale)
    requires LocaleOk(lc) && n < |es| && Selected(es[..n], k, client, parse, lc)
    requires Compatible(es[n], client, parse, lc)
    requires Precedes(Minimum(es[k], parse), Minimum(es[n], parse), lc)
    ensures Selected(es[..n+1], n, client, parse, lc)
  {
    var now, was := Minimum(es[n], parse), Minimum(es[k], parse);
    NotBelowItself(now, lc);
    forall j | 0 <= j < n && Compatible(es[j], client, parse, lc)
      ensures !Precedes(now, Minimum(es[j], parse), lc) && Minimum(es[j], parse) != now
    {
      assert es[..n][j] == es[j];
      PrecedesTransitive(Minimum(es[j], parse), was, now, lc);
    }
  }

  /** What a request without a version receives: the first entry of the default revision. */
  ghost predicate IsDefault(index: Index, r: Option<Entry>) {
    if r.None? then forall j :: 0 <= j < |index.catalogs| ==> index.catalogs[j].revision != index.defaultRevision
    else
      && r.value.revision == index.defaultRevision
      && exists k ::
           && 0 <= k < |index.catalogs| && index.catalogs[k] == r.value
           && forall j :: 0 <= j < k ==> index.catalogs[j].revision != index.defaultRevision
  }

  /** selectModelCatalog.  Err is the exception for an entry whose minimum does not parse. */
  method SelectModelCatalog(index: Index, piVersion: Option<string>, parse: Parser, lc: Locale)
    returns (r: Result<Option<Entry>>)
    requires LocaleOk(lc)
    ensures piVersion.None? ==> r.Ok? && IsDefault(index, r.value)
    ensures piVersion.Some? && parse(piVersion.value).None? ==> r == Ok(None)
    ensures (piVersion.Some? && parse(piVersion.value).Some? ==>
               (r.Err? <==> exists j :: 0 <= j < |index.catalogs| && !Parses(index.catalogs[j], parse)))
    ensures (piVersion.Some? && parse(piVersion.value).Some? && r.Ok? ==>
               Answer(index.catalogs, parse(piVersion.value).value, r.value, parse, lc))
  {
    hide Compare, LeadingZeroTie, LocaleOk, Precedes;
    var es := index.catalogs;
    if piVersion.None? {
      var i := 0;
      while i < |es|
        invariant 0 <= i <= |es|
        invariant forall j :: 0 <= j < i ==> es[j].revision != index.defaultRevision
      {
        if es[i].revision == index.defaultRevision {
          return Ok(Some(es[i]));
        }
        i := i + 1;
      }
      return Ok(None);
    }
    if parse(piVersion.value).None? {
      return Ok(None);
    }
    var client := parse(piVersion.value).value;
    var selected: Option<Entry>, selectedVersion: Option<Version> := None, None;
    ghost var at: nat := 0;
    var n := 0;
    while n < |es|
      invariant 0 <= n <= |es|
      invariant forall j :: 0 <= j < n ==> Parses(es[j], parse)
      invariant selected.None? <==> selectedVersion.None?
      invariant selected.None? ==> forall j :: 0 <= j < n ==> !Compatible(es[j], client, parse, lc)
      invariant selected.Some? ==> Selected(es[..n], at, client, parse, lc)
      invariant selected.Some? ==> selected.value == es[at] && selectedVersion.value == Minimum(es[at], parse)
    {
      if parse(es[n].minimumPiVersion).None? {
        assert !Parses(es[n], parse);
        return Err("Invalid Pi version: " + es[n].minimumPiVersion);
      }
      var minimum := parse(es[n].minimumPiVersion).value;
      CompareIsPrecedence(minimum, client, lc);
      if selected.Some? {
        CompareIsPrecedence(minimum, selectedVersion.value, lc);
      }
      if Compare(minimum, client, lc) <= 0
        && (selectedVersion.None? || Compare(minimum, selectedVersion.value, lc) > 0)
      {
        if selected.Some? {
          SelectedMovesUp(es, at, n, client, parse, lc);
        } else {
          NotBelowItself(minimum, lc);
        }
        selected, selectedVersion := Some(es[n]), Some(minimum);
        at := n;
      }
      n := n + 1;
    }
    assert es[..n] == es;
    r := Ok(selected);
  }

  ghost predicate Answer(es: seq<Entry>, client: Version, r: Option<Entry>, parse: Parser, lc: Locale) {
    if r.None? then forall j :: 0 <= j < |es| ==> !Compatible(es[j], client, parse, lc)
    else exists k: nat :: Selected(es, k, client, parse, lc) && es[k] == r.value
  }

  // ----- Newer clients -----

  /** Client `newer` is served whenever `older` is, and never a lower minimum. */
  ghost predicate NeverLower(es: seq<Entry>, older: Version, newer: Version, parse: Parser, lc: Locale) {
    forall a, b :: Answer(es, older, a, parse, lc) && Answer(es, newer, b, parse, lc) && a.Some? ==>
      b.Some? && Parses(a.value, parse) && Parses(b.value, parse)
      && !Precedes(Minimum(b.value, parse), Minimum(a.value, parse), lc)
  }

  lemma UpgradeNeverLowers(es: seq<Entry>, older: Version, newer: Version, parse: Parser, lc: Locale)
    requires LocaleOk(lc) && !Precedes(newer, older, lc) && !LeadingZeroTie(older, newer)
    ensures NeverLower(es, older, newer, parse, lc)
  {
    forall k: nat | k < |es| && Compatible(es[k], older, parse, lc) ensures Compatible(es[k], newer, parse, lc) {
      var m := Minimum(es[k], parse);
      CompareIsPrecedence(m, older, lc);
      CompareIsPrecedence(m, newer, lc);
      CompareIsPrecedence(older, newer, lc);
      CompareIsTransitive(m, older, newer, lc);
    }
  }

  /**
   * A strictly newer client is never served a lower catalog on any index, nor is one of equal precedence
   * unless tied.
   */
  lemma NewerClientsNeverLose(older: Version, newer: Version, parse: Parser, lc: Locale)
    requires LocaleOk(lc) && !Precedes(newer, older, lc)
    ensures Precedes(older, newer, lc) || !LeadingZeroTie(older, newer) ==>
      forall es :: NeverLower(es, older, newer, parse, lc)
  {
    CompareIsPrecedence(older, newer, lc);
    CompareIsAntisymmetric(older, newer, lc);
    if !LeadingZeroTie(older, newer) {
      forall es ensures NeverLower(es, older, newer, parse, lc) {
        UpgradeNeverLowers(es, older, newer, parse, lc);
      }
    }
  }

  /**
   * Of two versions tied by leading zeros, an index with the second one extended serves the first and not the
   * second.
   */
  lemma TiedClientsMayLose(older: Version, newer: Version, text: string, parse: Parser, lc: Locale)
    requires LocaleOk(lc) && LeadingZeroTie(older, newer) && parse(text) == Some(Extended(newer))
    ensures !NeverLower([Entry(text, "")], older, newer, parse, lc)
  {
    ExtendedBreaksTransitivity(older, newer, lc);
    var e := Entry(text, "");
    CompareIsPrecedence(Extended(newer), older, lc);
    CompareIsPrecedence(Extended(newer), newer, lc);
    NotBelowItself(Extended(newer), lc);
    assert [e][0] == e;
    assert Selected([e], 0, older, parse, lc);
    assert Answer([e], older, Some(e), parse, lc) && Answer([e], newer, None, parse, lc);
  }

  // ----- Reading an index -----

  /** A JSON document: a field that is absent or of the wrong type is None. */
  datatype RawEntry = RawEntry(rawMinimum: Option<string>, rawRevision: Option<string>)
  datatype RawIndex = RawIndex(rawSchema: Option<int>, rawDefault: Option<string>,
    rawCatalogs: Option<seq<Option<RawEntry>>>)

  const SCHEMA_VERSION := 1

  predicate EntryOk(e: Option<RawEntry>, parse: Parser, isRevision: string -> bool) {
    e.Some? && e.value.rawMinimum.Some? && parse(e.value.rawMinimum.value).Some?
    && e.value.rawRevision.Some? && isRevision(e.value.rawRevision.value)
  }

  predicate IndexOk(v: RawIndex, parse: Parser, isRevision: string -> bool) {
    && v.rawSchema == Some(SCHEMA_VERSION)
    && v.rawDefault.Some? && isRevision(v.rawDefault.value)
    && v.rawCatalogs.Some? && v.rawCatalogs.value != []
    && (forall i :: 0 <= i < |v.rawCatalogs.value| ==> EntryOk(v.rawCatalogs.value[i], parse, isRevision))
    && (exists i :: 0 <= i < |v.rawCatalogs.value| && v.rawCatalogs.value[i].value.rawRevision == v.rawDefault)
  }

  /** parseModelCatalogIndex */
  function ParseIndex(v: RawIndex, parse: Parser, isRevision: string -> bool): Result<Index> {
    if !IndexOk(v, parse, isRevision) then Err("Model catalog index is invalid")
    else
      Ok(Index(v.rawSchema.value, v.rawDefault.value,
        seq(|v.rawCatalogs.value|, i requires 0 <= i < |v.rawCatalogs.value| =>
            (assert EntryOk(v.rawCatalogs.value[i], parse, isRevision);
             Entry(v.rawCatalogs.value[i].value.rawMinimum.value, v.rawCatalogs.value[i].value.rawRevision.value)))))
  }

  /**
   * An index is accepted exactly when schema, default revision and every entry are valid and some entry is of
   * the default revision; the entries are read as they are, in order.
   */
  lemma AcceptedExactly(v: RawIndex, parse: Parser, isRevision: string -> bool)
    ensures (ParseIndex(v, parse, isRevision).Ok? <==>
      && v.rawSchema == Some(1)
      && v.rawDefault.Some? && isRevision(v.rawDefault.value)
      && v.rawCatalogs.Some?
      && (forall e :: e in v.rawCatalogs.value ==>
            && e.Some? && e.value.rawMinimum.Some? && parse(e.value.rawMinimum.value).Some?
            && e.value.rawRevision.Some? && isRevision(e.value.rawRevision.value))
      && (exists e :: e in v.rawCatalogs.value && e.Some? && e.value.rawRevision == v.rawDefault))
    ensures (ParseIndex(v, parse, isRevision).Ok? ==>
      && var index := ParseIndex(v, parse, isRevision).value;
      && index.schemaVersion == 1 && v.rawDefault == Some(index.defaultRevision)
      && |index.catalogs| == |v.rawCatalogs.value|
      && forall i :: 0 <= i < |index.catalogs| ==>
           && v.rawCatalogs.value[i].Some?
           && v.rawCatalogs.value[i].value.rawMinimum == Some(index.catalogs[i].minimumPiVersion)
           && v.rawCatalogs.value[i].value.rawRevision == Some(index.catalogs[i].revision))
  {
    if v.rawCatalogs.Some? {
      var es := v.rawCatalogs.value;
      assert forall i :: 0 <= i < |es| ==> es[i] in es;
      assert forall e :: e in es ==> exists i :: 0 <= i < |es| && es[i] == e;
    }
  }

  /** On an index that was read, selection never throws and the default request is always served. */
  lemma ReadIndexIsServable(v: RawIndex, parse: Parser, isRevision: string -> bool)
    requires ParseIndex(v, parse, isRevision).Ok?
    ensures var index := ParseIndex(v, parse, isRevision).value;
      && (forall j :: 0 <= j < |index.catalogs| ==> Parses(index.catalogs[j], parse))
      && !IsDefault(index, None)
  {
    var index := ParseIndex(v, parse, isRevision).value;
    forall j | 0 <= j < |index.catalogs| ensures Parses(index.catalogs[j], parse) {
      assert EntryOk(v.rawCatalogs.value[j], parse, isRevision);
    }
    var i :| 0 <= i < |v.rawCatalogs.value| && v.rawCatalogs.value[i].value.rawRevision == v.rawDefault;
    assert index.catalogs[i].revision == index.defaultRevision;
  }
}
