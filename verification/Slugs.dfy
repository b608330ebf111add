/** Heading anchors: uniqueSlug of crawler/ingestion/canonical.ts and its caller in normalize.ts. */
module Slugs {
  import opened Text

  const HYPHEN: Unit := 45
  const DIGIT_ZERO: Unit := 48

  function Digit(d: nat): Unit
    requires d < 10
  {
    DIGIT_ZERO + d
  }

  // String(n)
  function Decimal(n: nat): Str {
    if n < 10 then [Digit(n)] else Decimal(n / 10) + [Digit(n % 10)]
  }

  // How often `base` occurs among the first n bases.
  function Count(bases: seq<Str>, base: Str, n: nat): nat
    requires n <= |bases|
  {
    if n == 0 then 0 else Count(bases, base, n - 1) + (if bases[n - 1] == base then 1 else 0)
  }

  function Numbered(base: Str, n: nat): Str {
    if n == 1 then base else base + [HYPHEN] + Decimal(n)
  }

  // The anchor of heading i.
  function Anchor(bases: seq<Str>, i: nat): Str
    requires i < |bases|
  {
    Numbered(bases[i], Count(bases, bases[i], i + 1))
  }

  // counts.get(base) ?? 0
  function Seen(counts: map<Str, nat>, base: Str): nat {
    if base in counts then counts[base] else 0
  }

  method UniqueSlug(base: Str, counts: map<Str, nat>) returns (anchor: Str, after: map<Str, nat>)
    ensures anchor == Numbered(base, Seen(counts, base) + 1)
    ensures forall b :: Seen(after, b) == Seen(counts, b) + if b == base then 1 else 0
  {
    var next := Seen(counts, base) + 1;
    after := counts[base := next];
    anchor := if next == 1 then base else base + [HYPHEN] + Decimal(next);
  }

  method AnchorHeadings(bases: seq<Str>) returns (anchors: seq<Str>)
    ensures |anchors| == |bases| && forall i :: 0 <= i < |bases| ==> anchors[i] == Anchor(bases, i)
  {
    anchors := [];
    var counts: map<Str, nat> := map[];
    for n := 0 to |bases|
      invariant |anchors| == n && forall i :: 0 <= i < n ==> anchors[i] == Anchor(bases, i)
      invariant forall b :: Seen(counts, b) == Count(bases, b, n)
    {
      var anchor;
      anchor, counts := UniqueSlug(bases[n], counts);
      anchors := anchors + [anchor];
    }
  }

  // ---------------------------------------------------------------- numbered anchors are read back in one way

  lemma {:induction false} DecimalDigits(n: nat)
    ensures Decimal(n) != [] && forall k :: 0 <= k < |Decimal(n)| ==> Decimal(n)[k] != HYPHEN
  {
    if n >= 10 { DecimalDigits(n / 10); }
  }

  lemma {:induction false} DecimalInjective(n: nat, m: nat)
    requires Decimal(n) == Decimal(m)
    ensures n == m
  {
    DecimalDigits(n / 10);
    DecimalDigits(m / 10);
    var a, b := Decimal(n), Decimal(m);
    assert a[|a| - 1] == Digit(n % 10) && b[|b| - 1] == Digit(m % 10);
    if n >= 10 && m >= 10 {
      assert a[..|a| - 1] == Decimal(n / 10) && b[..|b| - 1] == Decimal(m / 10);
      DecimalInjective(n / 10, m / 10);
    }
  }

  // The hyphen of the longer tail would be a digit of the shorter one.
  lemma NumberedSplits(c: Str, n: nat, d: Str, m: nat)
    requires c + [HYPHEN] + Decimal(n) == d + [HYPHEN] + Decimal(m)
    ensures c == d && n == m
  {
    DecimalDigits(n);
    DecimalDigits(m);
    var s, t := c + [HYPHEN] + Decimal(n), d + [HYPHEN] + Decimal(m);
    LastHyphen(c, n, |d|);
    LastHyphen(d, m, |c|);
    assert t[|d|] == HYPHEN && s[|c|] == HYPHEN;
    assert c == s[..|c|] && d == t[..|d|];
    assert Decimal(n) == s[|c| + 1..] && Decimal(m) == t[|d| + 1..];
    DecimalInjective(n, m);
  }

  lemma LastHyphen(c: Str, n: nat, k: nat)
    requires var s := c + [HYPHEN] + Decimal(n);
             k < |s| && s[k] == HYPHEN
    ensures k <= |c|
  {
    DecimalDigits(n);
  }

  // ---------------------------------------------------------------- when anchors are distinct

  lemma {:induction false} CountGrows(bases: seq<Str>, base: Str, n: nat, m: nat)
    requires n <= m <= |bases|
    ensures Count(bases, base, n) <= Count(bases, base, m)
  {
    if n < m { CountGrows(bases, base, n, m - 1); }
  }

  // The heading that is the n-th with this base.
  lemma {:induction false} NthOccurrence(bases: seq<Str>, base: Str, n: nat, upto: nat) returns (i: nat)
    requires upto <= |bases| && 1 <= n <= Count(bases, base, upto)
    ensures i < upto && bases[i] == base && Count(bases, base, i + 1) == n
  {
    if bases[upto - 1] == base && n == Count(bases, base, upto) {
      i := upto - 1;
    } else {
      i := NthOccurrence(bases, base, n, upto - 1);
    }
  }

  // A base is what another one is called on its n-th use.
  predicate Clash(bases: seq<Str>, i: nat, j: nat, n: nat) {
    && i < |bases| && j < |bases| && 2 <= n <= Count(bases, bases[j], |bases|)
    && bases[i] == bases[j] + [HYPHEN] + Decimal(n)
  }

  predicate DistinctAnchors(bases: seq<Str>) {
    forall i, j :: 0 <= i < j < |bases| ==> Anchor(bases, i) != Anchor(bases, j)
  }

  lemma ClashRepeatsAnchor(bases: seq<Str>, i: nat, j: nat, n: nat)
    requires Clash(bases, i, j, n)
    ensures !DistinctAnchors(bases)
  {
    CountGrows(bases, bases[i], i + 1, |bases|);
    var first := NthOccurrence(bases, bases[i], 1, |bases|);
    var later := NthOccurrence(bases, bases[j], n, |bases|);
    assert Anchor(bases, first) == bases[i] == Anchor(bases, later);
    assert |bases[i]| != |bases[j]|;
  }

  lemma SameAnchorClashes(bases: seq<Str>, i: nat, j: nat)
    requires i < j < |bases| && Anchor(bases, i) == Anchor(bases, j)
    ensures exists a: nat, b: nat, n: nat :: Clash(bases, a, b, n)
  {
    var n, m := Count(bases, bases[i], i + 1), Count(bases, bases[j], j + 1);
    CountGrows(bases, bases[i], i + 1, |bases|);
    CountGrows(bases, bases[j], j + 1, |bases|);
    CountGrows(bases, bases[j], i + 1, j);
    if n == 1 && m > 1 {
      assert Clash(bases, i, j, m);
    } else if n > 1 && m == 1 {
      assert Clash(bases, j, i, n);
    } else if n > 1 {
      NumberedSplits(bases[i], n, bases[j], m);
    }
  }

  /** Anchors are distinct exactly when no base slug is another one followed by a number that the
      other one reaches. */
  lemma AnchorsDistinctIff(bases: seq<Str>)
    ensures DistinctAnchors(bases) <==> !exists i: nat, j: nat, n: nat :: Clash(bases, i, j, n)
  {
    if i: nat, j: nat, n: nat :| Clash(bases, i, j, n) { ClashRepeatsAnchor(bases, i, j, n); }
    if i, j :| 0 <= i < j < |bases| && Anchor(bases, i) == Anchor(bases, j) { SameAnchorClashes(bases, i, j); }
  }

  /** Headings a, a and a-2 get the anchors a, a-2 and a-2. */
  lemma UniqueSlugRepeats(a: Str)
    ensures var bases := [a, a, a + [HYPHEN, Digit(2)]];
            Anchor(bases, 0) == a && Anchor(bases, 1) == Anchor(bases, 2) == a + [HYPHEN, Digit(2)]
  {
    var bases := [a, a, a + [HYPHEN, Digit(2)]];
    assert |bases[2]| != |a|;
    assert Count(bases, a, 1) == 1 && Count(bases, a, 2) == 2;
    assert a != bases[2] && Count(bases, bases[2], 1) == Count(bases, bases[2], 0) == 0;
    assert Count(bases, bases[2], 2) == 0;
    assert a + [HYPHEN] + Decimal(2) == a + [HYPHEN, Digit(2)];
  }
}
