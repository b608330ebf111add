/** Normalised code text: normalizeCode of crawler/ingestion/canonical.ts. Unicode composition is a parameter. */
module CodeText {
  import opened Text
  import opened Lines

  // value.replaceAll("\0", "")
  function WithoutNul(s: Str): Str {
    if s == [] then [] else (if s[0] == NUL then [] else [s[0]]) + WithoutNul(s[1..])
  }

  // value.replace(/\r\n?/g, "\n")
  function WithLineFeeds(s: Str): Str {
    if s == [] then []
    else if s[0] != CR then [s[0]] + WithLineFeeds(s[1..])
    else if |s| > 1 && s[1] == LF then [LF] + WithLineFeeds(s[2..])
    else [LF] + WithLineFeeds(s[1..])
  }

  predicate IsBlank(u: Unit) {
    u == SPACE || u == TAB
  }

  // value.replace(/[ \t]+$/gm, "")
  function WithoutTrailing(s: Str): Str {
    if s == [] then []
    else
      var rest := WithoutTrailing(s[1..]);
      if IsBlank(s[0]) && (rest == [] || IsTerminator(rest[0])) then rest else [s[0]] + rest
  }

  function WithoutLeadingLines(s: Str): Str {
    if s != [] && s[0] == LF then WithoutLeadingLines(s[1..]) else s
  }

  function WithoutFinalLines(s: Str): Str {
    if s != [] && s[|s| - 1] == LF then WithoutFinalLines(s[..|s| - 1]) else s
  }

  // All but composition and the removal of NUL.
  function Tidy(s: Str): Str {
    WithoutFinalLines(WithoutLeadingLines(WithoutTrailing(WithLineFeeds(s))))
  }

  function NormalizeCode(nfc: Str -> Str, s: Str): Str {
    Tidy(WithoutNul(nfc(s)))
  }

  predicate NoReturns(s: Str) {
    forall i :: 0 <= i < |s| ==> s[i] != CR
  }

  // No blank stands before the end of its line.
  predicate NoTrailing(s: Str) {
    forall i :: 0 <= i < |s| && IsBlank(s[i]) ==> i + 1 < |s| && !IsTerminator(s[i + 1])
  }

  predicate NoOuterLines(s: Str) {
    s != [] ==> s[0] != LF && s[|s| - 1] != LF
  }

  predicate IsTidy(s: Str) {
    NoReturns(s) && NoTrailing(s) && NoOuterLines(s)
  }

  lemma {:induction false} LineFeedsOnly(s: Str)
    ensures NoReturns(WithLineFeeds(s))
    decreases |s|
  {
    if s != [] {
      LineFeedsOnly(s[1..]);
      if |s| > 1 { LineFeedsOnly(s[2..]); }
    }
  }

  lemma {:induction false} TrailingGone(s: Str)
    requires NoReturns(s)
    ensures NoTrailing(WithoutTrailing(s)) && NoReturns(WithoutTrailing(s))
  {
    if s != [] {
      TrailingGone(s[1..]);
      var rest := WithoutTrailing(s[1..]);
      if !(IsBlank(s[0]) && (rest == [] || IsTerminator(rest[0]))) { TrailingStep(s[0], rest); }
    }
  }

  lemma TrailingStep(u: Unit, rest: Str)
    requires NoTrailing(rest) && NoReturns(rest) && u != CR && !(IsBlank(u) && (rest == [] || IsTerminator(rest[0])))
    ensures NoTrailing([u] + rest) && NoReturns([u] + rest)
  {
    var s := [u] + rest;
    forall i | 0 <= i < |s| && IsBlank(s[i]) ensures i + 1 < |s| && !IsTerminator(s[i + 1]) {
      if i > 0 { assert s[i] == rest[i - 1]; }
    }
  }

  lemma {:induction false} LeadingGone(s: Str)
    requires NoReturns(s) && NoTrailing(s)
    ensures var t := WithoutLeadingLines(s); NoReturns(t) && NoTrailing(t) && (t != [] ==> t[0] != LF)
  {
    if s != [] && s[0] == LF {
      assert forall i :: 0 <= i < |s[1..]| ==> s[1..][i] == s[i + 1];
      LeadingGone(s[1..]);
    }
  }

  // A line that ends in a blank is not the last one, so the final newlines go without uncovering a blank.
  lemma {:induction false} FinalGone(s: Str)
    requires NoReturns(s) && NoTrailing(s) && (s != [] ==> s[0] != LF)
    ensures IsTidy(WithoutFinalLines(s))
  {
    if s != [] && s[|s| - 1] == LF {
      var t := s[..|s| - 1];
      forall i | 0 <= i < |t| && IsBlank(t[i]) ensures i + 1 < |t| && !IsTerminator(t[i + 1]) {
        assert s[i] == t[i];
      }
      FinalGone(t);
    }
  }

  lemma {:induction false} TidyFixes(s: Str)
    requires NoReturns(s) && NoTrailing(s)
    ensures WithLineFeeds(s) == s && WithoutTrailing(s) == s
  {
    if s != [] {
      forall i | 0 <= i < |s[1..]| ensures s[1..][i] == s[i + 1] {}
      TidyFixes(s[1..]);
      assert s == [s[0]] + s[1..];
    }
  }

  /** Trimming lines and newlines is idempotent: its results are exactly the texts with no carriage
      return, no blank at the end of a line and no newline at either end, and it keeps those. */
  lemma TidyIsIdempotent(s: Str)
    ensures IsTidy(Tidy(s)) && (IsTidy(s) ==> Tidy(s) == s)
  {
    LineFeedsOnly(s);
    TrailingGone(WithLineFeeds(s));
    LeadingGone(WithoutTrailing(WithLineFeeds(s)));
    FinalGone(WithoutLeadingLines(WithoutTrailing(WithLineFeeds(s))));
    if IsTidy(s) { TidyFixes(s); }
  }

  predicate NoNul(s: Str) {
    forall i :: 0 <= i < |s| ==> s[i] != NUL
  }

  // What composition is known to do: nothing the second time, it makes no NUL, it keeps lines and
  // newlines trimmed, and whether it changes a text has nothing to do with what is trimmed.
  ghost predicate Composition(nfc: Str -> Str) {
    && (forall s :: nfc(nfc(s)) == nfc(s)) && (forall s :: NoNul(s) ==> NoNul(nfc(s)))
    && (forall s :: IsTidy(s) ==> IsTidy(nfc(s))) && (forall s :: nfc(Tidy(s)) == Tidy(s) <==> nfc(s) == s)
  }

  lemma {:induction false} NulGone(s: Str)
    ensures NoNul(WithoutNul(s)) && (NoNul(s) ==> WithoutNul(s) == s)
  {
    if s != [] {
      NulGone(s[1..]);
      assert NoNul(s) ==> NoNul(s[1..]) && s == [s[0]] + s[1..];
    }
  }

  lemma {:induction false} NoNulWithLineFeeds(s: Str)
    requires NoNul(s)
    ensures NoNul(WithLineFeeds(s))
    decreases |s|
  {
    if s != [] {
      NoNulWithLineFeeds(s[1..]);
      if |s| > 1 { NoNulWithLineFeeds(s[2..]); }
    }
  }

  lemma {:induction false} NoNulTrimmed(s: Str)
    requires NoNul(s)
    ensures NoNul(WithoutTrailing(s)) && NoNul(WithoutLeadingLines(s)) && NoNul(WithoutFinalLines(s))
    decreases |s|
  {
    if s != [] {
      NoNulTrimmed(s[1..]);
      NoNulTrimmed(s[..|s| - 1]);
    }
  }

  lemma NoNulTidied(s: Str)
    requires NoNul(s)
    ensures NoNul(Tidy(s))
  {
    NoNulWithLineFeeds(s);
    NoNulTrimmed(WithLineFeeds(s));
    NoNulTrimmed(WithoutTrailing(WithLineFeeds(s)));
    NoNulTrimmed(WithoutLeadingLines(WithoutTrailing(WithLineFeeds(s))));
  }

  /** Normalising a second time changes nothing exactly if composition leaves the composed text alone
      once its NULs are gone; a text without NUL is such a text. */
  lemma NormalizingTwiceIff(nfc: Str -> Str, s: Str)
    requires Composition(nfc)
    ensures NormalizeCode(nfc, NormalizeCode(nfc, s)) == NormalizeCode(nfc, s)
      <==> nfc(WithoutNul(nfc(s))) == WithoutNul(nfc(s))
    ensures NoNul(s) ==> NormalizeCode(nfc, NormalizeCode(nfc, s)) == NormalizeCode(nfc, s)
  {
    var u := WithoutNul(nfc(s));
    var once := Tidy(u);
    NulGone(nfc(s));
    NoNulTidied(u);
    TidyIsIdempotent(u);
    NulGone(nfc(once));
    assert IsTidy(nfc(once)) && WithoutNul(nfc(once)) == nfc(once);
    TidyIsIdempotent(nfc(once));
    assert NormalizeCode(nfc, once) == nfc(once);
  }

  predicate Ordinary(u: Unit) {
    u != NUL && !IsBlank(u) && !IsTerminator(u)
  }

  lemma OrdinaryIsTidy(s: Str)
    requires forall i :: 0 <= i < |s| ==> Ordinary(s[i])
    ensures Tidy(s) == s
  {
    TidyIsIdempotent(s);
  }

  /** Normalising as a whole is not: a NUL that kept two units from being composed is removed after
      composition, and a second pass composes them. */
  lemma NormalizingTwiceMayDiffer(nfc: Str -> Str, base: Unit, mark: Unit, composed: Unit)
    requires Ordinary(base) && Ordinary(mark) && Ordinary(composed)
    requires nfc([base, NUL, mark]) == [base, NUL, mark] && nfc([base, mark]) == [composed]
    ensures NormalizeCode(nfc, [base, NUL, mark]) == [base, mark] && NormalizeCode(nfc, [base, mark]) == [composed]
  {
    assert WithoutNul([mark]) == [mark] && [NUL, mark][1..] == [mark];
    assert WithoutNul([NUL, mark]) == [mark] && [base, NUL, mark][1..] == [NUL, mark];
    assert WithoutNul([base, NUL, mark]) == [base] + [mark] == [base, mark];
    assert WithoutNul([composed]) == [composed];
    OrdinaryIsTidy([base, mark]);
    OrdinaryIsTidy([composed]);
  }
}
