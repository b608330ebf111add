/** JavaScript strings: sequences of UTF-16 code units. */
module Text {
  type Unit = u: int | 0 <= u < 0x1_0000

  type Str = seq<Unit>

  const NUL: Unit := 0
  const TAB: Unit := 9
  const LF: Unit := 10
  const CR: Unit := 13
  const SPACE: Unit := 32
  const LINE_SEPARATOR: Unit := 0x2028
  const PARAGRAPH_SEPARATOR: Unit := 0x2029

  // A literal of the source.
  function Ascii(s: string): Str
    requires forall i :: 0 <= i < |s| ==> s[i] as int < 128
  {
    seq(|s|, i requires 0 <= i < |s| => s[i] as int)
  }

  // s.toLowerCase() for ASCII letters
  function Lower(s: Str): Str {
    seq(|s|, i requires 0 <= i < |s| => if 65 <= s[i] <= 90 then s[i] + 32 else s[i])
  }

  // The character class \s.
  predicate IsSpace(u: Unit) {
    || 9 <= u <= 13 || u == 32 || u == 0xA0 || u == 0x1680 || 0x2000 <= u <= 0x200A
    || u == 0x2028 || u == 0x2029 || u == 0x202F || u == 0x205F || u == 0x3000 || u == 0xFEFF
  }

  predicate AllSpace(s: Str) {
    forall i :: 0 <= i < |s| ==> IsSpace(s[i])
  }

  // The text without its whitespace.
  function Squash(s: Str): Str {
    if s == [] then []
    else (if IsSpace(s[0]) then [] else [s[0]]) + Squash(s[1..])
  }

  function Repeat(u: Unit, n: nat): Str {
    if n == 0 then [] else [u] + Repeat(u, n - 1)
  }

  lemma {:induction false} SquashConcat(a: Str, b: Str)
    ensures Squash(a + b) == Squash(a) + Squash(b)
  {
    if a == [] {
      assert a + b == b;
    } else {
      assert (a + b)[1..] == a[1..] + b;
      SquashConcat(a[1..], b);
    }
  }

  lemma {:induction false} SquashSpace(s: Str)
    requires AllSpace(s)
    ensures Squash(s) == []
  {
    if s != [] { SquashSpace(s[1..]); }
  }

  // How much of the text, from its start, is whitespace.
  function LeadingSpace(s: Str): (n: nat)
    ensures n <= |s|
  {
    if s == [] || !IsSpace(s[0]) then 0 else 1 + LeadingSpace(s[1..])
  }

  function TrailingSpace(s: Str): (n: nat)
    ensures n <= |s|
  {
    if s == [] || !IsSpace(s[|s| - 1]) then 0 else 1 + TrailingSpace(s[..|s| - 1])
  }

  lemma {:induction false} LeadingSpaceIs(s: Str)
    ensures forall k :: 0 <= k < LeadingSpace(s) ==> IsSpace(s[k])
    ensures LeadingSpace(s) < |s| ==> !IsSpace(s[LeadingSpace(s)])
  {
    if s != [] && IsSpace(s[0]) {
      LeadingSpaceIs(s[1..]);
      forall k | 0 <= k < LeadingSpace(s) ensures IsSpace(s[k]) { if k > 0 { assert s[k] == s[1..][k - 1]; } }
    }
  }

  lemma {:induction false} TrailingSpaceIs(s: Str)
    ensures forall k :: |s| - TrailingSpace(s) <= k < |s| ==> IsSpace(s[k])
    ensures TrailingSpace(s) < |s| ==> !IsSpace(s[|s| - TrailingSpace(s) - 1])
  {
    if s != [] && IsSpace(s[|s| - 1]) { TrailingSpaceIs(s[..|s| - 1]); }
  }

  // s.trim()
  function Trim(s: Str): Str {
    var t := s[LeadingSpace(s)..];
    t[..|t| - TrailingSpace(t)]
  }

  // What is between the first and the last unit that is no whitespace.
  predicate IsTrimmed(s: Str, t: Str, from: nat) {
    && from + |t| <= |s| && t == s[from..from + |t|]
    && (forall k :: 0 <= k < |s| && (k < from || from + |t| <= k) ==> IsSpace(s[k]))
    && (t != [] ==> !IsSpace(t[0]) && !IsSpace(t[|t| - 1]))
  }

  /** Trimming takes away just the whitespace at both ends. */
  lemma TrimIs(s: Str)
    ensures IsTrimmed(s, Trim(s), LeadingSpace(s))
  {
    var n := LeadingSpace(s);
    var t := s[n..];
    LeadingSpaceIs(s);
    TrailingSpaceIs(t);
    forall k | n + |Trim(s)| <= k < |s| ensures IsSpace(s[k]) { assert s[k] == t[k - n]; }
  }

  predicate OccursAt(s: Str, pattern: Str, k: int) {
    0 <= k && k + |pattern| <= |s| && s[k..k + |pattern|] == pattern
  }

  // s.lastIndexOf(pattern)
  function LastIndexOf(s: Str, pattern: Str): (i: int)
    requires pattern != []
    ensures i == -1 || OccursAt(s, pattern, i)
    ensures forall k :: i < k ==> !OccursAt(s, pattern, k)
    decreases |s|
  {
    if |s| < |pattern| then -1
    else if OccursAt(s, pattern, |s| - |pattern|) then |s| - |pattern|
    else
      var shorter := s[..|s| - 1];
      assert forall k :: OccursAt(shorter, pattern, k) ==> shorter[k..k + |pattern|] == s[k..k + |pattern|];
      assert forall k :: OccursAt(s, pattern, k) && k < |s| - |pattern| ==> OccursAt(shorter, pattern, k) by {
        forall k | OccursAt(s, pattern, k) && k < |s| - |pattern| ensures OccursAt(shorter, pattern, k) {
          assert shorter[k..k + |pattern|] == s[k..k + |pattern|];
        }
      }
      LastIndexOf(shorter, pattern)
  }
}
