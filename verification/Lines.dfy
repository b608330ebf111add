/** Lines of a source: sourceLines of crawler/ingestion/markdown.ts. */
module Lines {
  import opened Prelude
  import opened Text

  datatype Line = Line(text: Str, start: nat, end: nat)

  // What the pattern /./ does not match.
  predicate IsTerminator(u: Unit) {
    u == LF || u == CR || u == LINE_SEPARATOR || u == PARAGRAPH_SEPARATOR
  }

  // The end of the longest run of /./ from i on.
  function RunEnd(s: Str, i: nat): (k: nat)
    requires i <= |s|
    ensures i <= k <= |s| && (k < |s| ==> IsTerminator(s[k])) && forall j :: i <= j < k ==> !IsTerminator(s[j])
    decreases |s| - i
  {
    if i == |s| || IsTerminator(s[i]) then i else RunEnd(s, i + 1)
  }

  // The non-empty matches of /.*(?:\n|$)/g: a run that ends at another terminator never matches.
  function RawLines(s: Str): seq<Str>
    decreases |s|
  {
    if s == [] then []
    else
      var e := RunEnd(s, 0);
      if e == |s| then [s]
      else if s[e] == LF then [s[..e + 1]] + RawLines(s[e + 1..])
      else RawLines(s[e + 1..])
  }

  function WithoutEnding(raw: Str): Str {
    var text := if raw != [] && raw[|raw| - 1] == LF then raw[..|raw| - 1] else raw;
    if text != [] && text[|text| - 1] == CR then text[..|text| - 1] else text
  }

  // Each line starts where the one before ended, whatever was between them.
  function Numbered(raws: seq<Str>, start: nat): seq<Line> {
    if raws == [] then []
    else [Line(WithoutEnding(raws[0]), start, start + |raws[0]|)] + Numbered(raws[1..], start + |raws[0]|)
  }

  function SourceLines(content: Str): seq<Line> {
    Numbered(RawLines(content), 0)
  }

  lemma NumberedCons(raw: Str, rest: seq<Str>, start: nat)
    ensures Numbered([raw] + rest, start) == [Line(WithoutEnding(raw), start, start + |raw|)] + Numbered(rest, start + |raw|)
  {
    assert ([raw] + rest)[1..] == rest;
  }

  method ReadSourceLines(content: Str) returns (lines: seq<Line>)
    ensures lines == SourceLines(content)
  {
    lines := [];
    var rest, start: nat := content, 0;
    assert lines + SourceLines(content) == SourceLines(content);
    while rest != []
      invariant lines + Numbered(RawLines(rest), start) == SourceLines(content)
      decreases |rest|
    {
      var e := RunEnd(rest, 0);
      if e < |rest| && rest[e] != LF {
        rest := rest[e + 1..];
      } else {
        var raw := if e == |rest| then rest else rest[..e + 1];
        var line, left := Line(WithoutEnding(raw), start, start + |raw|), rest[|raw|..];
        assert RawLines(rest) == [raw] + RawLines(left);
        NumberedCons(raw, RawLines(left), start);
        Associates(lines, [line], Numbered(RawLines(left), start + |raw|));
        lines, rest, start := lines + [line], left, start + |raw|;
      }
    }
    assert lines + [] == lines;
  }

  // ---------------------------------------------------------------- when lines tile the content

  predicate IsOddTerminator(u: Unit) {
    IsTerminator(u) && u != LF
  }

  // No carriage return and no Unicode line or paragraph separator.
  predicate Plain(s: Str) {
    forall i :: 0 <= i < |s| ==> !IsOddTerminator(s[i])
  }

  function Concat(raws: seq<Str>): Str {
    if raws == [] then [] else raws[0] + Concat(raws[1..])
  }

  lemma ConcatCons(raw: Str, rest: seq<Str>)
    ensures Concat([raw] + rest) == raw + Concat(rest) && (rest == [] ==> Concat([raw]) == raw)
  {
    assert ([raw] + rest)[1..] == rest;
  }

  predicate AllPlain(raws: seq<Str>) {
    forall k :: 0 <= k < |raws| ==> Plain(raws[k])
  }

  lemma PlainCons(raw: Str, rest: seq<Str>)
    requires Plain(raw) && AllPlain(rest) && Plain(Concat(rest))
    ensures AllPlain([raw] + rest) && Plain(Concat([raw] + rest))
  {
    ConcatCons(raw, rest);
  }

  lemma {:induction false} RawLinesArePlain(s: Str)
    ensures AllPlain(RawLines(s)) && Plain(Concat(RawLines(s)))
    decreases |s|
  {
    if s != [] {
      var e := RunEnd(s, 0);
      if e == |s| {
        PlainCons(s, []);
      } else {
        RawLinesArePlain(s[e + 1..]);
        if s[e] == LF {
          assert Plain(s[..e + 1]);
          PlainCons(s[..e + 1], RawLines(s[e + 1..]));
        }
      }
    }
  }

  lemma {:induction false} PlainLinesTile(s: Str)
    requires Plain(s)
    ensures Concat(RawLines(s)) == s
    decreases |s|
  {
    if s != [] {
      var e := RunEnd(s, 0);
      if e < |s| {
        assert s[e] == LF && Plain(s[e + 1..]);
        PlainLinesTile(s[e + 1..]);
        ConcatCons(s[..e + 1], RawLines(s[e + 1..]));
      } else {
        ConcatCons(s, []);
      }
    }
  }

  /** The lines make up the content exactly when it has no carriage return and no Unicode separator;
      the carriage return that is stripped from a line is never there. */
  lemma LinesTileIff(content: Str)
    ensures Concat(RawLines(content)) == content <==> Plain(content)
    ensures forall k :: 0 <= k < |RawLines(content)| ==>
              var raw := RawLines(content)[k];
              WithoutEnding(raw) == if raw != [] && raw[|raw| - 1] == LF then raw[..|raw| - 1] else raw
  {
    RawLinesArePlain(content);
    if Plain(content) { PlainLinesTile(content); }
    forall k | 0 <= k < |RawLines(content)|
      ensures var raw := RawLines(content)[k];
              WithoutEnding(raw) == if raw != [] && raw[|raw| - 1] == LF then raw[..|raw| - 1] else raw
    {
      var raw := RawLines(content)[k];
      assert Plain(raw);
    }
  }

  lemma TakeFirst(content: Str, start: nat, first: Str, rest: Str)
    requires start <= |content| && content[start..] == first + rest
    ensures start + |first| <= |content|
    ensures content[start..start + |first|] == first && content[start + |first|..] == rest
  {
    var c := content[start..];
    assert c[..|first|] == first && c[|first|..] == rest;
  }

  lemma {:induction false} SameLength(raws: seq<Str>, start: nat)
    ensures |Numbered(raws, start)| == |raws|
  {
    if raws != [] { SameLength(raws[1..], start + |raws[0]|); }
  }

  lemma LaterLine(raws: seq<Str>, start: nat, k: nat)
    requires 0 < k < |raws|
    ensures |Numbered(raws, start)| == |raws| && |Numbered(raws[1..], start + |raws[0]|)| == |raws| - 1
    ensures Numbered(raws, start)[k] == Numbered(raws[1..], start + |raws[0]|)[k - 1]
  {
    SameLength(raws, start);
    SameLength(raws[1..], start + |raws[0]|);
  }

  // A line starts where the one before it ends.
  lemma {:induction false} LinesAdjoin(raws: seq<Str>, start: nat, k: nat)
    requires k < |raws|
    ensures |Numbered(raws, start)| == |raws|
    ensures Numbered(raws, start)[k].start == if k == 0 then start else Numbered(raws, start)[k - 1].end
  {
    SameLength(raws, start);
    if k > 0 {
      LaterLine(raws, start, k);
      LinesAdjoin(raws[1..], start + |raws[0]|, k - 1);
      if k > 1 { LaterLine(raws, start, k - 1); }
    }
  }

  // Line k, numbered from `start`, when the raw lines make up the content from there.
  lemma {:induction false} RangeOfLine(content: Str, raws: seq<Str>, start: nat, k: nat)
    requires start <= |content| && Concat(raws) == content[start..] && k < |raws|
    ensures |Numbered(raws, start)| == |raws|
    ensures var line := Numbered(raws, start)[k];
            && start <= line.start <= line.end <= |content| && content[line.start..line.end] == raws[k]
            && line.text == WithoutEnding(raws[k])
  {
    FirstRange(content, raws, start);
    if k > 0 {
      RangeOfLine(content, raws[1..], start + |raws[0]|, k - 1);
      LaterLine(raws, start, k);
    }
  }

  lemma FirstRange(content: Str, raws: seq<Str>, start: nat)
    requires start <= |content| && Concat(raws) == content[start..] && raws != []
    ensures |Numbered(raws, start)| == |raws| && start + |raws[0]| <= |content|
    ensures Numbered(raws, start)[0] == Line(WithoutEnding(raws[0]), start, start + |raws[0]|)
    ensures content[start..start + |raws[0]|] == raws[0] && content[start + |raws[0]|..] == Concat(raws[1..])
  {
    TakeFirst(content, start, raws[0], Concat(raws[1..]));
    SameLength(raws, start);
  }

  /** In plain content each line's range is the line, and starts where the range before it ends. */
  lemma LineRanges(content: Str, k: nat)
    requires Plain(content) && k < |RawLines(content)|
    ensures |SourceLines(content)| == |RawLines(content)|
    ensures var line := SourceLines(content)[k];
            && line.start <= line.end <= |content| && content[line.start..line.end] == RawLines(content)[k]
            && line.text == WithoutEnding(RawLines(content)[k])
            && line.start == (if k == 0 then 0 else SourceLines(content)[k - 1].end)
  {
    LinesTileIff(content);
    assert content[0..] == content;
    SameLength(RawLines(content), 0);
    RangeOfLine(content, RawLines(content), 0, k);
    LinesAdjoin(RawLines(content), 0, k);
  }

  // ---------------------------------------------------------------- lines of plain content

  // s.split("\n")
  function Split(s: Str): seq<Str>
    decreases |s|
  {
    var e := RunEnd(s, 0);
    if e == |s| then [s] else [s[..e]] + Split(s[e + 1..])
  }

  function TextsOf(raws: seq<Str>): seq<Str> {
    if raws == [] then [] else [WithoutEnding(raws[0])] + TextsOf(raws[1..])
  }
}
