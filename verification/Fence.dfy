/** Printing code as a fence and parsing it back: renderBlock of crawler/ingestion/render.ts against parseMarkdown. */
module Fence {
  import opened Prelude
  import opened Text
  import opened Lines
  import opened CodeText
  import opened Markdown

  // ---------------------------------------------------------------- printing

  function Max(a: nat, b: nat): nat { if a >= b then a else b }

  // The longest run of backticks from i on.
  function LongestRun(code: Str, i: nat): nat
    requires i <= |code|
    decreases |code| - i
  {
    if i == |code| then 0 else Max(RunOf(code, BACKTICK, i), LongestRun(code, i + 1))
  }

  function FenceLength(code: Str): nat {
    Max(3, LongestRun(code, 0) + 1)
  }

  function InfoOf(language: Option<Str>): Str {
    if language.Some? then language.value else []
  }

  function RenderCode(language: Option<Str>, code: Str): Str {
    var fence := Repeat(BACKTICK, FenceLength(code));
    (fence + InfoOf(language)) + [LF] + (code + [LF] + fence)
  }

  // A language name that reads back as itself: no space, no brace, no backtick.
  predicate PlainLanguage(language: Option<Str>) {
    language.Some? ==>
      && language.value != []
      && forall i :: 0 <= i < |language.value| ==>
           var u := language.value[i]; !IsSpace(u) && u != OPEN_BRACE && u != CLOSE_BRACE && u != BACKTICK
  }

  // ---------------------------------------------------------------- the lines of the printed text

  function Texts(s: Str): seq<Str> {
    TextsOf(RawLines(s))
  }

  predicate OneLine(s: Str) {
    forall i :: 0 <= i < |s| ==> !IsTerminator(s[i])
  }

  lemma {:induction false} RunIsWhole(s: Str, a: Str, i: nat)
    requires OneLine(a) && i <= |a| <= |s| && s[..|a|] == a && (|a| < |s| ==> IsTerminator(s[|a|]))
    ensures RunEnd(s, i) == |a|
    decreases |a| - i
  {
    if i < |a| {
      assert s[i] == a[i];
      RunIsWhole(s, a, i + 1);
    }
  }

  lemma TextsCons(raw: Str, rest: seq<Str>)
    ensures TextsOf([raw] + rest) == [WithoutEnding(raw)] + TextsOf(rest)
  {
    assert ([raw] + rest)[1..] == rest;
  }

  lemma EndingOfLine(a: Str)
    requires OneLine(a)
    ensures WithoutEnding(a) == a && WithoutEnding(a + [LF]) == a
  {
    assert (a + [LF])[..|a + [LF]| - 1] == a;
  }

  lemma FirstLine(a: Str, b: Str)
    requires OneLine(a)
    ensures Texts(a + [LF] + b) == [a] + Texts(b)
  {
    var s := a + [LF] + b;
    assert s[..|a|] == a && s[|a|] == LF;
    RunIsWhole(s, a, 0);
    assert s[..|a| + 1] == a + [LF] && s[|a| + 1..] == b;
    TextsCons(a + [LF], RawLines(b));
    EndingOfLine(a);
  }

  lemma LastLine(a: Str)
    requires OneLine(a) && a != []
    ensures Texts(a) == [a]
  {
    RunIsWhole(a, a, 0);
    assert RawLines(a) == [a] + [];
    TextsCons(a, []);
    EndingOfLine(a);
  }

  // The first line of text with a terminator, its terminator and the rest.
  lemma CutAtLineFeed(code: Str, e: nat, tail: Str)
    requires e < |code| && code[e] == LF
    ensures var first, rest := code[..e], code[e + 1..];
            code + [LF] + tail == first + [LF] + (rest + [LF] + tail)
  {
    assert code == code[..e] + [LF] + code[e + 1..];
  }

  lemma {:induction false} LinesOfCode(code: Str, tail: Str)
    requires Plain(code)
    ensures Texts(code + [LF] + tail) == Split(code) + Texts(tail)
    decreases |code|
  {
    var e := RunEnd(code, 0);
    var first := code[..e];
    if e == |code| {
      assert first == code;
      FirstLine(code, tail);
    } else {
      var rest := code[e + 1..];
      assert Plain(rest) && OneLine(first) && code[e] == LF;
      LinesOfCode(rest, tail);
      FirstLine(first, rest + [LF] + tail);
      CutAtLineFeed(code, e, tail);
      Associates([first], Split(rest), Texts(tail));
    }
  }

  lemma JoinCons(first: Str, rest: seq<Str>)
    requires rest != []
    ensures JoinLines([first] + rest) == first + [LF] + JoinLines(rest)
  {
    assert ([first] + rest)[1..] == rest;
  }

  lemma {:induction false} JoinOfSplit(code: Str)
    requires Plain(code)
    ensures JoinLines(Split(code)) == code && Split(code) != []
    decreases |code|
  {
    var e := RunEnd(code, 0);
    if e < |code| {
      var rest := code[e + 1..];
      assert Plain(rest) && code[e] == LF;
      JoinOfSplit(rest);
      JoinCons(code[..e], Split(rest));
      assert code == code[..e] + [LF] + rest;
    }
  }

  lemma {:induction false} RepeatIs(u: Unit, n: nat)
    ensures |Repeat(u, n)| == n && forall i :: 0 <= i < n ==> Repeat(u, n)[i] == u
  {
    if n > 0 { RepeatIs(u, n - 1); }
  }

  // ---------------------------------------------------------------- no line of the code closes the fence

  predicate HasRun(s: Str, i: nat, n: nat) {
    i + n <= |s| && forall k :: i <= k < i + n ==> s[k] == BACKTICK
  }

  lemma {:induction false} RunReaches(s: Str, i: nat, n: nat)
    requires HasRun(s, i, n)
    ensures RunOf(s, BACKTICK, i) >= n
    decreases n
  {
    if n > 0 { RunReaches(s, i + 1, n - 1); }
  }

  lemma {:induction false} LongestRunReaches(s: Str, from: nat, i: nat, n: nat)
    requires from <= i && HasRun(s, i, n) && n > 0
    ensures LongestRun(s, from) >= n
    decreases i - from
  {
    if from == i { RunReaches(s, i, n); } else { LongestRunReaches(s, from + 1, i, n); }
  }

  // A run in a line of the code is a run in the code.
  lemma {:induction false} RunInLine(code: Str, k: nat, i: nat, n: nat) returns (j: nat)
    requires Plain(code) && k < |Split(code)| && HasRun(Split(code)[k], i, n)
    ensures HasRun(code, j, n)
    decreases |code|
  {
    var e := RunEnd(code, 0);
    if e == |code| {
      j := i;
    } else if k == 0 {
      j := i;
      assert forall m :: i <= m < i + n ==> code[m] == code[..e][m];
    } else {
      var rest := code[e + 1..];
      assert Split(code)[k] == Split(rest)[k - 1];
      var m := RunInLine(rest, k - 1, i, n);
      j := e + 1 + m;
      assert forall x :: j <= x < j + n ==> code[x] == rest[x - e - 1];
    }
  }

  lemma NoLineCloses(code: Str, k: nat)
    requires Plain(code) && k < |Split(code)|
    ensures !ClosesFence(Split(code)[k], BACKTICK, FenceLength(code))
  {
    var text, n := Split(code)[k], FenceLength(code);
    if ClosesFence(text, BACKTICK, n) {
      var indent := LeadingSpace(text);
      assert HasRun(text, indent, n);
      var j := RunInLine(code, k, indent, n);
      LongestRunReaches(code, 0, j, n);
    }
  }

  // ---------------------------------------------------------------- the opening and closing line

  lemma {:induction false} RunOfRepeat(text: Str, n: nat, i: nat)
    requires i <= n <= |text| && (forall k :: 0 <= k < n ==> text[k] == BACKTICK) && (n < |text| ==> text[n] != BACKTICK)
    ensures RunOf(text, BACKTICK, i) == n - i
    decreases n - i
  {
    if i < n { RunOfRepeat(text, n, i + 1); }
  }

  lemma OpeningLine(n: nat, info: Str)
    requires n >= 3 && (info != [] ==> info[0] != BACKTICK)
    ensures var text := Repeat(BACKTICK, n) + info;
            && FenceOf(text) == Some(FenceStart(BACKTICK, n, info)) && LeadingSpace(text) == 0
            && text != [] && text[0] == BACKTICK
  {
    var text := Repeat(BACKTICK, n) + info;
    RepeatIs(BACKTICK, n);
    assert forall k :: 0 <= k < n ==> text[k] == BACKTICK;
    assert LeadingSpace(text) == 0;
    RunOfRepeat(text, n, 0);
    assert text[n..] == info;
  }

  lemma ClosingLine(n: nat)
    requires n >= 3
    ensures ClosesFence(Repeat(BACKTICK, n), BACKTICK, n)
  {
    var text := Repeat(BACKTICK, n);
    RepeatIs(BACKTICK, n);
    assert LeadingSpace(text) == 0;
    RunOfRepeat(text, n, 0);
  }

  // A line that starts with a backtick is not blank and no front matter.
  lemma StartsVisible(text: Str)
    requires text != [] && text[0] == BACKTICK
    ensures Trim(text) != [] && Trim(text)[0] == BACKTICK
  {
    assert LeadingSpace(text) == 0 && text[0..] == text;
    SomeLeft(text);
  }

  lemma {:induction false} SomeLeft(s: Str)
    requires s != [] && !IsSpace(s[0])
    ensures TrailingSpace(s) < |s|
  {
    if |s| > 1 && IsSpace(s[|s| - 1]) { SomeLeft(s[..|s| - 1]); }
  }

  // ---------------------------------------------------------------- the language

  lemma {:induction false} WordIsWhole(s: Str)
    requires forall i :: 0 <= i < |s| ==> !IsSpace(s[i]) && s[i] != CLOSE_BRACE
    ensures FirstWord(s) == s && UpTo(s, CLOSE_BRACE) == s
  {
    if s != [] {
      WordIsWhole(s[1..]);
      assert s == [s[0]] + s[1..];
    }
  }

  lemma LanguageReadsBack(language: Option<Str>)
    requires PlainLanguage(language)
    ensures LanguageOf(InfoOf(language)) == language
  {
    var info := InfoOf(language);
    assert LeadingSpace(info) == 0 && info[0..] == info;
    assert TrailingSpace(info) == 0 && info[..|info|] == info;
    assert Trim(info) == info;
    WordIsWhole(info);
  }

  // ---------------------------------------------------------------- round trip

  lemma {:induction false} TextsOfLines(raws: seq<Str>, start: nat)
    ensures |Numbered(raws, start)| == |raws| == |TextsOf(raws)|
    ensures forall k :: 0 <= k < |raws| ==> Numbered(raws, start)[k].text == TextsOf(raws)[k]
  {
    if raws != [] {
      var rest := raws[1..];
      TextsOfLines(rest, start + |raws[0]|);
      forall k | 0 <= k < |raws| ensures Numbered(raws, start)[k].text == TextsOf(raws)[k] {
        if k > 0 { assert Numbered(rest, start + |raws[0]|)[k - 1].text == TextsOf(rest)[k - 1]; }
      }
    }
  }

  lemma TextsOfSource(content: Str)
    ensures |SourceLines(content)| == |Texts(content)|
    ensures forall k :: 0 <= k < |Texts(content)| ==> SourceLines(content)[k].text == Texts(content)[k]
  {
    TextsOfLines(RawLines(content), 0);
  }

  // The printed text has the opening line, the lines of the code, and the closing line.
  lemma TextsOfRendered(language: Option<Str>, code: Str)
    requires PlainLanguage(language) && Plain(code)
    ensures var fence := Repeat(BACKTICK, FenceLength(code));
            Texts(RenderCode(language, code)) == [fence + InfoOf(language)] + (Split(code) + [fence])
  {
    var fence := Repeat(BACKTICK, FenceLength(code));
    RepeatIs(BACKTICK, FenceLength(code));
    assert OneLine(fence + InfoOf(language));
    FirstLine(fence + InfoOf(language), code + [LF] + fence);
    LinesOfCode(code, fence);
    LastLine(fence);
  }

  // Where the fence ends: at the first line that closes it.
  lemma {:induction false} FenceEndIs(lines: seq<Line>, i: nat, end: nat, marker: Unit, minimum: nat)
    requires i <= end < |lines| && ClosesFence(lines[end].text, marker, minimum)
    requires forall k :: i <= k < end ==> !ClosesFence(lines[k].text, marker, minimum)
    ensures FenceEnd(lines, i, marker, minimum) == end
    decreases end - i
  {
    if i < end { FenceEndIs(lines, i + 1, end, marker, minimum); }
  }

  // These are an opening line, the lines of the code, and a closing line.
  ghost predicate AreRendered(lines: seq<Line>, language: Option<Str>, code: Str) {
    var fence := Repeat(BACKTICK, FenceLength(code));
    && |lines| == |Split(code)| + 2 && lines[0].text == fence + InfoOf(language) && lines[|lines| - 1].text == fence
    && forall k :: 0 <= k < |Split(code)| ==> lines[k + 1].text == Split(code)[k]
  }

  lemma RenderedLinesStayOpen(lines: seq<Line>, language: Option<Str>, code: Str, k: nat)
    requires AreRendered(lines, language, code) && Plain(code) && 1 <= k < |lines| - 1
    ensures !ClosesFence(lines[k].text, BACKTICK, FenceLength(code))
  {
    NoLineCloses(code, k - 1);
    assert lines[k - 1 + 1].text == Split(code)[k - 1];
  }

  lemma RenderedTexts(lines: seq<Line>, language: Option<Str>, code: Str)
    requires AreRendered(lines, language, code)
    ensures TextsBetween(lines, 1, |lines| - 1) == Split(code)
  {
  }

  lemma RenderedFenceEnds(lines: seq<Line>, language: Option<Str>, code: Str)
    requires AreRendered(lines, language, code) && Plain(code)
    ensures FenceEnd(lines, 1, BACKTICK, FenceLength(code)) == |lines| - 1
    ensures TextsBetween(lines, 1, |lines| - 1) == Split(code)
  {
    var n, end := FenceLength(code), |lines| - 1;
    ClosingLine(n);
    forall k | 1 <= k < end ensures !ClosesFence(lines[k].text, BACKTICK, n) {
      RenderedLinesStayOpen(lines, language, code, k);
    }
    FenceEndIs(lines, 1, end, BACKTICK, n);
    RenderedTexts(lines, language, code);
  }

  lemma RenderedStarts(lines: seq<Line>, language: Option<Str>, code: Str)
    requires AreRendered(lines, language, code) && PlainLanguage(language)
    ensures FenceOf(lines[0].text) == Some(FenceStart(BACKTICK, FenceLength(code), InfoOf(language)))
    ensures !IsBlankLine(lines[0].text) && FrontMatterEnd(lines) == 0
  {
    OpeningLine(FenceLength(code), InfoOf(language));
    StartsVisible(lines[0].text);
  }

  // Parsing those lines.
  lemma FenceParses(g: Grammar, mdx: bool, language: Option<Str>, code: Str, lines: seq<Line>)
    requires Sensible(g) && PlainLanguage(language) && Plain(code) && NormalizeCode(g.nfc, code) == code
    requires AreRendered(lines, language, code)
    ensures ParseFrom(g, mdx, lines, FrontMatterEnd(lines)) == [Block(Code(language, code), 0, |lines|)]
  {
    RenderedStarts(lines, language, code);
    RenderedFenceEnds(lines, language, code);
    LanguageReadsBack(language);
    JoinOfSplit(code);
    assert StepAt(g, mdx, lines, 0) == Emit(Code(language, code), |lines|);
  }

  lemma PlainRoundTrip(g: Grammar, mdx: bool, language: Option<Str>, code: Str)
    requires Sensible(g) && PlainLanguage(language) && Plain(code) && NormalizeCode(g.nfc, code) == code
    ensures Parsed(g, mdx, RenderCode(language, code))
         == [Block(Code(language, code), 0, |SourceLines(RenderCode(language, code))|)]
  {
    var content := RenderCode(language, code);
    TextsOfRendered(language, code);
    TextsOfSource(content);
    FenceParses(g, mdx, language, code, SourceLines(content));
  }

  // ---------------------------------------------------------------- when the code has separators

  // Composition makes no terminator out of other units.
  ghost predicate ComposesPlainly(nfc: Str -> Str) {
    forall s :: Plain(s) ==> Plain(nfc(s))
  }

  lemma PlainJoined(a: Str, b: Str)
    requires Plain(a) && Plain(b)
    ensures Plain(a + b)
  {
  }

  lemma {:induction false} PlainWithoutNul(s: Str)
    requires Plain(s)
    ensures Plain(WithoutNul(s))
  {
    if s != [] { PlainWithoutNul(s[1..]); }
  }

  lemma {:induction false} PlainWithLineFeeds(s: Str)
    requires Plain(s)
    ensures Plain(WithLineFeeds(s))
    decreases |s|
  {
    if s != [] {
      assert s[0] != CR;
      PlainWithLineFeeds(s[1..]);
      PlainJoined([s[0]], WithLineFeeds(s[1..]));
    }
  }

  lemma {:induction false} PlainWithoutTrailing(s: Str)
    requires Plain(s)
    ensures Plain(WithoutTrailing(s))
  {
    if s != [] {
      PlainWithoutTrailing(s[1..]);
      PlainJoined([s[0]], WithoutTrailing(s[1..]));
    }
  }

  lemma {:induction false} PlainWithoutOuterLines(s: Str)
    requires Plain(s)
    ensures Plain(WithoutLeadingLines(s)) && Plain(WithoutFinalLines(s))
    decreases |s|
  {
    if s != [] {
      PlainWithoutOuterLines(s[1..]);
      PlainWithoutOuterLines(s[..|s| - 1]);
    }
  }

  lemma PlainNormalized(nfc: Str -> Str, s: Str)
    requires ComposesPlainly(nfc) && Plain(s)
    ensures Plain(NormalizeCode(nfc, s))
  {
    var t := WithoutNul(nfc(s));
    PlainWithoutNul(nfc(s));
    PlainWithLineFeeds(t);
    PlainWithoutTrailing(WithLineFeeds(t));
    PlainWithoutOuterLines(WithoutTrailing(WithLineFeeds(t)));
    PlainWithoutOuterLines(WithoutLeadingLines(WithoutTrailing(WithLineFeeds(t))));
  }

  lemma {:induction false} PlainJoinedLines(texts: seq<Str>)
    requires AllPlain(texts)
    ensures Plain(JoinLines(texts))
  {
    if |texts| > 1 {
      PlainJoinedLines(texts[1..]);
      PlainJoined(texts[0] + [LF], JoinLines(texts[1..]));
    }
  }

  predicate PlainTexts(lines: seq<Line>) {
    forall k :: 0 <= k < |lines| ==> Plain(lines[k].text)
  }

  // The code of a fence is made of whole lines.
  lemma PlainFence(g: Grammar, mdx: bool, lines: seq<Line>, i: nat)
    requires Sensible(g) && ComposesPlainly(g.nfc) && PlainTexts(lines) && i < |lines|
    ensures var step := StepAt(g, mdx, lines, i); step.Emit? && step.kind.Code? ==> Plain(step.kind.code)
  {
    if !IsBlankLine(lines[i].text) && FenceOf(lines[i].text).Some? {
      var start := FenceOf(lines[i].text).value;
      var texts := TextsBetween(lines, i + 1, FenceEnd(lines, i + 1, start.marker, start.length));
      PlainJoinedLines(texts);
      PlainNormalized(g.nfc, JoinLines(texts));
    }
  }

  lemma {:induction false} CodeBlocksArePlain(g: Grammar, mdx: bool, lines: seq<Line>, i: nat)
    requires Sensible(g) && ComposesPlainly(g.nfc) && PlainTexts(lines)
    ensures forall b :: b in ParseFrom(g, mdx, lines, i) && b.kind.Code? ==> Plain(b.kind.code)
    decreases |lines| - i
  {
    if i < |lines| {
      PlainFence(g, mdx, lines, i);
      CodeBlocksArePlain(g, mdx, lines, Next(StepAt(g, mdx, lines, i), i));
    }
  }

  lemma {:induction false} PlainTextsOf(raws: seq<Str>, start: nat)
    requires AllPlain(raws)
    ensures PlainTexts(Numbered(raws, start))
  {
    if raws != [] { PlainTextsOf(raws[1..], start + |raws[0]|); }
  }

  // The text reads back as one block of code, the same code in the same language.
  ghost predicate ReadsBack(g: Grammar, mdx: bool, language: Option<Str>, code: Str)
    requires Sensible(g)
  {
    exists to :: Parsed(g, mdx, RenderCode(language, code)) == [Block(Code(language, code), 0, to)]
  }

  /** Normalised code, whatever runs of backticks it holds, printed as a fence in a plain language reads
      back as one block with the same code and language, exactly when it has no Unicode line or
      paragraph separator. */
  lemma FenceRoundTrip(g: Grammar, mdx: bool, language: Option<Str>, code: Str)
    requires Sensible(g) && ComposesPlainly(g.nfc) && PlainLanguage(language) && NormalizeCode(g.nfc, code) == code
    ensures ReadsBack(g, mdx, language, code)
      <==> forall i :: 0 <= i < |code| ==> code[i] != LINE_SEPARATOR && code[i] != PARAGRAPH_SEPARATOR
  {
    TidyIsIdempotent(WithoutNul(g.nfc(code)));
    assert NoReturns(code);
    if Plain(code) {
      PlainRoundTrip(g, mdx, language, code);
    } else {
      var lines := SourceLines(RenderCode(language, code));
      RawLinesArePlain(RenderCode(language, code));
      PlainTextsOf(RawLines(RenderCode(language, code)), 0);
      CodeBlocksArePlain(g, mdx, lines, FrontMatterEnd(lines));
      if to :| Parsed(g, mdx, RenderCode(language, code)) == [Block(Code(language, code), 0, to)] {
        assert Block(Code(language, code), 0, to) in Parsed(g, mdx, RenderCode(language, code));
      }
    }
  }
}
