/**
 The block loop of crawler/ingestion/markdown.ts.  Headings, underlines, table delimiters, list items
 and inline text are classified by a parameter; blanks, fences, quotes and front matter are not.
 */
module Markdown {
  import opened Prelude
  import opened Text
  import opened Lines
  import opened CodeText

  const HYPHEN: Unit := 45
  const PIPE: Unit := 124
  const BACKTICK: Unit := 96
  const TILDE: Unit := 126
  const GREATER: Unit := 62
  const FULL_STOP: Unit := 46
  const OPEN_BRACE: Unit := 123
  const CLOSE_BRACE: Unit := 125

  // `item` tells whether a list item is numbered; `emptyInline` takes the trimmed lines of a paragraph.
  datatype Grammar = Grammar(
    heading: Str -> bool, underline: Str -> bool, delimiter: Str -> bool, item: Str -> Option<bool>, imports: Str -> bool,
    emptyInline: seq<Str> -> bool, nfc: Str -> Str)

  // The delimiter row of a table is not empty.
  predicate Sensible(g: Grammar) {
    !g.delimiter([])
  }

  // ---------------------------------------------------------------- lines

  predicate IsBlankLine(text: Str) {
    Trim(text) == []
  }

  // How many units from i on are u.
  function RunOf(text: Str, u: Unit, i: nat): (n: nat)
    requires i <= |text|
    ensures i + n <= |text| && (i + n < |text| ==> text[i + n] != u) && forall k :: i <= k < i + n ==> text[k] == u
    decreases |text| - i
  {
    if i < |text| && text[i] == u then 1 + RunOf(text, u, i + 1) else 0
  }

  // The marker, its length, and what follows it: /^\s{0,3}(`{3,}|~{3,})(.*)$/
  datatype FenceStart = FenceStart(marker: Unit, length: nat, info: Str)

  function FenceOf(text: Str): Option<FenceStart> {
    var indent := LeadingSpace(text);
    if indent > 3 || indent == |text| || (text[indent] != BACKTICK && text[indent] != TILDE) then None
    else
      var marker := text[indent];
      var n := RunOf(text, marker, indent);
      if n < 3 then None else Some(FenceStart(marker, n, text[indent + n..]))
  }

  // The closing fence: indented at most three, at least as long, with nothing but space after it.
  predicate ClosesFence(text: Str, marker: Unit, minimum: nat) {
    var indent := LeadingSpace(text);
    var n := RunOf(text, marker, indent);
    indent <= 3 && n >= minimum && AllSpace(text[indent + n..])
  }

  function FirstWord(s: Str): Str {
    if s == [] || IsSpace(s[0]) then [] else [s[0]] + FirstWord(s[1..])
  }

  function UpTo(s: Str, u: Unit): Str {
    if s == [] || s[0] == u then [] else [s[0]] + UpTo(s[1..], u)
  }

  // The info string without braces, up to its first space.
  function LanguageOf(info: Str): Option<Str> {
    var t := Trim(info);
    var inner := if |t| > 1 && t[0] == OPEN_BRACE && t[1] == FULL_STOP then t[2..]
                   else if t != [] && t[0] == OPEN_BRACE then t[1..] else t;
    var word := FirstWord(UpTo(inner, CLOSE_BRACE));
    if word == [] then None else Some(word)
  }

  predicate IsQuote(text: Str) {
    LeadingSpace(text) < |text| && text[LeadingSpace(text)] == GREATER
  }

  predicate HasPipe(text: Str) {
    exists i :: 0 <= i < |text| && text[i] == PIPE
  }

  predicate IsIndented(text: Str) {
    text != [] && IsSpace(text[0])
  }

  // lines[i]?.text ?? ""
  function TextAt(lines: seq<Line>, i: nat): Str {
    if i < |lines| then lines[i].text else []
  }

  predicate IsBlockStart(g: Grammar, lines: seq<Line>, i: nat) {
    var text := TextAt(lines, i);
    || IsBlankLine(text) || FenceOf(text).Some? || g.heading(text) || g.item(text).Some? || IsQuote(text) || g.imports(text)
    || (HasPipe(text) && g.delimiter(TextAt(lines, i + 1)))
  }

  // ---------------------------------------------------------------- where blocks end

  function FenceEnd(lines: seq<Line>, i: nat, marker: Unit, minimum: nat): (end: nat)
    requires i <= |lines|
    ensures i <= end <= |lines| && forall k :: i <= k < end ==> !ClosesFence(lines[k].text, marker, minimum)
    ensures end < |lines| ==> ClosesFence(lines[end].text, marker, minimum)
    decreases |lines| - i
  {
    if i == |lines| || ClosesFence(lines[i].text, marker, minimum) then i else FenceEnd(lines, i + 1, marker, minimum)
  }

  predicate IsTableRow(text: Str) {
    HasPipe(text) && !IsBlankLine(text)
  }

  function TableEnd(lines: seq<Line>, i: nat): (end: nat)
    requires i <= |lines|
    ensures i <= end <= |lines|
    decreases |lines| - i
  {
    if i < |lines| && IsTableRow(lines[i].text) then TableEnd(lines, i + 1) else i
  }

  // The lines that go on with a list item.
  predicate Continues(g: Grammar, lines: seq<Line>, i: nat) {
    i < |lines| && !IsBlankLine(lines[i].text) && !IsBlockStart(g, lines, i) && IsIndented(lines[i].text)
  }

  function ItemEnd(g: Grammar, lines: seq<Line>, i: nat): (end: nat)
    requires i <= |lines|
    ensures i <= end <= |lines|
    decreases |lines| - i
  {
    if Continues(g, lines, i) then ItemEnd(g, lines, i + 1) else i
  }

  function ListEnd(g: Grammar, lines: seq<Line>, i: nat, ordered: bool): (end: nat)
    requires i <= |lines|
    ensures i <= end <= |lines| && (i < |lines| && g.item(lines[i].text) == Some(ordered) ==> i < end)
    decreases |lines| - i
  {
    if i < |lines| && g.item(lines[i].text) == Some(ordered) then ListEnd(g, lines, ItemEnd(g, lines, i + 1), ordered) else i
  }

  function QuoteEnd(lines: seq<Line>, i: nat): (end: nat)
    requires i <= |lines|
    ensures i <= end <= |lines| && (i < |lines| && IsQuote(lines[i].text) ==> i < end)
    decreases |lines| - i
  {
    if i < |lines| && IsQuote(lines[i].text) then QuoteEnd(lines, i + 1) else i
  }

  function ImportsEnd(lines: seq<Line>, i: nat): (end: nat)
    requires i <= |lines|
    ensures i <= end <= |lines|
    decreases |lines| - i
  {
    if i < |lines| && !IsBlankLine(lines[i].text) then ImportsEnd(lines, i + 1) else i
  }

  predicate InParagraph(g: Grammar, lines: seq<Line>, i: nat) {
    i < |lines| && !IsBlankLine(lines[i].text) && !IsBlockStart(g, lines, i)
  }

  function ParagraphEnd(g: Grammar, lines: seq<Line>, i: nat): (end: nat)
    requires i <= |lines|
    ensures i <= end <= |lines| && forall k :: i <= k < end ==> !IsBlankLine(lines[k].text)
    decreases |lines| - i
  {
    if InParagraph(g, lines, i) then ParagraphEnd(g, lines, i + 1) else i
  }

  function TextsBetween(lines: seq<Line>, from: nat, to: nat): seq<Str>
    requires from <= to <= |lines|
  {
    seq(to - from, k requires 0 <= k < to - from => lines[from + k].text)
  }

  function TrimmedBetween(lines: seq<Line>, from: nat, to: nat): seq<Str>
    requires from <= to <= |lines|
  {
    seq(to - from, k requires 0 <= k < to - from => Trim(lines[from + k].text))
  }

  // texts.join("\n")
  function JoinLines(texts: seq<Str>): Str {
    if texts == [] then [] else if |texts| == 1 then texts[0] else texts[0] + [LF] + JoinLines(texts[1..])
  }

  // ---------------------------------------------------------------- what stands at a line

  datatype Kind =
    | Code(language: Option<Str>, code: Str)
    | Heading | Underlined | Table | List(ordered: bool) | Quote | Imports(imported: Str) | Paragraph

  // A block and the lines it was read from.
  datatype Block = Block(kind: Kind, from: nat, to: nat)

  datatype Step = Blank | Emit(kind: Kind, to: nat) | Nothing(to: nat)

  function FenceStep(g: Grammar, lines: seq<Line>, i: nat, start: FenceStart): Step
    requires i < |lines|
  {
    var end := FenceEnd(lines, i + 1, start.marker, start.length);
    Emit(Code(LanguageOf(start.info), NormalizeCode(g.nfc, JoinLines(TextsBetween(lines, i + 1, end)))),
         if end < |lines| then end + 1 else end)
  }

  function ParagraphStep(g: Grammar, lines: seq<Line>, i: nat): Step
    requires i < |lines|
  {
    var to := ParagraphEnd(g, lines, i + 1);
    if g.emptyInline(TrimmedBetween(lines, i, to)) then Nothing(to) else Emit(Paragraph, to)
  }

  function StepAt(g: Grammar, mdx: bool, lines: seq<Line>, i: nat): (step: Step)
    requires i < |lines| && Sensible(g)
    ensures step.Blank? <==> IsBlankLine(lines[i].text)
    ensures !step.Blank? ==> i < step.to <= |lines|
    ensures step.Nothing? ==> forall k :: i <= k < step.to ==> !IsBlankLine(lines[k].text)
  {
    var text, next := lines[i].text, TextAt(lines, i + 1);
    if IsBlankLine(text) then Blank
    else if FenceOf(text).Some? then FenceStep(g, lines, i, FenceOf(text).value)
    else if g.heading(text) then Emit(Heading, i + 1)
    else if i + 1 < |lines| && g.underline(next) then Emit(Underlined, i + 2)
    else if HasPipe(text) && g.delimiter(next) then Emit(Table, TableEnd(lines, i + 2))
    else if g.item(text).Some? then Emit(List(g.item(text).value), ListEnd(g, lines, i, g.item(text).value))
    else if IsQuote(text) then Emit(Quote, QuoteEnd(lines, i))
    else if mdx && g.imports(text) then
      var to := ImportsEnd(lines, i + 1);
      Emit(Imports(NormalizeCode(g.nfc, JoinLines(TextsBetween(lines, i, to)))), to)
    else ParagraphStep(g, lines, i)
  }

  // The line at which parsing goes on: an empty paragraph takes one more line with it.
  function Next(step: Step, i: nat): nat {
    match step
    case Blank => i + 1
    case Emit(_, to) => to
    case Nothing(to) => to + 1
  }

  function ParseFrom(g: Grammar, mdx: bool, lines: seq<Line>, i: nat): seq<Block>
    requires Sensible(g)
    decreases |lines| - i
  {
    if i >= |lines| then []
    else
      var step := StepAt(g, mdx, lines, i);
      (if step.Emit? then [Block(step.kind, i, step.to)] else []) + ParseFrom(g, mdx, lines, Next(step, i))
  }

  const DASHES: Str := [HYPHEN, HYPHEN, HYPHEN]

  predicate IsFrontMatterMark(text: Str) {
    Trim(text) == DASHES
  }

  function FrontMatterClose(lines: seq<Line>, i: nat): (end: nat)
    requires i <= |lines|
    ensures end <= |lines|
    decreases |lines| - i
  {
    if i == |lines| then 0 else if IsFrontMatterMark(lines[i].text) then i + 1 else FrontMatterClose(lines, i + 1)
  }

  // frontmatter(lines).end
  function FrontMatterEnd(lines: seq<Line>): (end: nat)
    ensures end <= |lines|
  {
    if lines == [] || !IsFrontMatterMark(lines[0].text) then 0 else FrontMatterClose(lines, 1)
  }

  function Parsed(g: Grammar, mdx: bool, content: Str): seq<Block>
    requires Sensible(g)
  {
    var lines := SourceLines(content);
    ParseFrom(g, mdx, lines, FrontMatterEnd(lines))
  }

  // ---------------------------------------------------------------- the loop

  lemma TextsOneMore(lines: seq<Line>, from: nat, to: nat)
    requires from <= to < |lines|
    ensures TextsBetween(lines, from, to + 1) == TextsBetween(lines, from, to) + [lines[to].text]
    ensures TrimmedBetween(lines, from, to + 1) == TrimmedBetween(lines, from, to) + [Trim(lines[to].text)]
  {
  }

  method FindFenceEnd(lines: seq<Line>, from: nat, marker: Unit, minimum: nat) returns (end: nat, texts: seq<Str>)
    requires from <= |lines|
    ensures end == FenceEnd(lines, from, marker, minimum) && texts == TextsBetween(lines, from, end)
  {
    end, texts := from, [];
    while end < |lines| && !ClosesFence(lines[end].text, marker, minimum)
      invariant from <= end <= |lines| && texts == TextsBetween(lines, from, end)
      invariant FenceEnd(lines, end, marker, minimum) == FenceEnd(lines, from, marker, minimum)
    {
      TextsOneMore(lines, from, end);
      texts, end := texts + [lines[end].text], end + 1;
    }
  }

  method FindTableEnd(lines: seq<Line>, from: nat) returns (end: nat)
    requires from <= |lines|
    ensures end == TableEnd(lines, from)
  {
    end := from;
    while end < |lines| && IsTableRow(lines[end].text)
      invariant end <= |lines| && TableEnd(lines, end) == TableEnd(lines, from)
    {
      end := end + 1;
    }
  }

  method FindItemEnd(g: Grammar, lines: seq<Line>, from: nat) returns (end: nat)
    requires from <= |lines|
    ensures end == ItemEnd(g, lines, from)
  {
    end := from;
    while Continues(g, lines, end)
      invariant from <= end <= |lines| && ItemEnd(g, lines, end) == ItemEnd(g, lines, from)
      decreases |lines| - end
    {
      end := end + 1;
    }
  }

  method FindListEnd(g: Grammar, lines: seq<Line>, from: nat, ordered: bool) returns (end: nat)
    requires from <= |lines|
    ensures end == ListEnd(g, lines, from, ordered)
  {
    end := from;
    while end < |lines| && g.item(lines[end].text) == Some(ordered)
      invariant end <= |lines| && ListEnd(g, lines, end, ordered) == ListEnd(g, lines, from, ordered)
      decreases |lines| - end
    {
      end := FindItemEnd(g, lines, end + 1);
    }
  }

  method FindQuoteEnd(lines: seq<Line>, from: nat) returns (end: nat)
    requires from <= |lines|
    ensures end == QuoteEnd(lines, from)
  {
    end := from;
    while end < |lines| && IsQuote(lines[end].text)
      invariant end <= |lines| && QuoteEnd(lines, end) == QuoteEnd(lines, from)
    {
      end := end + 1;
    }
  }

  method FindImportsEnd(lines: seq<Line>, from: nat) returns (end: nat, texts: seq<Str>)
    requires from < |lines|
    ensures end == ImportsEnd(lines, from + 1) && texts == TextsBetween(lines, from, end)
  {
    end, texts := from + 1, [lines[from].text];
    while end < |lines| && !IsBlankLine(lines[end].text)
      invariant from < end <= |lines| && texts == TextsBetween(lines, from, end)
      invariant ImportsEnd(lines, end) == ImportsEnd(lines, from + 1)
    {
      TextsOneMore(lines, from, end);
      texts, end := texts + [lines[end].text], end + 1;
    }
  }

  lemma ParagraphGoesOn(g: Grammar, lines: seq<Line>, i: nat)
    requires i <= |lines|
    ensures ParagraphEnd(g, lines, i) == if InParagraph(g, lines, i) then ParagraphEnd(g, lines, i + 1) else i
  {
  }

  method AddTrimmed(lines: seq<Line>, from: nat, to: nat, before: seq<Str>) returns (trimmed: seq<Str>)
    requires from <= to < |lines| && before == TrimmedBetween(lines, from, to)
    ensures trimmed == TrimmedBetween(lines, from, to + 1)
  {
    trimmed := before + [Trim(lines[to].text)];
    TextsOneMore(lines, from, to);
  }

  method FindParagraphEnd(g: Grammar, lines: seq<Line>, from: nat) returns (end: nat, trimmed: seq<Str>)
    requires from < |lines|
    ensures end == ParagraphEnd(g, lines, from + 1) && trimmed == TrimmedBetween(lines, from, end)
  {
    trimmed := AddTrimmed(lines, from, from, []);
    end := from + 1;
    while InParagraph(g, lines, end)
      invariant from < end <= |lines| && trimmed == TrimmedBetween(lines, from, end)
      invariant ParagraphEnd(g, lines, end) == ParagraphEnd(g, lines, from + 1)
      decreases |lines| - end
    {
      ParagraphGoesOn(g, lines, end);
      trimmed := AddTrimmed(lines, from, end, trimmed);
      end := end + 1;
    }
    ParagraphGoesOn(g, lines, end);
  }

  // One turn of the loop.
  method ReadBlock(g: Grammar, mdx: bool, lines: seq<Line>, index: nat) returns (step: Step)
    requires index < |lines| && Sensible(g)
    ensures step == StepAt(g, mdx, lines, index)
  {
    var text := lines[index].text;
    var next := if index + 1 < |lines| then lines[index + 1].text else [];
    if IsBlankLine(text) { return Blank; }
    var fence := FenceOf(text);
    if fence.Some? {
      var end, texts := FindFenceEnd(lines, index + 1, fence.value.marker, fence.value.length);
      return Emit(Code(LanguageOf(fence.value.info), NormalizeCode(g.nfc, JoinLines(texts))), if end < |lines| then end + 1 else end);
    }
    if g.heading(text) { return Emit(Heading, index + 1); }
    if index + 1 < |lines| && g.underline(next) { return Emit(Underlined, index + 2); }
    if HasPipe(text) && g.delimiter(next) {
      var end := FindTableEnd(lines, index + 2);
      return Emit(Table, end);
    }
    var item := g.item(text);
    if item.Some? {
      var end := FindListEnd(g, lines, index, item.value);
      return Emit(List(item.value), end);
    }
    if IsQuote(text) {
      var end := FindQuoteEnd(lines, index);
      return Emit(Quote, end);
    }
    if mdx && g.imports(text) {
      var end, texts := FindImportsEnd(lines, index);
      return Emit(Imports(NormalizeCode(g.nfc, JoinLines(texts))), end);
    }
    var end, trimmed := FindParagraphEnd(g, lines, index);
    step := if g.emptyInline(trimmed) then Nothing(end) else Emit(Paragraph, end);
  }

  method ParseMarkdown(g: Grammar, mdx: bool, content: Str) returns (blocks: seq<Block>)
    requires Sensible(g)
    ensures blocks == Parsed(g, mdx, content)
  {
    blocks := [];
    var lines := ReadSourceLines(content);
    var index := FrontMatterEnd(lines);
    while index < |lines|
      invariant blocks + ParseFrom(g, mdx, lines, index) == Parsed(g, mdx, content)
      decreases |lines| - index
    {
      var step := ReadBlock(g, mdx, lines, index);
      var emitted := if step.Emit? then [Block(step.kind, index, step.to)] else [];
      Associates(blocks, emitted, ParseFrom(g, mdx, lines, Next(step, index)));
      blocks := blocks + emitted;
      index := Next(step, index);
    }
    assert blocks + [] == blocks;
  }

  // ---------------------------------------------------------------- what the blocks cover

  // What becomes of a line.
  datatype Fate = Unused | Covered | InEmptyParagraph | AfterEmptyParagraph

  // The fate of line k, when parsing has come to line i.
  function FateFrom(g: Grammar, mdx: bool, lines: seq<Line>, i: nat, k: nat): Fate
    requires Sensible(g) && i <= k < |lines|
    decreases |lines| - i
  {
    var step := StepAt(g, mdx, lines, i);
    if k >= Next(step, i) then FateFrom(g, mdx, lines, Next(step, i), k)
    else
      match step
      case Blank => Unused
      case Emit(_, _) => Covered
      case Nothing(to) => if k < to then InEmptyParagraph else AfterEmptyParagraph
  }

  predicate CoveredBy(blocks: seq<Block>, k: nat) {
    exists b :: 0 <= b < |blocks| && blocks[b].from <= k < blocks[b].to
  }

  // Blocks are whole lines from `floor` on, in order and apart.
  ghost predicate InOrder(blocks: seq<Block>, floor: nat, lines: nat) {
    && (forall b :: 0 <= b < |blocks| ==> floor <= blocks[b].from < blocks[b].to <= lines)
    && (forall b :: 0 < b < |blocks| ==> blocks[b - 1].to <= blocks[b].from)
  }

  lemma InOrderCons(block: Block, rest: seq<Block>, floor: nat, lines: nat)
    requires floor <= block.from < block.to <= lines && InOrder(rest, block.to, lines)
    ensures InOrder([block] + rest, floor, lines)
  {
  }

  /** The blocks are whole lines, in order and apart. */
  lemma {:induction false} BlocksInOrder(g: Grammar, mdx: bool, lines: seq<Line>, i: nat)
    requires Sensible(g)
    ensures InOrder(ParseFrom(g, mdx, lines, i), i, |lines|)
    decreases |lines| - i
  {
    if i < |lines| {
      var step := StepAt(g, mdx, lines, i);
      BlocksInOrder(g, mdx, lines, Next(step, i));
      var rest := ParseFrom(g, mdx, lines, Next(step, i));
      if step.Emit? { InOrderCons(Block(step.kind, i, step.to), rest, i, |lines|); } else { assert [] + rest == rest; }
    }
  }

  lemma CoveredCons(block: Block, rest: seq<Block>, k: nat)
    ensures CoveredBy([block] + rest, k) <==> block.from <= k < block.to || CoveredBy(rest, k)
  {
    var all := [block] + rest;
    if block.from <= k < block.to { assert all[0].from <= k < all[0].to; }
    if b :| 0 <= b < |rest| && rest[b].from <= k < rest[b].to { assert all[b + 1].from <= k < all[b + 1].to; }
  }

  lemma NotCoveredBefore(blocks: seq<Block>, floor: nat, lines: nat, k: nat)
    requires InOrder(blocks, floor, lines) && k < floor
    ensures !CoveredBy(blocks, k)
  {
  }

  // The line is in the block that starts at line i, or in a later one.
  lemma CoveredFrom(g: Grammar, mdx: bool, lines: seq<Line>, i: nat, k: nat)
    requires Sensible(g) && i <= k < |lines|
    ensures var step := StepAt(g, mdx, lines, i);
            CoveredBy(ParseFrom(g, mdx, lines, i), k)
            <==> if k < Next(step, i) then step.Emit? else CoveredBy(ParseFrom(g, mdx, lines, Next(step, i)), k)
  {
    var step := StepAt(g, mdx, lines, i);
    var rest := ParseFrom(g, mdx, lines, Next(step, i));
    BlocksInOrder(g, mdx, lines, Next(step, i));
    if k < Next(step, i) { NotCoveredBefore(rest, Next(step, i), |lines|, k); }
    if step.Emit? { CoveredCons(Block(step.kind, i, step.to), rest, k); } else { assert [] + rest == rest; }
  }

  /** A line is covered by a block exactly if that is its fate; a line is unused only if it is blank; and
      an empty paragraph has no blank line. */
  lemma {:induction false} FatesOfLines(g: Grammar, mdx: bool, lines: seq<Line>, i: nat, k: nat)
    requires Sensible(g) && i <= k < |lines|
    ensures var fate := FateFrom(g, mdx, lines, i, k);
            && (fate == Covered <==> CoveredBy(ParseFrom(g, mdx, lines, i), k))
            && (fate == Unused ==> IsBlankLine(lines[k].text))
            && (fate == InEmptyParagraph ==> !IsBlankLine(lines[k].text))
    decreases |lines| - i
  {
    CoveredFrom(g, mdx, lines, i, k);
    var step := StepAt(g, mdx, lines, i);
    if k >= Next(step, i) { FatesOfLines(g, mdx, lines, Next(step, i), k); }
  }

  // The line before one that follows an empty paragraph is in that paragraph.
  lemma {:induction false} LineAfterEmpty(g: Grammar, mdx: bool, lines: seq<Line>, i: nat, k: nat)
    requires Sensible(g) && i <= k < |lines| && FateFrom(g, mdx, lines, i, k) == AfterEmptyParagraph
    ensures k > i && FateFrom(g, mdx, lines, i, k - 1) == InEmptyParagraph
    decreases |lines| - i
  {
    var step := StepAt(g, mdx, lines, i);
    if k >= Next(step, i) { LineAfterEmpty(g, mdx, lines, Next(step, i), k); }
  }

  /** Beyond the front matter the only lines that are neither blank nor in a block are those of
      paragraphs without inline text and the line after each of them. */
  lemma UncoveredLines(g: Grammar, mdx: bool, lines: seq<Line>, k: nat)
    requires Sensible(g) && FrontMatterEnd(lines) <= k < |lines| && !IsBlankLine(lines[k].text)
    requires !CoveredBy(ParseFrom(g, mdx, lines, FrontMatterEnd(lines)), k)
    ensures var start := FrontMatterEnd(lines);
            || FateFrom(g, mdx, lines, start, k) == InEmptyParagraph
            || (k > start && FateFrom(g, mdx, lines, start, k) == AfterEmptyParagraph
                && FateFrom(g, mdx, lines, start, k - 1) == InEmptyParagraph)
  {
    FatesOfLines(g, mdx, lines, FrontMatterEnd(lines), k);
    if FateFrom(g, mdx, lines, FrontMatterEnd(lines), k) == AfterEmptyParagraph {
      LineAfterEmpty(g, mdx, lines, FrontMatterEnd(lines), k);
    }
  }

  // Parsing from line `start` comes to line i.
  predicate Reaches(g: Grammar, mdx: bool, lines: seq<Line>, start: nat, i: nat)
    requires Sensible(g)
    decreases |lines| - start
  {
    start == i || (start < |lines| && Reaches(g, mdx, lines, Next(StepAt(g, mdx, lines, start), start), i))
  }

  lemma {:induction false} FateOnTheWay(g: Grammar, mdx: bool, lines: seq<Line>, start: nat, i: nat, k: nat)
    requires Sensible(g) && Reaches(g, mdx, lines, start, i) && i <= k < |lines|
    ensures start <= i && FateFrom(g, mdx, lines, start, k) == FateFrom(g, mdx, lines, i, k)
    decreases |lines| - start
  {
    if start != i { FateOnTheWay(g, mdx, lines, Next(StepAt(g, mdx, lines, start), start), i, k); }
  }

  lemma {:induction false} EmptyParagraphBefore(g: Grammar, mdx: bool, lines: seq<Line>, start: nat, k: nat) returns (i: nat)
    requires Sensible(g) && start <= k < |lines| && FateFrom(g, mdx, lines, start, k) == AfterEmptyParagraph
    ensures i < k && Reaches(g, mdx, lines, start, i) && StepAt(g, mdx, lines, i) == Nothing(k)
    decreases |lines| - start
  {
    var step := StepAt(g, mdx, lines, start);
    if k >= Next(step, start) { i := EmptyParagraphBefore(g, mdx, lines, Next(step, start), k); } else { i := start; }
  }

  lemma NothingSkips(g: Grammar, mdx: bool, lines: seq<Line>, i: nat, k: nat)
    requires Sensible(g) && i < |lines| && StepAt(g, mdx, lines, i) == Nothing(k)
    ensures ParseFrom(g, mdx, lines, i) == ParseFrom(g, mdx, lines, k + 1)
    ensures k < |lines| ==> FateFrom(g, mdx, lines, i, k) == AfterEmptyParagraph
  {
    assert [] + ParseFrom(g, mdx, lines, k + 1) == ParseFrom(g, mdx, lines, k + 1);
  }

  // Parsing from line `start` comes to an empty paragraph at line i, which ends at line k.
  predicate EmptyParagraphAt(g: Grammar, mdx: bool, lines: seq<Line>, start: nat, i: nat, k: nat)
    requires Sensible(g)
  {
    i < k && i < |lines| && Reaches(g, mdx, lines, start, i) && StepAt(g, mdx, lines, i) == Nothing(k)
  }

  lemma EmptyParagraphLosesLine(g: Grammar, mdx: bool, lines: seq<Line>, start: nat, i: nat, k: nat)
    requires Sensible(g) && k < |lines| && EmptyParagraphAt(g, mdx, lines, start, i, k)
    ensures start <= i && FateFrom(g, mdx, lines, start, k) == AfterEmptyParagraph
    ensures ParseFrom(g, mdx, lines, i) == ParseFrom(g, mdx, lines, k + 1)
  {
    NothingSkips(g, mdx, lines, i, k);
    FateOnTheWay(g, mdx, lines, start, i, k);
  }

  /** In any document, the line at which an empty paragraph ends is lost, and no other line has that fate:
      it is in no block, whatever it is, and parsing goes on behind it. */
  lemma EmptyParagraphTakesNextLine(g: Grammar, mdx: bool, lines: seq<Line>, start: nat, k: nat)
    requires Sensible(g) && start <= k < |lines|
    ensures FateFrom(g, mdx, lines, start, k) == AfterEmptyParagraph
       <==> exists i: nat :: EmptyParagraphAt(g, mdx, lines, start, i, k)
    ensures forall i: nat :: EmptyParagraphAt(g, mdx, lines, start, i, k) ==>
              !CoveredBy(ParseFrom(g, mdx, lines, start), k) && ParseFrom(g, mdx, lines, i) == ParseFrom(g, mdx, lines, k + 1)
  {
    FatesOfLines(g, mdx, lines, start, k);
    if FateFrom(g, mdx, lines, start, k) == AfterEmptyParagraph {
      var i := EmptyParagraphBefore(g, mdx, lines, start, k);
      assert EmptyParagraphAt(g, mdx, lines, start, i, k);
    }
    forall i: nat | EmptyParagraphAt(g, mdx, lines, start, i, k)
      ensures FateFrom(g, mdx, lines, start, k) == AfterEmptyParagraph
      ensures ParseFrom(g, mdx, lines, i) == ParseFrom(g, mdx, lines, k + 1)
    {
      EmptyParagraphLosesLine(g, mdx, lines, start, i, k);
    }
  }

  lemma EmptyLineAlone(g: Grammar, lines: seq<Line>, i: nat)
    requires i + 1 < |lines| && IsBlockStart(g, lines, i + 1) && g.emptyInline([Trim(lines[i].text)])
    ensures ParagraphStep(g, lines, i) == Nothing(i + 1)
  {
    assert ParagraphEnd(g, lines, i + 1) == i + 1;
    assert TrimmedBetween(lines, i, i + 1) == [Trim(lines[i].text)];
  }

  // Text is what is left when no other block starts.
  lemma TextIsParagraph(g: Grammar, mdx: bool, lines: seq<Line>, i: nat)
    requires Sensible(g) && i + 1 < |lines| && InParagraph(g, lines, i) && !g.underline(lines[i + 1].text)
    ensures StepAt(g, mdx, lines, i) == ParagraphStep(g, lines, i)
  {
  }

  /** A line of text without inline text, such as `<br>`, in front of a line that starts a block is such
      a paragraph: of `<br>` and `# T` the heading is lost. */
  lemma EmptyLineHidesBlock(g: Grammar, mdx: bool, lines: seq<Line>, i: nat)
    requires Sensible(g) && i + 1 < |lines| && IsBlockStart(g, lines, i + 1)
    requires InParagraph(g, lines, i) && !g.underline(lines[i + 1].text) && g.emptyInline([Trim(lines[i].text)])
    ensures StepAt(g, mdx, lines, i) == Nothing(i + 1)
    ensures ParseFrom(g, mdx, lines, i) == ParseFrom(g, mdx, lines, i + 2)
  {
    TextIsParagraph(g, mdx, lines, i);
    EmptyLineAlone(g, lines, i);
    NothingSkips(g, mdx, lines, i, i + 1);
  }
}
