/** What the blocks of a parsed Markdown document are, in terms of its lines. */
module MarkdownBlocks {
  import opened Prelude
  import opened Text
  import opened Lines
  import opened CodeText
  import opened Markdown

  // ---------------------------------------------------------------- one line

  predicate Spaces(text: Str, from: nat, to: nat) {
    to <= |text| && forall k :: from <= k < to ==> IsSpace(text[k])
  }

  predicate Filled(text: Str, from: nat, to: nat, u: Unit) {
    to <= |text| && forall k :: from <= k < to ==> text[k] == u
  }

  predicate HoldsText(text: Str) {
    exists k :: 0 <= k < |text| && !IsSpace(text[k])
  }

  // Up to three spaces, at least three backticks or tildes, and what follows them.
  predicate OpensFence(text: Str, indent: nat, start: FenceStart) {
    && indent <= 3 && Spaces(text, 0, indent) && (start.marker == 96 || start.marker == 126)
    && start.length >= 3 && Filled(text, indent, indent + start.length, start.marker)
    && start.info == text[indent + start.length..] && (start.info != [] ==> start.info[0] != start.marker)
  }

  ghost predicate IsFenceLine(text: Str) {
    exists indent: nat, start :: OpensFence(text, indent, start)
  }

  // Up to three spaces, at least as many markers, and nothing but space.
  predicate EndsFence(text: Str, indent: nat, end: nat, start: FenceStart) {
    && indent <= 3 && Spaces(text, 0, indent) && indent + start.length <= end && Filled(text, indent, end, start.marker)
    && Spaces(text, end, |text|)
  }

  ghost predicate IsFenceEnd(text: Str, start: FenceStart) {
    exists indent: nat, end: nat :: EndsFence(text, indent, end, start)
  }

  predicate IsQuoteLine(text: Str) {
    exists k :: 0 <= k < |text| && text[k] == 62 && Spaces(text, 0, k)
  }

  predicate HoldsPipe(text: Str) {
    exists k :: 0 <= k < |text| && text[k] == 124
  }

  lemma LeadingSpaceUnique(s: Str, n: nat)
    requires Spaces(s, 0, n) && (n < |s| ==> !IsSpace(s[n]))
    ensures LeadingSpace(s) == n
  {
    LeadingSpaceIs(s);
  }

  lemma BlankIff(text: Str)
    ensures IsBlankLine(text) <==> !HoldsText(text)
  {
    TrimIs(text);
    if Trim(text) != [] { assert text[LeadingSpace(text)] == Trim(text)[0]; }
  }

  lemma RunUnique(text: Str, u: Unit, i: nat, n: nat)
    requires Filled(text, i, i + n, u) && (i + n < |text| ==> text[i + n] != u)
    ensures RunOf(text, u, i) == n
  {
  }

  lemma FenceUnique(text: Str, indent: nat, start: FenceStart)
    requires OpensFence(text, indent, start)
    ensures FenceOf(text) == Some(start)
  {
    assert text[indent] == start.marker;
    LeadingSpaceUnique(text, indent);
    assert start.info != [] ==> text[indent + start.length] == start.info[0];
    RunUnique(text, start.marker, indent, start.length);
  }

  lemma FenceOpens(text: Str)
    ensures FenceOf(text).Some? ==> OpensFence(text, LeadingSpace(text), FenceOf(text).value)
  {
    LeadingSpaceIs(text);
  }

  lemma FenceIs(text: Str)
    ensures FenceOf(text).Some? <==> IsFenceLine(text)
  {
    FenceOpens(text);
    if IsFenceLine(text) {
      var indent: nat, start :| OpensFence(text, indent, start);
      FenceUnique(text, indent, start);
    }
  }

  lemma CloseEnds(text: Str, start: FenceStart)
    requires ClosesFence(text, start.marker, start.length)
    ensures IsFenceEnd(text, start)
  {
    LeadingSpaceIs(text);
    var indent := LeadingSpace(text);
    var end := indent + RunOf(text, start.marker, indent);
    forall k | end <= k < |text| ensures IsSpace(text[k]) { assert text[k] == text[end..][k - end]; }
    assert EndsFence(text, indent, end, start);
  }

  lemma EndCloses(text: Str, indent: nat, end: nat, start: FenceStart)
    requires EndsFence(text, indent, end, start) && start.length >= 1 && !IsSpace(start.marker)
    ensures ClosesFence(text, start.marker, start.length)
  {
    assert text[indent] == start.marker;
    LeadingSpaceUnique(text, indent);
    assert end < |text| ==> IsSpace(text[end]);
    RunUnique(text, start.marker, indent, end - indent);
  }

  lemma FenceEndIff(text: Str, start: FenceStart)
    requires start.length >= 1 && !IsSpace(start.marker)
    ensures ClosesFence(text, start.marker, start.length) <==> IsFenceEnd(text, start)
  {
    if ClosesFence(text, start.marker, start.length) { CloseEnds(text, start); }
    if IsFenceEnd(text, start) {
      var indent: nat, end: nat :| EndsFence(text, indent, end, start);
      EndCloses(text, indent, end, start);
    }
  }

  lemma QuoteIff(text: Str)
    ensures IsQuote(text) <==> IsQuoteLine(text)
  {
    LeadingSpaceIs(text);
    if IsQuoteLine(text) {
      var k :| 0 <= k < |text| && text[k] == 62 && Spaces(text, 0, k);
      LeadingSpaceUnique(text, k);
    }
  }

  // ---------------------------------------------------------------- what starts at a line

  // The line with which a block starts, whatever is before it.
  ghost predicate Starts(g: Grammar, lines: seq<Line>, i: nat)
    requires i < |lines|
  {
    var text := lines[i].text;
    || !HoldsText(text) || IsFenceLine(text) || g.heading(text) || g.item(text).Some? || IsQuoteLine(text) || g.imports(text)
    || (HoldsPipe(text) && i + 1 < |lines| && g.delimiter(lines[i + 1].text))
  }

  lemma StartsIff(g: Grammar, lines: seq<Line>, i: nat)
    requires i < |lines| && Sensible(g)
    ensures IsBlockStart(g, lines, i) <==> Starts(g, lines, i)
    ensures InParagraph(g, lines, i) <==> !Starts(g, lines, i)
  {
    BlankIff(lines[i].text);
    FenceIs(lines[i].text);
    QuoteIff(lines[i].text);
  }

  /** What kind of block starts at a line that holds text: the first of these that fits. */
  ghost predicate KindAt(g: Grammar, mdx: bool, lines: seq<Line>, i: nat, kind: Kind)
    requires i < |lines|
  {
    var text := lines[i].text;
    var fence := IsFenceLine(text);
    var heading := g.heading(text);
    var underlined := i + 1 < |lines| && g.underline(lines[i + 1].text);
    var table := HoldsPipe(text) && i + 1 < |lines| && g.delimiter(lines[i + 1].text);
    var item, quote, imports := g.item(text), IsQuoteLine(text), mdx && g.imports(text);
    && HoldsText(text)
    && (kind.Code? <==> fence)
    && (kind.Heading? <==> !fence && heading)
    && (kind.Underlined? <==> !fence && !heading && underlined)
    && (kind.Table? <==> !fence && !heading && !underlined && table)
    && (forall ordered :: kind == List(ordered) <==>
          !fence && !heading && !underlined && !table && item == Some(ordered))
    && (kind.Quote? <==> !fence && !heading && !underlined && !table && item.None? && quote)
    && (kind.Imports? <==> !fence && !heading && !underlined && !table && item.None? && !quote && imports)
    && (kind.Paragraph? <==> !fence && !heading && !underlined && !table && item.None? && !quote && !imports)
  }

  // ---------------------------------------------------------------- where it ends

  // An item of this list, or a line that goes on with one: indented text that starts nothing.
  ghost predicate InList(g: Grammar, lines: seq<Line>, ordered: bool, i: nat)
    requires i < |lines|
  {
    g.item(lines[i].text) == Some(ordered) || (!Starts(g, lines, i) && IsSpace(lines[i].text[0]))
  }

  // What the lines of a block have in common.
  datatype Sort = Rows | Quotes | Texts | Plain | Items(ordered: bool)

  ghost predicate IsOf(g: Grammar, lines: seq<Line>, sort: Sort, i: nat)
    requires i < |lines|
  {
    match sort
    case Rows => HoldsPipe(lines[i].text) && HoldsText(lines[i].text)
    case Quotes => IsQuoteLine(lines[i].text)
    case Texts => HoldsText(lines[i].text)
    case Plain => !Starts(g, lines, i)
    case Items(ordered) => InList(g, lines, ordered, i)
  }

  // The lines from..to-1 are of this sort, and the next one is not.
  ghost predicate LongestRun(g: Grammar, lines: seq<Line>, sort: Sort, from: nat, to: nat) {
    && from <= to <= |lines| && (forall k: nat :: from <= k < to ==> IsOf(g, lines, sort, k))
    && (to < |lines| ==> !IsOf(g, lines, sort, to))
  }

  // The text between the fence's lines, up to the first that ends it or the end.
  ghost predicate FencedCode(g: Grammar, lines: seq<Line>, b: Block, start: FenceStart, close: nat)
    requires b.from < |lines|
  {
    && b.from < close <= |lines| && (forall k :: b.from < k < close ==> !IsFenceEnd(lines[k].text, start))
    && (close < |lines| ==> IsFenceEnd(lines[close].text, start))
    && b.to == (if close < |lines| then close + 1 else close)
    && b.kind == Code(LanguageOf(start.info), NormalizeCode(g.nfc, JoinLines(TextsBetween(lines, b.from + 1, close))))
  }

  /** Where a block ends, and what is kept of it. */
  ghost predicate EndsRight(g: Grammar, lines: seq<Line>, b: Block)
    requires b.from < |lines|
  {
    b.from < b.to <= |lines| &&
    match b.kind
    case Code(_, _) =>
      exists indent: nat, start, close: nat :: OpensFence(lines[b.from].text, indent, start) && FencedCode(g, lines, b, start, close)
    case Heading => b.to == b.from + 1
    case Underlined => b.to == b.from + 2
    case Table =>
      LongestRun(g, lines, Rows, b.from + 2, b.to)
    case List(ordered) => LongestRun(g, lines, Items(ordered), b.from, b.to)
    case Quote => LongestRun(g, lines, Quotes, b.from, b.to)
    case Imports(imported) =>
      && LongestRun(g, lines, Texts, b.from, b.to)
      && imported == NormalizeCode(g.nfc, JoinLines(TextsBetween(lines, b.from, b.to)))
    case Paragraph =>
      && LongestRun(g, lines, Plain, b.from + 1, b.to)
      && !g.emptyInline(TrimmedBetween(lines, b.from, b.to))
  }

  // A paragraph that holds no inline text.
  ghost predicate IsEmptyParagraph(g: Grammar, mdx: bool, lines: seq<Line>, from: nat, to: nat) {
    && from < to <= |lines| && KindAt(g, mdx, lines, from, Paragraph)
    && LongestRun(g, lines, Plain, from + 1, to)
    && g.emptyInline(TrimmedBetween(lines, from, to))
  }

  lemma RunCons(g: Grammar, lines: seq<Line>, sort: Sort, from: nat, to: nat)
    requires from < |lines| && IsOf(g, lines, sort, from) && LongestRun(g, lines, sort, from + 1, to)
    ensures LongestRun(g, lines, sort, from, to)
  {
  }

  lemma {:induction false} TableRun(g: Grammar, lines: seq<Line>, i: nat)
    requires i <= |lines|
    ensures LongestRun(g, lines, Rows, i, TableEnd(lines, i))
    decreases |lines| - i
  {
    if i < |lines| {
      BlankIff(lines[i].text);
      if IsTableRow(lines[i].text) {
        TableRun(g, lines, i + 1);
        RunCons(g, lines, Rows, i, TableEnd(lines, i));
      }
    }
  }

  lemma {:induction false} QuoteRun(g: Grammar, lines: seq<Line>, i: nat)
    requires i <= |lines|
    ensures LongestRun(g, lines, Quotes, i, QuoteEnd(lines, i))
    decreases |lines| - i
  {
    if i < |lines| {
      QuoteIff(lines[i].text);
      if IsQuote(lines[i].text) {
        QuoteRun(g, lines, i + 1);
        RunCons(g, lines, Quotes, i, QuoteEnd(lines, i));
      }
    }
  }

  lemma {:induction false} ImportsRun(g: Grammar, lines: seq<Line>, i: nat)
    requires i <= |lines|
    ensures LongestRun(g, lines, Texts, i, ImportsEnd(lines, i))
    decreases |lines| - i
  {
    if i < |lines| {
      BlankIff(lines[i].text);
      if !IsBlankLine(lines[i].text) {
        ImportsRun(g, lines, i + 1);
        RunCons(g, lines, Texts, i, ImportsEnd(lines, i));
      }
    }
  }

  lemma {:induction false} ParagraphRun(g: Grammar, lines: seq<Line>, i: nat)
    requires i <= |lines| && Sensible(g)
    ensures LongestRun(g, lines, Plain, i, ParagraphEnd(g, lines, i))
    decreases |lines| - i
  {
    if i < |lines| {
      StartsIff(g, lines, i);
      if InParagraph(g, lines, i) {
        ParagraphRun(g, lines, i + 1);
        RunCons(g, lines, Plain, i, ParagraphEnd(g, lines, i));
      }
    }
  }

  lemma ContinuesIff(g: Grammar, lines: seq<Line>, i: nat)
    requires i < |lines| && Sensible(g)
    ensures Continues(g, lines, i) <==> !Starts(g, lines, i) && IsSpace(lines[i].text[0])
    ensures !Starts(g, lines, i) ==> lines[i].text != [] && g.item(lines[i].text).None?
  {
    StartsIff(g, lines, i);
    BlankIff(lines[i].text);
  }

  lemma {:induction false} ListRun(g: Grammar, lines: seq<Line>, ordered: bool, i: nat)
    requires i <= |lines| && Sensible(g)
    requires i < |lines| ==> (InList(g, lines, ordered, i) <==> g.item(lines[i].text) == Some(ordered))
    ensures LongestRun(g, lines, Items(ordered), i, ListEnd(g, lines, i, ordered))
    decreases |lines| - i, 1
  {
    if i < |lines| && g.item(lines[i].text) == Some(ordered) {
      ItemRun(g, lines, ordered, i + 1);
      RunCons(g, lines, Items(ordered), i, ListEnd(g, lines, i, ordered));
    }
  }

  // From behind the first line of an item.
  lemma {:induction false} ItemRun(g: Grammar, lines: seq<Line>, ordered: bool, i: nat)
    requires i <= |lines| && Sensible(g)
    ensures LongestRun(g, lines, Items(ordered), i, ListEnd(g, lines, ItemEnd(g, lines, i), ordered))
    decreases |lines| - i, 2
  {
    if i < |lines| { ContinuesIff(g, lines, i); }
    if Continues(g, lines, i) {
      ItemRun(g, lines, ordered, i + 1);
      RunCons(g, lines, Items(ordered), i, ListEnd(g, lines, ItemEnd(g, lines, i), ordered));
    } else {
      ListRun(g, lines, ordered, i);
    }
  }

  // ---------------------------------------------------------------- each block

  lemma KindOfStep(g: Grammar, mdx: bool, lines: seq<Line>, i: nat)
    requires i < |lines| && Sensible(g)
    ensures var step := StepAt(g, mdx, lines, i);
            && (step.Blank? <==> !HoldsText(lines[i].text))
            && (step.Emit? ==> KindAt(g, mdx, lines, i, step.kind))
            && (step.Nothing? ==> KindAt(g, mdx, lines, i, Paragraph))
  {
    BlankIff(lines[i].text);
    FenceIs(lines[i].text);
    QuoteIff(lines[i].text);
  }

  lemma FenceClosesThere(lines: seq<Line>, i: nat, start: FenceStart)
    requires i <= |lines| && start.length >= 1 && !IsSpace(start.marker)
    ensures var close := FenceEnd(lines, i, start.marker, start.length);
            && (forall k :: i <= k < close ==> !IsFenceEnd(lines[k].text, start))
            && (close < |lines| ==> IsFenceEnd(lines[close].text, start))
  {
    var close := FenceEnd(lines, i, start.marker, start.length);
    forall k | i <= k < close ensures !IsFenceEnd(lines[k].text, start) { FenceEndIff(lines[k].text, start); }
    if close < |lines| { FenceEndIff(lines[close].text, start); }
  }

  lemma FenceEndsRight(g: Grammar, lines: seq<Line>, i: nat, start: FenceStart)
    requires i < |lines| && FenceOf(lines[i].text) == Some(start)
    ensures var step := FenceStep(g, lines, i, start);
            EndsRight(g, lines, Block(step.kind, i, step.to))
  {
    FenceOpens(lines[i].text);
    FenceClosesThere(lines, i + 1, start);
    var close, step := FenceEnd(lines, i + 1, start.marker, start.length), FenceStep(g, lines, i, start);
    assert FencedCode(g, lines, Block(step.kind, i, step.to), start, close);
  }

  lemma ParagraphEndsRight(g: Grammar, lines: seq<Line>, i: nat)
    requires i < |lines| && Sensible(g)
    ensures var to := ParagraphEnd(g, lines, i + 1);
            && i < to <= |lines| && LongestRun(g, lines, Plain, i + 1, to)
            && ParagraphStep(g, lines, i)
               == if g.emptyInline(TrimmedBetween(lines, i, to)) then Nothing(to) else Emit(Paragraph, to)
  {
    ParagraphRun(g, lines, i + 1);
  }

  lemma TableEndsRight(g: Grammar, mdx: bool, lines: seq<Line>, i: nat)
    requires i < |lines| && Sensible(g) && StepAt(g, mdx, lines, i).Emit? && StepAt(g, mdx, lines, i).kind.Table?
    ensures EndsRight(g, lines, Block(Table, i, StepAt(g, mdx, lines, i).to))
  {
    assert i + 2 <= |lines|;
    TableRun(g, lines, i + 2);
  }

  lemma ListEndsRight(g: Grammar, lines: seq<Line>, i: nat, ordered: bool)
    requires i < |lines| && Sensible(g) && g.item(lines[i].text) == Some(ordered)
    ensures EndsRight(g, lines, Block(List(ordered), i, ListEnd(g, lines, i, ordered)))
  {
    ListRun(g, lines, ordered, i);
  }

  lemma QuoteEndsRight(g: Grammar, lines: seq<Line>, i: nat)
    requires i < |lines| && IsQuote(lines[i].text)
    ensures EndsRight(g, lines, Block(Quote, i, QuoteEnd(lines, i)))
  {
    QuoteRun(g, lines, i);
  }

  lemma ImportsEndRight(g: Grammar, lines: seq<Line>, i: nat)
    requires i < |lines| && HoldsText(lines[i].text)
    ensures i < ImportsEnd(lines, i + 1) && LongestRun(g, lines, Texts, i, ImportsEnd(lines, i + 1))
  {
    ImportsRun(g, lines, i + 1);
    RunCons(g, lines, Texts, i, ImportsEnd(lines, i + 1));
  }

  lemma EndOfStep(g: Grammar, mdx: bool, lines: seq<Line>, i: nat)
    requires i < |lines| && Sensible(g)
    ensures var step := StepAt(g, mdx, lines, i);
            && (step.Emit? ==> EndsRight(g, lines, Block(step.kind, i, step.to)))
            && (step.Nothing? ==> IsEmptyParagraph(g, mdx, lines, i, step.to))
  {
    var step := StepAt(g, mdx, lines, i);
    if step.Nothing? {
      ParagraphEndsRight(g, lines, i);
      KindOfStep(g, mdx, lines, i);
    } else if step.Emit? {
      match step.kind
      case Code(_, _) => FenceEndsRight(g, lines, i, FenceOf(lines[i].text).value);
      case Table => TableEndsRight(g, mdx, lines, i);
      case List(ordered) => ListEndsRight(g, lines, i, ordered);
      case Quote => QuoteEndsRight(g, lines, i);
      case Imports(_) =>
        BlankIff(lines[i].text);
        ImportsEndRight(g, lines, i);
      case Paragraph => ParagraphEndsRight(g, lines, i);
      case _ =>
    }
  }

  lemma {:induction false} BlocksAreSteps(g: Grammar, mdx: bool, lines: seq<Line>, i: nat, b: Block)
    requires Sensible(g) && b in ParseFrom(g, mdx, lines, i)
    ensures b.from < |lines| && StepAt(g, mdx, lines, b.from) == Emit(b.kind, b.to)
    decreases |lines| - i
  {
    var step := StepAt(g, mdx, lines, i);
    if !(step.Emit? && b == Block(step.kind, i, step.to)) { BlocksAreSteps(g, mdx, lines, Next(step, i), b); }
  }

  /** Every block of a document is of the kind that its first line and the one below it decide, in the order
      of fences, headings, underlined headings, tables, lists, quotes, imports and paragraphs; and it ends after
      one line, after two, at its closing fence, or where the longest run of such lines ends. */
  lemma BlocksAreWhatTheirLinesSay(g: Grammar, mdx: bool, content: Str, b: Block)
    requires Sensible(g) && b in Parsed(g, mdx, content)
    ensures var lines := SourceLines(content);
            b.from < |lines| && KindAt(g, mdx, lines, b.from, b.kind) && EndsRight(g, lines, b)
  {
    var lines := SourceLines(content);
    BlocksAreSteps(g, mdx, lines, FrontMatterEnd(lines), b);
    KindOfStep(g, mdx, lines, b.from);
    EndOfStep(g, mdx, lines, b.from);
  }

  // ---------------------------------------------------------------- what is in no block

  lemma {:induction false} StepWithLine(g: Grammar, mdx: bool, lines: seq<Line>, i: nat, k: nat) returns (from: nat)
    requires Sensible(g) && i <= k < |lines|
    ensures i <= from <= k < Next(StepAt(g, mdx, lines, from), from)
    ensures CoveredBy(ParseFrom(g, mdx, lines, i), k) <==> StepAt(g, mdx, lines, from).Emit?
    decreases |lines| - i
  {
    CoveredFrom(g, mdx, lines, i, k);
    var step := StepAt(g, mdx, lines, i);
    if k < Next(step, i) { from := i; } else { from := StepWithLine(g, mdx, lines, Next(step, i), k); }
  }

  lemma LostInEmptyParagraph(g: Grammar, mdx: bool, lines: seq<Line>, from: nat, k: nat)
    requires Sensible(g) && from <= k < |lines| && HoldsText(lines[k].text)
    requires k < Next(StepAt(g, mdx, lines, from), from) && !StepAt(g, mdx, lines, from).Emit?
    ensures exists to: nat :: k <= to && IsEmptyParagraph(g, mdx, lines, from, to)
  {
    KindOfStep(g, mdx, lines, from);
    EndOfStep(g, mdx, lines, from);
    var to := StepAt(g, mdx, lines, from).to;
    assert k <= to && IsEmptyParagraph(g, mdx, lines, from, to);
  }

  /** A line behind the front matter that holds text and is in no block is in a paragraph that holds no inline
      text, or is the line at which such a paragraph ends. */
  lemma TextIsInBlocks(g: Grammar, mdx: bool, lines: seq<Line>, k: nat)
    requires Sensible(g) && FrontMatterEnd(lines) <= k < |lines| && HoldsText(lines[k].text)
    requires !CoveredBy(ParseFrom(g, mdx, lines, FrontMatterEnd(lines)), k)
    ensures exists from: nat, to: nat :: from <= k <= to && IsEmptyParagraph(g, mdx, lines, from, to)
  {
    var from := StepWithLine(g, mdx, lines, FrontMatterEnd(lines), k);
    LostInEmptyParagraph(g, mdx, lines, from, k);
    var to: nat :| k <= to && IsEmptyParagraph(g, mdx, lines, from, to);
    assert from <= k <= to;
  }

  // ---------------------------------------------------------------- front matter

  // Three hyphens, with nothing but space around them.
  predicate IsMark(text: Str, k: nat) {
    && k + 3 <= |text| && Spaces(text, 0, k) && Spaces(text, k + 3, |text|)
    && text[k] == 45 && text[k + 1] == 45 && text[k + 2] == 45
  }

  ghost predicate IsMarkLine(text: Str) {
    exists k: nat :: IsMark(text, k)
  }

  lemma {:induction false} TrailingSpaceUnique(s: Str, n: nat)
    requires n <= |s| && Spaces(s, |s| - n, |s|) && (n < |s| ==> !IsSpace(s[|s| - n - 1]))
    ensures TrailingSpace(s) == n
    decreases n
  {
    if n > 0 { TrailingSpaceUnique(s[..|s| - 1], n - 1); }
  }

  lemma MarkIsTrimmed(text: Str, k: nat)
    requires IsMark(text, k)
    ensures Trim(text) == [45, 45, 45]
  {
    LeadingSpaceUnique(text, k);
    var t := text[k..];
    assert t[2] == text[k + 2];
    TrailingSpaceUnique(t, |t| - 3);
    assert t[..3] == [text[k], text[k + 1], text[k + 2]];
  }

  lemma TrimmedIsMark(text: Str)
    requires Trim(text) == [45, 45, 45]
    ensures IsMark(text, LeadingSpace(text))
  {
    LeadingSpaceIs(text);
    var k := LeadingSpace(text);
    var t := text[k..];
    TrailingSpaceIs(t);
    assert t[..3] == [45, 45, 45];
    assert text[k] == t[..3][0] && text[k + 1] == t[..3][1] && text[k + 2] == t[..3][2];
    forall j | k + 3 <= j < |text| ensures IsSpace(text[j]) { assert text[j] == t[j - k]; }
  }

  lemma MarkIff(text: Str)
    ensures IsFrontMatterMark(text) <==> IsMarkLine(text)
  {
    if IsMarkLine(text) {
      var k: nat :| IsMark(text, k);
      MarkIsTrimmed(text, k);
    }
    if IsFrontMatterMark(text) { TrimmedIsMark(text); }
  }

  lemma {:induction false} CloseIsFirstMark(lines: seq<Line>, i: nat)
    requires 1 <= i <= |lines|
    ensures var end := FrontMatterClose(lines, i);
            if end == 0 then forall k :: i <= k < |lines| ==> !IsMarkLine(lines[k].text)
            else i < end <= |lines| && IsMarkLine(lines[end - 1].text) && forall k :: i <= k < end - 1 ==> !IsMarkLine(lines[k].text)
    decreases |lines| - i
  {
    if i < |lines| {
      MarkIff(lines[i].text);
      if !IsFrontMatterMark(lines[i].text) { CloseIsFirstMark(lines, i + 1); }
    }
  }

  /** Parsing starts behind the second line of three hyphens if the first line is one, and at the first line otherwise. */
  lemma FrontMatterIsBetweenMarks(lines: seq<Line>)
    ensures var end := FrontMatterEnd(lines);
            if lines != [] && IsMarkLine(lines[0].text) && exists k :: 0 < k < |lines| && IsMarkLine(lines[k].text)
            then 1 < end <= |lines| && IsMarkLine(lines[end - 1].text)
                 && forall k :: 0 < k < end - 1 ==> !IsMarkLine(lines[k].text)
            else end == 0
  {
    if lines != [] {
      MarkIff(lines[0].text);
      CloseIsFirstMark(lines, 1);
    }
  }
}
