/** What the HTML parser makes of printed trees: nesting is read back. */
module HtmlNesting {
  import opened Prelude
  import opened Text
  import opened Html

  // ---------------------------------------------------------------- trees and their text

  // An element stands between its tags, or is only an opening tag.
  datatype Form = Paired | Bare

  datatype Part =
    | Words(text: Str)
    | Element(name: Str, attributes: Str, form: Form, children: Parts)
    | Comment(text: Str)
    | Declaration(text: Str)

  datatype Parts = Nil | Cons(head: Part, tail: Parts)

  // The elements without content.
  predicate IsVoidName(name: Str) {
    var tag := Lower(name);
    || tag == Ascii("area") || tag == Ascii("base") || tag == Ascii("br") || tag == Ascii("col") || tag == Ascii("embed")
    || tag == Ascii("hr") || tag == Ascii("img") || tag == Ascii("input") || tag == Ascii("link") || tag == Ascii("meta")
    || tag == Ascii("param") || tag == Ascii("source") || tag == Ascii("track") || tag == Ascii("wbr")
  }

  // A letter, then letters, digits, underscores, colons and hyphens.
  predicate IsName(name: Str) {
    && name != [] && IsLetter(name[0])
    && forall k :: 0 <= k < |name| ==>
         IsLetter(name[k]) || 48 <= name[k] <= 57 || name[k] == 95 || name[k] == 58 || name[k] == 45
  }

  // A slash, with nothing but whitespace behind it.
  predicate EndsInSlash(attributes: Str) {
    exists k :: 0 <= k < |attributes| && attributes[k] == SLASH && forall j :: k < j < |attributes| ==> IsSpace(attributes[j])
  }

  // What stands between the name and the end of an opening tag.
  predicate AreAttributes(attributes: Str) {
    && (forall k :: 0 <= k < |attributes| ==> attributes[k] != GT)
    && (attributes != [] ==> !IsNameUnit(attributes[0]))
  }

  predicate IsText(text: Str) {
    text != [] && forall k :: 0 <= k < |text| ==> text[k] != LT
  }

  // Comments and declarations make no node.
  predicate IsSkipped(t: Part) {
    t.Comment? || t.Declaration?
  }

  // The end of the comment is the first one.
  predicate IsCommentText(text: Str) {
    forall k :: 0 <= k < |text| ==> !OccursAt(text + Ascii("-->"), Ascii("-->"), k)
  }

  predicate IsDeclarationText(text: Str) {
    (text != [] ==> text[0] != DASH) && forall k :: 0 <= k < |text| ==> text[k] != GT
  }

  // Only an element that is void or ends in a slash is bare, and it has no children.
  predicate WellFormed(t: Part) {
    match t
    case Words(text) => IsText(text)
    case Comment(text) => IsCommentText(text)
    case Declaration(text) => IsDeclarationText(text)
    case Element(name, attributes, form, children) =>
      && IsName(name) && AreAttributes(attributes) && AllWellFormed(children)
      && (form == Bare <==> IsVoidName(name) || EndsInSlash(attributes))
      && (form == Bare ==> children.Nil?)
  }

  // No two texts stand side by side.
  predicate AllWellFormed(f: Parts) {
    f.Cons? ==> WellFormed(f.head) && AllWellFormed(f.tail) && !(f.head.Words? && f.tail.Cons? && f.tail.head.Words?)
  }

  function OpeningTag(name: Str, attributes: Str): Str {
    [LT] + name + attributes + [GT]
  }

  function ClosingTag(name: Str): Str {
    [LT, SLASH] + name + [GT]
  }

  function Print(t: Part): Str {
    match t
    case Words(text) => text
    case Comment(text) => Ascii("<!--") + text + Ascii("-->")
    case Declaration(text) => [LT, BANG] + text + [GT]
    case Element(name, attributes, Bare, _) => OpeningTag(name, attributes)
    case Element(name, attributes, Paired, children) =>
      OpeningTag(name, attributes) + PrintAll(children) + ClosingTag(name)
  }

  function PrintAll(f: Parts): Str {
    if f.Nil? then [] else Print(f.head) + PrintAll(f.tail)
  }

  // ---------------------------------------------------------------- what stands where

  lemma OccursParts(s: Str, a: Str, b: Str, pos: nat)
    requires OccursAt(s, a + b, pos)
    ensures OccursAt(s, a, pos) && OccursAt(s, b, pos + |a|)
  {
    var whole := s[pos..pos + |a + b|];
    assert whole[..|a|] == a && whole[|a|..] == b;
    assert s[pos..pos + |a|] == whole[..|a|];
    assert s[pos + |a|..pos + |a| + |b|] == whole[|a|..];
  }

  lemma OccursUnits(s: Str, t: Str, pos: nat)
    requires OccursAt(s, t, pos)
    ensures forall k :: 0 <= k < |t| ==> s[pos + k] == t[k]
  {
    forall k | 0 <= k < |t| ensures s[pos + k] == t[k] { assert s[pos..pos + |t|][k] == t[k]; }
  }

  // Text ends here: at a tag or at the end.
  predicate TextEnds(s: Str, i: nat) {
    i == |s| || (i < |s| && s[i] == LT)
  }

  lemma IndexOfIs(s: Str, u: Unit, i: nat, k: nat)
    requires i <= k <= |s| && (k < |s| ==> s[k] == u) && forall j :: i <= j < k ==> s[j] != u
    ensures IndexOf(s, u, i) == k
  {
  }

  lemma TextToken(s: Str, text: Str, pos: nat)
    requires OccursAt(s, text, pos) && IsText(text) && TextEnds(s, pos + |text|)
    ensures TokenAt(s, pos) == Token(pos, pos + |text|, PlainText)
  {
    OccursUnits(s, text, pos);
    forall j | pos <= j < pos + |text| ensures s[j] != LT { assert s[j] == text[j - pos]; }
    IndexOfIs(s, LT, pos, pos + |text|);
    assert text[0] != LT && COMMENT_START[0] == LT;
  }

  lemma {:induction false} NameEndIs(token: Str, i: nat, k: nat)
    requires i <= k <= |token| && (forall j :: i <= j < k ==> IsNameUnit(token[j]))
    requires k < |token| ==> !IsNameUnit(token[k])
    ensures NameEnd(token, i) == k
    decreases k - i
  {
    if i < k { NameEndIs(token, i + 1, k); }
  }

  lemma SlashLast(s: Str)
    ensures var trimmed := s[..|s| - TrailingSpace(s)];
            (trimmed != [] && trimmed[|trimmed| - 1] == SLASH) <==> EndsInSlash(s)
  {
    TrailingSpaceIs(s);
    var m := |s| - TrailingSpace(s);
    if m > 0 && s[m - 1] == SLASH { assert EndsInSlash(s); }
    if EndsInSlash(s) {
      var k :| 0 <= k < |s| && s[k] == SLASH && forall j :: k < j < |s| ==> IsSpace(s[j]);
      assert m == k + 1;
    }
  }

  lemma SlashBehindName(name: Str, attributes: Str)
    requires IsName(name)
    ensures EndsInSlash([LT] + name + attributes) <==> EndsInSlash(attributes)
  {
    var s, n := [LT] + name + attributes, 1 + |name|;
    forall i | 0 <= i < n ensures s[i] != SLASH { if i > 0 { assert s[i] == name[i - 1]; } }
    if EndsInSlash(attributes) {
      var k :| 0 <= k < |attributes| && attributes[k] == SLASH && forall j :: k < j < |attributes| ==> IsSpace(attributes[j]);
      assert s[n + k] == SLASH;
      forall j | n + k < j < |s| ensures IsSpace(s[j]) { assert s[j] == attributes[j - n]; }
    }
    if EndsInSlash(s) {
      var k :| 0 <= k < |s| && s[k] == SLASH && forall j :: k < j < |s| ==> IsSpace(s[j]);
      assert k >= n;
      assert attributes[k - n] == SLASH;
      forall j | k - n < j < |attributes| ensures IsSpace(attributes[j]) { assert attributes[j] == s[j + n]; }
    }
  }

  lemma NotComment(token: Str)
    requires |token| >= 2 && token[1] != BANG
    ensures !OccursAt(token, COMMENT_START, 0)
  {
    assert COMMENT_START[1] == BANG;
  }

  lemma NotCommentAt(s: Str, pos: nat)
    requires pos + 1 < |s| && s[pos + 1] != BANG
    ensures !OccursAt(s, COMMENT_START, pos)
  {
    assert COMMENT_START[1] == BANG;
  }

  // A tag ends at its first >.
  lemma TagEnds(s: Str, token: Str, pos: nat)
    requires OccursAt(s, token, pos) && |token| >= 3 && token[0] == LT
    requires IsLetter(token[1]) || (token[1] == SLASH && IsLetter(token[2]))
    requires token[|token| - 1] == GT && forall k :: 0 <= k < |token| - 1 ==> token[k] != GT
    ensures TokenEnd(s, pos) == pos + |token|
  {
    OccursUnits(s, token, pos);
    assert s[pos + 1] == token[1] && s[pos + 2] == token[2];
    NotCommentAt(s, pos);
    forall j | pos + 1 <= j < pos + |token| - 1 ensures s[j] != GT { assert s[j] == token[j - pos]; }
    IndexOfIs(s, GT, pos + 1, pos + |token| - 1);
  }

  lemma VoidNames(name: Str)
    ensures Lower(name) in VOID_ELEMENTS <==> IsVoidName(name)
  {
  }

  lemma NameOfTag(name: Str, attributes: Str)
    requires IsName(name) && AreAttributes(attributes)
    ensures var token := OpeningTag(name, attributes);
            NameEnd(token, 1) == 1 + |name| && token[1..1 + |name|] == name
  {
    var token, n := OpeningTag(name, attributes), 1 + |name|;
    forall j | 1 <= j < n ensures IsNameUnit(token[j]) { assert token[j] == name[j - 1]; }
    assert token[n] == if attributes != [] then attributes[0] else GT;
    NameEndIs(token, 1, n);
    assert token[1..n] == name;
  }

  lemma SelfClosingIff(name: Str, attributes: Str)
    requires IsName(name)
    ensures SelfClosing(OpeningTag(name, attributes)) <==> EndsInSlash(attributes)
  {
    var token := OpeningTag(name, attributes);
    assert token[..|token| - 1] == [LT] + name + attributes;
    SlashLast([LT] + name + attributes);
    SlashBehindName(name, attributes);
  }

  lemma LetterMeansOpening(token: Str)
    requires |token| >= 2 && token[0] == LT && IsLetter(token[1])
    ensures var tag := Lower(token[1..NameEnd(token, 1)]);
            MeaningOf(token) == Opening(tag, tag !in VOID_ELEMENTS && !SelfClosing(token))
  {
    NotComment(token);
  }

  lemma OpeningMeans(name: Str, attributes: Str)
    requires IsName(name) && AreAttributes(attributes)
    ensures MeaningOf(OpeningTag(name, attributes))
         == Opening(Lower(name), !IsVoidName(name) && !EndsInSlash(attributes))
  {
    var token := OpeningTag(name, attributes);
    assert token[1] == name[0];
    LetterMeansOpening(token);
    NameOfTag(name, attributes);
    VoidNames(name);
    SelfClosingIff(name, attributes);
  }

  lemma OpeningTagUnits(name: Str, attributes: Str)
    requires IsName(name) && AreAttributes(attributes)
    ensures var token := OpeningTag(name, attributes);
            && |token| >= 3 && token[0] == LT && IsLetter(token[1]) && token[|token| - 1] == GT
            && forall k :: 0 <= k < |token| - 1 ==> token[k] != GT
  {
    var token := OpeningTag(name, attributes);
    assert token[1] == name[0];
    forall k | 0 <= k < |token| - 1 ensures token[k] != GT {
      if 1 <= k < 1 + |name| { assert token[k] == name[k - 1]; }
      if 1 + |name| <= k { assert token[k] == attributes[k - 1 - |name|]; }
    }
  }

  lemma OpeningToken(s: Str, name: Str, attributes: Str, pos: nat)
    requires OccursAt(s, OpeningTag(name, attributes), pos) && IsName(name) && AreAttributes(attributes)
    ensures TokenAt(s, pos) == Token(pos, pos + |OpeningTag(name, attributes)|,
                                     Opening(Lower(name), !IsVoidName(name) && !EndsInSlash(attributes)))
  {
    OpeningTagUnits(name, attributes);
    TagEnds(s, OpeningTag(name, attributes), pos);
    OpeningMeans(name, attributes);
  }

  lemma ClosingToken(s: Str, name: Str, pos: nat)
    requires OccursAt(s, ClosingTag(name), pos) && IsName(name)
    ensures TokenAt(s, pos) == Token(pos, pos + |ClosingTag(name)|, Closing(Lower(name)))
  {
    var token, n := ClosingTag(name), 2 + |name|;
    forall j | 2 <= j < n ensures IsNameUnit(token[j]) { assert token[j] == name[j - 2]; }
    TagEnds(s, token, pos);
    NotComment(token);
    NameEndIs(token, 2, n);
    assert token[2..n] == name;
  }

  // ---------------------------------------------------------------- the nodes of a tree

  function Size(t: Part): nat {
    match t
    case Words(_) => 1
    case Comment(_) => 0
    case Declaration(_) => 0
    case Element(_, _, _, children) => 1 + SizeAll(children)
  }

  function SizeAll(f: Parts): nat {
    if f.Nil? then 0 else Size(f.head) + SizeAll(f.tail)
  }

  function RootOf(n: nat, t: Part): seq<nat> {
    if IsSkipped(t) then [] else [n]
  }

  // The indices of the roots of a list of trees whose first node has index n.
  function Roots(n: nat, f: Parts): seq<nat>
    decreases f
  {
    if f.Nil? then [] else RootOf(n, f.head) + Roots(n + Size(f.head), f.tail)
  }

  // The nodes of a tree that stands at `pos`, the first with index n.
  function LaidOut(n: nat, pos: nat, t: Part): (nodes: seq<Node>)
    ensures |nodes| == Size(t)
    decreases t
  {
    match t
    case Words(text) => [Node(None, pos, pos + |text|, [])]
    case Comment(_) => []
    case Declaration(_) => []
    case Element(name, attributes, _, children) =>
      [Node(Some(Lower(name)), pos, pos + |Print(t)|, Roots(n + 1, children))]
      + LaidOutAll(n + 1, pos + |OpeningTag(name, attributes)|, children)
  }

  function LaidOutAll(n: nat, pos: nat, f: Parts): (nodes: seq<Node>)
    ensures |nodes| == SizeAll(f)
    decreases f
  {
    if f.Nil? then [] else LaidOut(n, pos, f.head) + LaidOutAll(n + Size(f.head), pos + |Print(f.head)|, f.tail)
  }

  // The nodes are added, and the roots among them go to the innermost open element.
  function Grown(p: Parse, roots: seq<nat>, more: seq<Node>): Parse
    requires Valid(p)
  {
    var top := p.stack[|p.stack| - 1];
    p.(nodes := p.nodes[top := p.nodes[top].(children := p.nodes[top].children + roots)] + more)
  }

  // Open elements have been inside one inside the other.
  predicate Nested(p: Parse) {
    Valid(p) && forall a, b :: 0 <= a < b < |p.stack| ==> p.stack[a] < p.stack[b]
  }

  // The token at each place of a text, and what parsing from there with some open elements ends in.
  datatype Run = Run(scan: nat -> Token, outcome: (nat, Parse) -> Parse)

  // The outcome stays the same when a token is read.
  ghost predicate Stable(s: Str, run: Run) {
    && (forall pos: nat {:trigger TokenAt(s, pos)} :: pos < |s| ==> run.scan(pos) == TokenAt(s, pos))
    && (forall pos: nat, p {:trigger Step(p, run.scan(pos))} :: pos < |s| && Valid(p) ==>
          run.outcome(pos, p) == run.outcome(run.scan(pos).end, Step(p, run.scan(pos))))
  }

  lemma ReadsToken(s: Str, run: Run, pos: nat, p: Parse, t: Token)
    requires Stable(s, run) && pos < |s| && run.scan(pos) == t && Valid(p)
    ensures Valid(Step(p, t)) && run.outcome(pos, p) == run.outcome(t.end, Step(p, t))
  {
    StepValid(p, t);
    assert Step(p, run.scan(pos)) == Step(p, t);
  }

  lemma GrownTwice(p: Parse, a: seq<nat>, x: seq<Node>, b: seq<nat>, y: seq<Node>)
    requires Valid(p) && Valid(Grown(p, a, x))
    ensures Grown(Grown(p, a, x), b, y) == Grown(p, a + b, x + y)
  {
    var top := p.stack[|p.stack| - 1];
    var once, twice := Grown(p, a, x), Grown(Grown(p, a, x), b, y);
    assert once.nodes[top].children == p.nodes[top].children + a;
    assert (p.nodes[top].children + a) + b == p.nodes[top].children + (a + b);
    assert twice.nodes == Grown(p, a + b, x + y).nodes;
  }

  lemma GrownNested(p: Parse, roots: seq<nat>, more: seq<Node>)
    requires Nested(p)
    ensures Nested(Grown(p, roots, more))
  {
  }

  lemma GrownByNothing(p: Parse)
    requires Valid(p)
    ensures Grown(p, [], []) == p
  {
    var top := p.stack[|p.stack| - 1];
    assert p.nodes[top].children + [] == p.nodes[top].children;
  }

  lemma ReadsLeaf(s: Str, run: Run, pos: nat, p: Parse, t: Token)
    requires Stable(s, run) && pos < |s| && run.scan(pos) == t && Nested(p)
    requires t.meaning.PlainText? || (t.meaning.Opening? && !t.meaning.pushed)
    ensures run.outcome(pos, p) == run.outcome(t.end, Grown(p, [|p.nodes|], [NodeFor(t)]))
  {
    ReadsToken(s, run, pos, p, t);
    assert Step(p, t) == Grown(p, [|p.nodes|], [NodeFor(t)]);
  }

  // The parent knows its new child.
  function WithRoot(p: Parse): seq<Node>
    requires Valid(p)
  {
    var top := p.stack[|p.stack| - 1];
    p.nodes[top := WithChild(p.nodes[top], |p.nodes|)]
  }

  // An element just opened, filled with its children.
  lemma FilledNodes(p: Parse, node: Node, roots: seq<nat>, more: seq<Node>)
    requires Nested(p) && node.children == []
    ensures var n, inside := |p.nodes|, Parse(WithNode(p.nodes, p.stack[|p.stack| - 1], node), p.stack + [|p.nodes|]);
            && Nested(inside)
            && Grown(inside, roots, more) == Parse(WithRoot(p) + ([node.(children := roots)] + more), p.stack + [n])
  {
    var n := |p.nodes|;
    var inside := Parse(WithNode(p.nodes, p.stack[|p.stack| - 1], node), p.stack + [n]);
    assert inside.stack[|inside.stack| - 1] == n && inside.nodes[n] == node;
    assert [] + roots == roots;
    assert Grown(inside, roots, more).nodes == WithRoot(p) + ([node.(children := roots)] + more);
  }

  // Its closing tag closes just this element.
  lemma ClosesTop(nodes: seq<Node>, node: Node, more: seq<Node>, stack: seq<nat>, tag: Str, t: Token)
    requires node.tag == Some(tag) && t.meaning == Closing(tag) && stack != []
    requires forall k :: 0 <= k < |stack| ==> stack[k] < |nodes|
    ensures Valid(Parse(nodes + ([node] + more), stack + [|nodes|]))
    ensures Step(Parse(nodes + ([node] + more), stack + [|nodes|]), t)
         == Parse(nodes + ([node.(end := t.end)] + more), stack)
  {
    var all, longer := nodes + ([node] + more), stack + [|nodes|];
    assert longer[..|longer| - 1] == stack && all[|nodes|] == node;
    assert AfterClosing(all, longer, tag) == stack;
    assert |nodes| !in stack;
    assert ClosedBy(all, longer, stack, t.end) == nodes + ([node.(end := t.end)] + more);
  }

  lemma GrownByElement(p: Parse, node: Node, more: seq<Node>)
    requires Valid(p)
    ensures Grown(p, [|p.nodes|], [node] + more) == Parse(WithRoot(p) + ([node] + more), p.stack)
  {
  }

  // ---------------------------------------------------------------- reading the text of a tree

  lemma ThreeParts(s: Str, a: Str, b: Str, c: Str, pos: nat)
    requires OccursAt(s, a + b + c, pos)
    ensures OccursAt(s, a, pos) && OccursAt(s, b, pos + |a|) && OccursAt(s, c, pos + |a| + |b|)
  {
    OccursParts(s, a + b, c, pos);
    OccursParts(s, a, b, pos);
  }

  // The two tags of an element, and where its content stands.
  lemma TagsOfElement(s: Str, pos: nat, name: Str, attributes: Str, inner: Str, from: nat, to: nat)
    requires IsName(name) && AreAttributes(attributes) && !IsVoidName(name) && !EndsInSlash(attributes)
    requires from == pos + |OpeningTag(name, attributes)| && to == from + |inner|
    requires OccursAt(s, OpeningTag(name, attributes), pos) && OccursAt(s, inner, from) && OccursAt(s, ClosingTag(name), to)
    ensures to < |s| && TextEnds(s, to)
    ensures TokenAt(s, pos) == Token(pos, from, Opening(Lower(name), true))
    ensures TokenAt(s, to) == Token(to, to + |ClosingTag(name)|, Closing(Lower(name)))
  {
    OpeningToken(s, name, attributes, pos);
    ClosingToken(s, name, to);
    OccursUnits(s, ClosingTag(name), to);
  }

  // Reading an opening tag, what fills the element, and its closing tag.
  lemma OpensAndCloses(p: Parse, tag: Str, first: Token, last: Token, roots: seq<nat>, more: seq<Node>)
    requires Nested(p) && first.meaning == Opening(tag, true) && last.meaning == Closing(tag)
    ensures var inside := Step(p, first);
            && Nested(inside) && |inside.nodes| == |p.nodes| + 1 && Valid(Grown(inside, roots, more))
            && Step(Grown(inside, roots, more), last)
               == Grown(p, [|p.nodes|], [Node(Some(tag), first.start, last.end, roots)] + more)
  {
    var node := NodeFor(first);
    FilledNodes(p, node, roots, more);
    ClosesTop(WithRoot(p), node.(children := roots), more, p.stack, tag, last);
    GrownByElement(p, node.(children := roots, end := last.end), more);
  }

  lemma SliceOfSlice(s: Str, pos: nat, n: nat, i: nat, j: nat)
    requires i <= j <= n && pos + n <= |s|
    ensures s[pos..pos + n][i..j] == s[pos + i..pos + j]
  {
    var part, whole := s[pos..pos + n][i..j], s[pos + i..pos + j];
    assert |part| == |whole| && forall k :: 0 <= k < |part| ==> part[k] == whole[k];
  }

  // An occurrence inside the text is one in the text alone.
  lemma OccursInside(s: Str, whole: Str, pattern: Str, pos: nat, k: nat)
    requires OccursAt(s, whole, pos) && OccursAt(s, pattern, k) && pos <= k && k + |pattern| <= pos + |whole|
    ensures OccursAt(whole, pattern, k - pos)
  {
    SliceOfSlice(s, pos, |whole|, k - pos, k - pos + |pattern|);
  }

  lemma CommentEnds(s: Str, text: Str, pos: nat)
    requires OccursAt(s, text + COMMENT_END, pos) && IsCommentText(text)
    ensures IndexOfText(s, COMMENT_END, pos) == pos + |text|
  {
    var k := IndexOfText(s, COMMENT_END, pos);
    OccursParts(s, text, COMMENT_END, pos);
    if k < pos + |text| { OccursInside(s, text + COMMENT_END, COMMENT_END, pos, k); }
  }

  lemma CommentToken(s: Str, text: Str, pos: nat)
    requires OccursAt(s, COMMENT_START + text + COMMENT_END, pos) && IsCommentText(text)
    ensures TokenAt(s, pos) == Token(pos, pos + |COMMENT_START + text + COMMENT_END|, Skipped)
  {
    var token := COMMENT_START + text + COMMENT_END;
    assert token == COMMENT_START + (text + COMMENT_END);
    OccursParts(s, COMMENT_START, text + COMMENT_END, pos);
    OccursUnits(s, COMMENT_START, pos);
    assert COMMENT_START[0] == LT && s[pos + 0] == LT;
    CommentEnds(s, text, pos + 4);
    assert token[0..4] == COMMENT_START;
    assert OccursAt(token, COMMENT_START, 0);
  }

  lemma DeclarationToken(s: Str, text: Str, pos: nat)
    requires OccursAt(s, [LT, BANG] + text + [GT], pos) && IsDeclarationText(text)
    ensures TokenAt(s, pos) == Token(pos, pos + |text| + 3, Skipped)
  {
    var token := [LT, BANG] + text + [GT];
    assert COMMENT_START[2] == DASH;
    assert token[2] == if text != [] then text[0] else GT;
    OccursUnits(s, token, pos);
    assert s[pos + 0] == token[0] && s[pos + 1] == token[1] && s[pos + 2] == token[2];
    forall j | pos + 2 <= j < pos + |token| - 1 ensures s[j] != GT { assert s[j] == token[j - pos] == text[j - pos - 2]; }
    IndexOfIs(s, GT, pos + 2, pos + |token| - 1);
  }

  lemma ReadsSkipped(s: Str, run: Run, pos: nat, p: Parse, t: Part)
    requires Stable(s, run) && OccursAt(s, Print(t), pos) && WellFormed(t) && Nested(p) && IsSkipped(t)
    ensures run.outcome(pos, p) == run.outcome(pos + |Print(t)|, Grown(p, [], []))
  {
    if t.Comment? { CommentToken(s, t.text, pos); } else { DeclarationToken(s, t.text, pos); }
    var token := run.scan(pos);
    assert token == TokenAt(s, pos) && Step(p, token) == p;
    ReadsToken(s, run, pos, p, token);
    GrownByNothing(p);
  }

  lemma ReadsBare(s: Str, run: Run, pos: nat, p: Parse, t: Part)
    requires Stable(s, run) && OccursAt(s, Print(t), pos) && WellFormed(t) && Nested(p)
    requires (t.Words? && TextEnds(s, pos + |Print(t)|)) || (t.Element? && t.form.Bare?)
    ensures run.outcome(pos, p) == run.outcome(pos + |Print(t)|, Grown(p, [|p.nodes|], LaidOut(|p.nodes|, pos, t)))
  {
    if t.Words? {
      TextToken(s, t.text, pos);
    } else {
      OpeningToken(s, t.name, t.attributes, pos);
    }
    var token := run.scan(pos);
    assert token == TokenAt(s, pos);
    assert LaidOut(|p.nodes|, pos, t) == [NodeFor(token)];
    ReadsLeaf(s, run, pos, p, token);
  }

  lemma ReadsElement(
    s: Str, run: Run, pos: nat, p: Parse, tag: Str, first: Token, to: nat, last: Token, roots: seq<nat>, more: seq<Node>)
    requires Stable(s, run) && Nested(p) && pos < |s| && run.scan(pos) == first && to < |s| && run.scan(to) == last
    requires first.meaning == Opening(tag, true) && last.meaning == Closing(tag)
    requires Valid(Step(p, first)) && run.outcome(first.end, Step(p, first)) == run.outcome(to, Grown(Step(p, first), roots, more))
    ensures run.outcome(pos, p)
         == run.outcome(last.end, Grown(p, [|p.nodes|], [Node(Some(tag), first.start, last.end, roots)] + more))
  {
    OpensAndCloses(p, tag, first, last, roots, more);
    ReadsToken(s, run, pos, p, first);
    ReadsToken(s, run, to, Grown(Step(p, first), roots, more), last);
  }

  lemma OpenedNested(p: Parse, first: Token, tag: Str)
    requires Nested(p) && first.meaning == Opening(tag, true)
    ensures Nested(Step(p, first)) && |Step(p, first).nodes| == |p.nodes| + 1
  {
  }

  lemma {:induction false} ReadsPart(s: Str, run: Run, pos: nat, p: Parse, t: Part)
    requires Stable(s, run) && OccursAt(s, Print(t), pos) && WellFormed(t) && Nested(p)
    requires t.Words? ==> TextEnds(s, pos + |Print(t)|)
    ensures run.outcome(pos, p) == run.outcome(pos + |Print(t)|, Grown(p, RootOf(|p.nodes|, t), LaidOut(|p.nodes|, pos, t)))
    decreases t, 0
  {
    if IsSkipped(t) {
      ReadsSkipped(s, run, pos, p, t);
    } else if t.Words? || t.form.Bare? {
      ReadsBare(s, run, pos, p, t);
    } else {
      var from, to, end := PairedText(s, run, pos, t);
      ReadsPaired(s, run, pos, p, Lower(t.name), from, to, end, t.children);
      LaidOutPaired(|p.nodes|, pos, t, from, end);
    }
  }

  // Where the tags of an element and its content are.
  lemma PairedText(s: Str, run: Run, pos: nat, t: Part) returns (from: nat, to: nat, end: nat)
    requires Stable(s, run) && OccursAt(s, Print(t), pos) && WellFormed(t) && t.Element? && t.form.Paired?
    ensures from == pos + |OpeningTag(t.name, t.attributes)| && end == to + |ClosingTag(t.name)|
    ensures OccursAt(s, PrintAll(t.children), from) && to == from + |PrintAll(t.children)|
    ensures pos < |s| && run.scan(pos) == Token(pos, from, Opening(Lower(t.name), true))
    ensures to < |s| && TextEnds(s, to) && run.scan(to) == Token(to, end, Closing(Lower(t.name)))
  {
    var inner := PrintAll(t.children);
    from, to := pos + |OpeningTag(t.name, t.attributes)|, pos + |OpeningTag(t.name, t.attributes)| + |inner|;
    end := to + |ClosingTag(t.name)|;
    ThreeParts(s, OpeningTag(t.name, t.attributes), inner, ClosingTag(t.name), pos);
    TagsOfElement(s, pos, t.name, t.attributes, inner, from, to);
  }

  lemma LaidOutPaired(n: nat, pos: nat, t: Part, from: nat, end: nat)
    requires t.Element? && t.form.Paired? && from == pos + |OpeningTag(t.name, t.attributes)|
    requires end == from + |PrintAll(t.children)| + |ClosingTag(t.name)|
    ensures pos + |Print(t)| == end
    ensures LaidOut(n, pos, t)
         == [Node(Some(Lower(t.name)), pos, end, Roots(n + 1, t.children))] + LaidOutAll(n + 1, from, t.children)
  {
  }

  lemma {:induction false} ReadsPaired(
    s: Str, run: Run, pos: nat, p: Parse, tag: Str, from: nat, to: nat, end: nat, children: Parts)
    requires Stable(s, run) && Nested(p) && pos < |s| && run.scan(pos) == Token(pos, from, Opening(tag, true))
    requires OccursAt(s, PrintAll(children), from) && AllWellFormed(children) && to == from + |PrintAll(children)|
    requires to < |s| && TextEnds(s, to) && run.scan(to) == Token(to, end, Closing(tag))
    ensures var n := |p.nodes|;
            run.outcome(pos, p)
            == run.outcome(end, Grown(p, [n], [Node(Some(tag), pos, end, Roots(n + 1, children))] + LaidOutAll(n + 1, from, children)))
    decreases children, 1
  {
    var n, first, last := |p.nodes|, run.scan(pos), run.scan(to);
    OpenedNested(p, first, tag);
    ReadsParts(s, run, from, Step(p, first), children);
    ReadsElement(s, run, pos, p, tag, first, to, last, Roots(n + 1, children), LaidOutAll(n + 1, from, children));
  }

  lemma TagFollows(s: Str, pos: nat, f: Parts)
    requires OccursAt(s, PrintAll(f), pos) && TextEnds(s, pos + |PrintAll(f)|) && (f.Cons? ==> !f.head.Words?)
    ensures TextEnds(s, pos)
  {
    if f.Cons? {
      OccursUnits(s, PrintAll(f), pos);
      assert Print(f.head)[0] == LT;
      assert PrintAll(f)[0] == LT;
    }
  }

  lemma TwoParts(s: Str, whole: Str, a: Str, b: Str, pos: nat, next: nat)
    requires whole == a + b && OccursAt(s, whole, pos) && next == pos + |a|
    ensures OccursAt(s, a, pos) && OccursAt(s, b, next) && next + |b| == pos + |whole|
  {
    OccursParts(s, a, b, pos);
  }

  lemma HeadOccurs(s: Str, pos: nat, f: Parts, next: nat)
    requires f.Cons? && OccursAt(s, PrintAll(f), pos) && AllWellFormed(f) && TextEnds(s, pos + |PrintAll(f)|)
    requires next == pos + |Print(f.head)|
    ensures OccursAt(s, Print(f.head), pos) && OccursAt(s, PrintAll(f.tail), next)
    ensures TextEnds(s, next + |PrintAll(f.tail)|) && (f.head.Words? ==> TextEnds(s, next))
  {
    TwoParts(s, PrintAll(f), Print(f.head), PrintAll(f.tail), pos, next);
    if f.head.Words? { TagFollows(s, next, f.tail); }
  }

  lemma LaidOutCons(n: nat, pos: nat, f: Parts, next: nat)
    requires f.Cons? && next == pos + |Print(f.head)|
    ensures pos + |PrintAll(f)| == next + |PrintAll(f.tail)|
    ensures Roots(n, f) == RootOf(n, f.head) + Roots(n + Size(f.head), f.tail)
    ensures LaidOutAll(n, pos, f) == LaidOut(n, pos, f.head) + LaidOutAll(n + Size(f.head), next, f.tail)
  {
  }

  lemma {:induction false} ReadsParts(s: Str, run: Run, pos: nat, p: Parse, f: Parts)
    requires Stable(s, run) && OccursAt(s, PrintAll(f), pos) && AllWellFormed(f) && Nested(p)
    requires TextEnds(s, pos + |PrintAll(f)|)
    ensures run.outcome(pos, p)
         == run.outcome(pos + |PrintAll(f)|, Grown(p, Roots(|p.nodes|, f), LaidOutAll(|p.nodes|, pos, f)))
    decreases f, 0
  {
    if f.Nil? {
      GrownByNothing(p);
    } else {
      var n, next, nodes := |p.nodes|, pos + |Print(f.head)|, LaidOut(|p.nodes|, pos, f.head);
      HeadOccurs(s, pos, f, next);
      ReadsPart(s, run, pos, p, f.head);
      GrownNested(p, RootOf(n, f.head), nodes);
      ReadsParts(s, run, next, Grown(p, RootOf(n, f.head), nodes), f.tail);
      GrownTwice(p, RootOf(n, f.head), nodes, Roots(n + |nodes|, f.tail), LaidOutAll(n + |nodes|, next, f.tail));
      LaidOutCons(n, pos, f, next);
    }
  }

  // ---------------------------------------------------------------- the nesting read back

  // Node i is the root of this tree: its name, its range in the text, and its children, each such a root.
  predicate IsTree(s: Str, nodes: seq<Node>, i: nat, t: Part)
    decreases t
  {
    && !IsSkipped(t) && i < |nodes| && OccursAt(s, Print(t), nodes[i].start) && nodes[i].end == nodes[i].start + |Print(t)|
    && match t
       case Words(_) => nodes[i].tag == None && nodes[i].children == []
       case Element(name, _, _, children) =>
         nodes[i].tag == Some(Lower(name)) && AreTrees(s, nodes, nodes[i].children, children)
       case _ => false
  }

  predicate AreTrees(s: Str, nodes: seq<Node>, roots: seq<nat>, f: Parts)
    decreases f
  {
    if f.Nil? then roots == []
    else if IsSkipped(f.head) then AreTrees(s, nodes, roots, f.tail)
    else roots != [] && IsTree(s, nodes, roots[0], f.head) && AreTrees(s, nodes, roots[1..], f.tail)
  }

  // The nodes from n on are these.
  predicate NodesFrom(nodes: seq<Node>, n: nat, more: seq<Node>) {
    n + |more| <= |nodes| && forall k :: 0 <= k < |more| ==> nodes[n + k] == more[k]
  }

  lemma NodesFromParts(nodes: seq<Node>, n: nat, a: seq<Node>, b: seq<Node>)
    requires NodesFrom(nodes, n, a + b)
    ensures NodesFrom(nodes, n, a) && NodesFrom(nodes, n + |a|, b)
  {
    forall k | 0 <= k < |a| ensures nodes[n + k] == a[k] { assert (a + b)[k] == a[k]; }
    forall k | 0 <= k < |b| ensures nodes[n + |a| + k] == b[k] { assert (a + b)[|a| + k] == b[k]; }
  }

  // The first of the nodes laid out, and where the others are.
  lemma FirstLaidOut(nodes: seq<Node>, n: nat, pos: nat, t: Part)
    requires NodesFrom(nodes, n, LaidOut(n, pos, t)) && !IsSkipped(t)
    ensures n < |nodes| && nodes[n] == LaidOut(n, pos, t)[0] && nodes[n].start == pos && nodes[n].end == pos + |Print(t)|
    ensures t.Words? ==> nodes[n].tag == None && nodes[n].children == []
    ensures t.Element? ==>
              && nodes[n].tag == Some(Lower(t.name)) && nodes[n].children == Roots(n + 1, t.children)
              && NodesFrom(nodes, n + 1, LaidOutAll(n + 1, pos + |OpeningTag(t.name, t.attributes)|, t.children))
  {
    assert nodes[n + 0] == LaidOut(n, pos, t)[0];
    if t.Element? {
      NodesFromParts(nodes, n, [LaidOut(n, pos, t)[0]],
                     LaidOutAll(n + 1, pos + |OpeningTag(t.name, t.attributes)|, t.children));
    }
  }

  lemma {:induction false} LaidOutIsTree(s: Str, nodes: seq<Node>, n: nat, pos: nat, t: Part)
    requires OccursAt(s, Print(t), pos) && NodesFrom(nodes, n, LaidOut(n, pos, t)) && WellFormed(t) && !IsSkipped(t)
    ensures IsTree(s, nodes, n, t)
    decreases t
  {
    FirstLaidOut(nodes, n, pos, t);
    if t.Element? {
      ContentOccurs(s, pos, t);
      LaidOutAreTrees(s, nodes, n + 1, pos + |OpeningTag(t.name, t.attributes)|, t.children);
    }
  }

  lemma ContentOccurs(s: Str, pos: nat, t: Part)
    requires OccursAt(s, Print(t), pos) && WellFormed(t) && t.Element?
    ensures OccursAt(s, PrintAll(t.children), pos + |OpeningTag(t.name, t.attributes)|)
  {
    if t.form.Paired? { ThreeParts(s, OpeningTag(t.name, t.attributes), PrintAll(t.children), ClosingTag(t.name), pos); }
  }

  // The first tree's nodes, if it has any, and those of the others.
  lemma LaidOutParts(s: Str, nodes: seq<Node>, n: nat, pos: nat, f: Parts, more: nat, next: nat)
    requires f.Cons? && OccursAt(s, PrintAll(f), pos) && NodesFrom(nodes, n, LaidOutAll(n, pos, f))
    requires more == n + Size(f.head) && next == pos + |Print(f.head)|
    ensures OccursAt(s, Print(f.head), pos) && NodesFrom(nodes, n, LaidOut(n, pos, f.head))
    ensures OccursAt(s, PrintAll(f.tail), next) && NodesFrom(nodes, more, LaidOutAll(more, next, f.tail))
  {
    TwoParts(s, PrintAll(f), Print(f.head), PrintAll(f.tail), pos, next);
    NodesFromParts(nodes, n, LaidOut(n, pos, f.head), LaidOutAll(more, next, f.tail));
  }

  lemma AreTreesCons(s: Str, nodes: seq<Node>, n: nat, roots: seq<nat>, f: Parts)
    requires f.Cons? && AreTrees(s, nodes, roots, f.tail)
    requires !IsSkipped(f.head) ==> IsTree(s, nodes, n, f.head)
    ensures AreTrees(s, nodes, RootOf(n, f.head) + roots, f)
  {
    if IsSkipped(f.head) { assert [] + roots == roots; } else { assert ([n] + roots)[1..] == roots; }
  }

  lemma {:induction false} LaidOutAreTrees(s: Str, nodes: seq<Node>, n: nat, pos: nat, f: Parts)
    requires OccursAt(s, PrintAll(f), pos) && NodesFrom(nodes, n, LaidOutAll(n, pos, f)) && AllWellFormed(f)
    ensures AreTrees(s, nodes, Roots(n, f), f)
    decreases f
  {
    if f.Cons? {
      var more, next := n + Size(f.head), pos + |Print(f.head)|;
      LaidOutParts(s, nodes, n, pos, f, more, next);
      LaidOutAreTrees(s, nodes, more, next, f.tail);
      if !IsSkipped(f.head) { LaidOutIsTree(s, nodes, n, pos, f.head); }
      AreTreesCons(s, nodes, n, Roots(more, f.tail), f);
    }
  }

  // Parsing the text.
  function RunOf(s: Str): Run {
    Run((pos: nat) => if pos < |s| then TokenAt(s, pos) else Token(pos, pos, Skipped),
        (pos: nat, p: Parse) => if pos <= |s| && Valid(p) then Html.Parsed(p, Tokens(s, pos)) else p)
  }

  lemma RunIsStable(s: Str)
    ensures Stable(s, RunOf(s))
  {
    var run := RunOf(s);
    forall pos: nat, p | pos < |s| && Valid(p)
      ensures run.outcome(pos, p) == run.outcome(run.scan(pos).end, Step(p, run.scan(pos)))
    {
      StepValid(p, TokenAt(s, pos));
      assert Tokens(s, pos)[1..] == Tokens(s, TokenEnd(s, pos));
    }
  }

  const START := Parse([ROOT], [0])

  // The nodes that a printed list of trees is parsed to.
  lemma PrintedIsParsed(f: Parts)
    requires AllWellFormed(f)
    ensures Html.Tree(PrintAll(f)) == Completed(Grown(START, Roots(1, f), LaidOutAll(1, 0, f)), |PrintAll(f)|)
  {
    var s, p := PrintAll(f), Grown(START, Roots(1, f), LaidOutAll(1, 0, f));
    var run := RunOf(s);
    RunIsStable(s);
    assert s[0..0 + |s|] == s;
    ReadsParts(s, run, 0, START, f);
    assert Tokens(s, |s|) == [];
    assert run.outcome(|s|, p) == p;
  }

  lemma CompletedNodes(roots: seq<nat>, more: seq<Node>, end: nat)
    ensures var nodes := Completed(Grown(START, roots, more), end);
            && |nodes| == 1 + |more| && nodes[0] == Node(None, 0, end, roots) && NodesFrom(nodes, 1, more)
  {
    assert [] + roots == roots;
    assert Grown(START, roots, more).nodes == [Node(None, 0, 0, roots)] + more;
  }

  /** A printed list of trees, with whatever attributes, is parsed to just these trees below the root: every
      element has the name, the range and the children that it has in the text, and there are no other nodes.
      So an opening tag has children exactly if it is neither void nor ends in a slash, and comments and
      declarations leave nothing. */
  lemma NestingReadsBack(f: Parts)
    requires AllWellFormed(f)
    ensures var s, nodes := PrintAll(f), Html.Tree(PrintAll(f));
            && |nodes| == 1 + SizeAll(f) && nodes[0].tag == None && nodes[0].start == 0 && nodes[0].end == |s|
            && AreTrees(s, nodes, nodes[0].children, f)
  {
    var s, nodes := PrintAll(f), Html.Tree(PrintAll(f));
    PrintedIsParsed(f);
    CompletedNodes(Roots(1, f), LaidOutAll(1, 0, f), |s|);
    assert s[0..0 + |s|] == s;
    LaidOutAreTrees(s, nodes, 1, 0, f);
  }
}
