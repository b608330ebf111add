/** The HTML tree: parseHTML of crawler/ingestion/html.ts. */
module Html {
  import opened Prelude
  import opened Text

  const LT: Unit := 60
  const GT: Unit := 62
  const SLASH: Unit := 47
  const BANG: Unit := 33
  const DASH: Unit := 45
  const COMMENT_START := Ascii("<!--")
  const COMMENT_END := Ascii("-->")

  const VOID_ELEMENTS: set<Str> := {
    Ascii("area"), Ascii("base"), Ascii("br"), Ascii("col"), Ascii("embed"), Ascii("hr"), Ascii("img"), Ascii("input"),
    Ascii("link"), Ascii("meta"), Ascii("param"), Ascii("source"), Ascii("track"), Ascii("wbr") }

  predicate IsLetter(u: Unit) {
    65 <= u <= 90 || 97 <= u <= 122
  }

  // [\w:-]
  predicate IsNameUnit(u: Unit) {
    IsLetter(u) || 48 <= u <= 57 || u == 95 || u == 58 || u == DASH
  }

  predicate LetterAt(s: Str, i: nat) {
    i < |s| && IsLetter(s[i])
  }

  // ---------------------------------------------------------------- tokens

  // The first place from i on that holds u, or the end.
  function IndexOf(s: Str, u: Unit, i: nat): (k: nat)
    requires i <= |s|
    ensures i <= k <= |s| && (k < |s| ==> s[k] == u) && forall j :: i <= j < k ==> s[j] != u
    decreases |s| - i
  {
    if i == |s| || s[i] == u then i else IndexOf(s, u, i + 1)
  }

  // The first place from i on where the pattern occurs, or the end.
  function IndexOfText(s: Str, pattern: Str, i: nat): (k: nat)
    requires i <= |s|
    ensures i <= k <= |s| && (k < |s| ==> OccursAt(s, pattern, k)) && forall j :: i <= j < k ==> !OccursAt(s, pattern, j)
    decreases |s| - i
  {
    if i == |s| || OccursAt(s, pattern, i) then i else IndexOfText(s, pattern, i + 1)
  }

  // The end of the token at i: text, a comment, a declaration, a tag, or a lone <.
  function TokenEnd(s: Str, i: nat): (end: nat)
    requires i < |s|
    ensures i < end <= |s|
  {
    if s[i] != LT then IndexOf(s, LT, i)
    else if OccursAt(s, COMMENT_START, i) && IndexOfText(s, COMMENT_END, i + 4) < |s| then IndexOfText(s, COMMENT_END, i + 4) + 3
    else if i + 1 < |s| && s[i + 1] == BANG && IndexOf(s, GT, i + 2) < |s| then IndexOf(s, GT, i + 2) + 1
    else if (LetterAt(s, i + 1) || (i + 1 < |s| && s[i + 1] == SLASH && LetterAt(s, i + 2))) && IndexOf(s, GT, i + 1) < |s|
    then IndexOf(s, GT, i + 1) + 1
    else i + 1
  }

  datatype Meaning = Skipped | Closing(tag: Str) | Opening(tag: Str, pushed: bool) | PlainText

  datatype Token = Token(start: nat, end: nat, meaning: Meaning)

  // The end of the tag name that starts at i.
  function NameEnd(token: Str, i: nat): (k: nat)
    requires i <= |token|
    ensures i <= k <= |token|
    decreases |token| - i
  {
    if i < |token| && IsNameUnit(token[i]) then NameEnd(token, i + 1) else i
  }

  // /\/\s*>$/
  predicate SelfClosing(token: Str) {
    |token| >= 2 && token[|token| - 1] == GT
    && var inner := token[..|token| - 1];
       var trimmed := inner[..|inner| - TrailingSpace(inner)];
       trimmed != [] && trimmed[|trimmed| - 1] == SLASH
  }

  function MeaningOf(token: Str): Meaning {
    if OccursAt(token, COMMENT_START, 0) then Skipped
    else if |token| >= 3 && token[0] == LT && token[1] == BANG && token[2] != DASH then Skipped
    else if |token| >= 3 && token[0] == LT && token[1] == SLASH && IsLetter(token[2]) then
      Closing(Lower(token[2..NameEnd(token, 2)]))
    else if |token| >= 2 && token[0] == LT && IsLetter(token[1]) then
      var tag := Lower(token[1..NameEnd(token, 1)]);
      Opening(tag, tag !in VOID_ELEMENTS && !SelfClosing(token))
    else PlainText
  }

  function TokenAt(s: Str, i: nat): Token
    requires i < |s|
  {
    Token(i, TokenEnd(s, i), MeaningOf(s[i..TokenEnd(s, i)]))
  }

  // The tokens from i on.
  function Tokens(s: Str, i: nat): seq<Token>
    requires i <= |s|
    decreases |s| - i
  {
    if i == |s| then [] else [TokenAt(s, i)] + Tokens(s, TokenEnd(s, i))
  }

  function Covered(s: Str, tokens: seq<Token>): Str
    requires forall k :: 0 <= k < |tokens| ==> tokens[k].start <= tokens[k].end <= |s|
  {
    if tokens == [] then [] else s[tokens[0].start..tokens[0].end] + Covered(s, tokens[1..])
  }

  // The tokens from i on lie one after the other up to the end.
  ghost predicate Tile(s: Str, tokens: seq<Token>, i: nat) {
    && (forall k :: 0 <= k < |tokens| ==> i <= tokens[k].start < tokens[k].end <= |s|)
    && (if tokens == [] then i == |s| else tokens[0].start == i && tokens[|tokens| - 1].end == |s|)
    && (forall k :: 0 < k < |tokens| ==> tokens[k].start == tokens[k - 1].end)
  }

  lemma TileCons(s: Str, first: Token, rest: seq<Token>)
    requires first.start < first.end <= |s| && Tile(s, rest, first.end)
    ensures Tile(s, [first] + rest, first.start)
  {
  }

  lemma CoveredCons(s: Str, first: Token, rest: seq<Token>)
    requires first.start < first.end <= |s| && Tile(s, rest, first.end)
    ensures Tile(s, [first] + rest, first.start)
    ensures Covered(s, [first] + rest) == s[first.start..first.end] + Covered(s, rest)
  {
    TileCons(s, first, rest);
    assert ([first] + rest)[1..] == rest;
  }

  lemma JoinedAt(s: Str, i: nat, end: nat)
    requires i <= end <= |s|
    ensures s[i..end] + s[end..] == s[i..]
  {
  }

  /** The tokens tile the input: each starts where the last one ends, none is empty, and together they are the input. */
  lemma {:induction false} TokensTile(s: Str, i: nat)
    requires i <= |s|
    ensures Tile(s, Tokens(s, i), i) && Covered(s, Tokens(s, i)) == s[i..]
    decreases |s| - i
  {
    if i < |s| {
      var end := TokenEnd(s, i);
      TokensTile(s, end);
      CoveredCons(s, TokenAt(s, i), Tokens(s, end));
      JoinedAt(s, i, end);
    }
  }

  // Text and opening tags, which become nodes.
  predicate MakesNode(t: Token) {
    t.meaning.Opening? || t.meaning.PlainText?
  }

  function NodeTokens(tokens: seq<Token>): seq<Token> {
    if tokens == [] then []
    else (if MakesNode(tokens[0]) then [tokens[0]] else []) + NodeTokens(tokens[1..])
  }

  // ---------------------------------------------------------------- the tree

  // A text has no tag, nor has the root; nodes are named by their place in the order of their creation.
  datatype Node = Node(tag: Option<Str>, start: nat, end: nat, children: seq<nat>)

  function Raise(values: seq<nat>, stack: seq<nat>, value: nat): (raised: seq<nat>)
    ensures |raised| == |values| && forall i :: 0 <= i < |values| ==> raised[i] == if i in stack then value else values[i]
  {
    seq(|values|, i requires 0 <= i < |values| => if i in stack then value else values[i])
  }

  // The stack is the way from the root along last children.
  ghost predicate StackIsLastPath(nodes: seq<Node>, stack: seq<nat>) {
    && stack != [] && stack[0] == 0 && (forall k :: 0 <= k < |stack| ==> stack[k] < |nodes|)
    && (forall a, b :: 0 <= a < b < |stack| ==> stack[a] < stack[b])
    && (forall a :: 0 <= a < |stack| - 1 ==> LastChild(nodes[stack[a]]) == Some(stack[a + 1]))
    && (forall i :: 0 <= i < |nodes| ==> OpenChildren(nodes[i], i, stack))
  }

  function LastChild(node: Node): Option<nat> {
    if node.children == [] then None else Some(node.children[|node.children| - 1])
  }

  // The last child of an open node below the top is open; no other child of any node is.
  ghost predicate OpenChildren(node: Node, i: nat, stack: seq<nat>)
    requires stack != []
  {
    && (forall k :: 0 <= k < |node.children| - 1 ==> node.children[k] !in stack)
    && (if i in stack && i != stack[|stack| - 1] then node.children != [] && node.children[|node.children| - 1] in stack
        else node.children != [] ==> node.children[|node.children| - 1] !in stack)
  }

  // Node i and the nodes below it are the nodes from i to its limit, its children one after the other.
  ghost predicate Contiguous(node: Node, i: nat, limits: seq<nat>) {
    && i < |limits| && i < limits[i] <= |limits|
    && (forall k :: 0 <= k < |node.children| ==> i < node.children[k] < |limits|)
    && (node.children != [] ==> node.children[0] == i + 1)
    && (forall k :: 0 < k < |node.children| ==> node.children[k] == limits[node.children[k - 1]])
    && limits[i] == if node.children == [] then i + 1 else limits[node.children[|node.children| - 1]]
  }

  // Node i covers its children, which are in order and apart; `reach` is how far a node extends so far.
  ghost predicate Covers(node: Node, i: nat, starts: seq<nat>, reach: seq<nat>) {
    && i < |starts| == |reach| && node.start <= reach[i]
    && (forall k :: 0 <= k < |node.children| ==>
          node.children[k] < |starts| && node.start <= starts[node.children[k]] && reach[node.children[k]] <= reach[i])
    && (forall k :: 0 < k < |node.children| ==> reach[node.children[k - 1]] <= starts[node.children[k]])
  }

  function Starts(nodes: seq<Node>): seq<nat> {
    seq(|nodes|, i requires 0 <= i < |nodes| => nodes[i].start)
  }

  ghost predicate AllContiguous(nodes: seq<Node>, limits: seq<nat>) {
    |limits| == |nodes| && forall i :: 0 <= i < |nodes| ==> Contiguous(nodes[i], i, limits)
  }

  ghost predicate AllCover(nodes: seq<Node>, reach: seq<nat>) {
    |reach| == |nodes| && forall i :: 0 <= i < |nodes| ==> Covers(nodes[i], i, Starts(nodes), reach)
  }

  // Open nodes extend as far as there are nodes and as the text has been read; closed ones have their end.
  ghost predicate Extents(nodes: seq<Node>, stack: seq<nat>, limits: seq<nat>, reach: seq<nat>, pos: nat) {
    && |limits| == |reach| == |nodes| && (forall i :: 0 <= i < |nodes| ==> reach[i] <= pos)
    && (forall i :: 0 <= i < |nodes| ==>
          if i in stack then limits[i] == |nodes| && reach[i] == pos else nodes[i].end == reach[i])
  }

  ghost predicate TreeSoFar(nodes: seq<Node>, stack: seq<nat>, limits: seq<nat>, reach: seq<nat>, pos: nat) {
    && StackIsLastPath(nodes, stack) && AllContiguous(nodes, limits) && AllCover(nodes, reach)
    && Extents(nodes, stack, limits, reach, pos)
  }

  // Raising how far all open nodes extend keeps what a node covers.
  lemma CoversWhenRaised(node: Node, i: nat, starts: seq<nat>, reach: seq<nat>, stack: seq<nat>, pos: nat, next: nat)
    requires Covers(node, i, starts, reach) && stack != [] && OpenChildren(node, i, stack) && pos <= next
    requires forall j :: 0 <= j < |reach| ==> reach[j] <= pos
    ensures Covers(node, i, starts, Raise(reach, stack, next))
  {
  }

  // The text has been read further.
  lemma ReadOn(nodes: seq<Node>, stack: seq<nat>, limits: seq<nat>, reach: seq<nat>, pos: nat, next: nat)
    requires TreeSoFar(nodes, stack, limits, reach, pos) && pos <= next
    ensures TreeSoFar(nodes, stack, limits, Raise(reach, stack, next), next)
  {
    forall i | 0 <= i < |nodes| ensures Covers(nodes[i], i, Starts(nodes), Raise(reach, stack, next)) {
      assert Covers(nodes[i], i, Starts(nodes), reach) && OpenChildren(nodes[i], i, stack);
      CoversWhenRaised(nodes[i], i, Starts(nodes), reach, stack, pos, next);
    }
  }

  // ---------------------------------------------------------------- adding a node

  function WithChild(node: Node, child: nat): Node {
    node.(children := node.children + [child])
  }

  // A node is appended to the node on top of the stack.
  function WithNode(nodes: seq<Node>, parent: nat, node: Node): seq<Node>
    requires parent < |nodes|
  {
    nodes[parent := WithChild(nodes[parent], |nodes|)] + [node]
  }

  function RaisedLimits(limits: seq<nat>, stack: seq<nat>): seq<nat> {
    Raise(limits, stack, |limits| + 1) + [|limits| + 1]
  }

  // A node other than the parent.
  lemma OtherContiguous(node: Node, i: nat, limits: seq<nat>, stack: seq<nat>)
    requires Contiguous(node, i, limits) && stack != [] && OpenChildren(node, i, stack) && i != stack[|stack| - 1]
    ensures Contiguous(node, i, RaisedLimits(limits, stack))
  {
    var raised := RaisedLimits(limits, stack);
    forall k | 0 < k < |node.children| ensures node.children[k] == raised[node.children[k - 1]] {
      assert node.children[k - 1] !in stack;
    }
  }

  lemma ParentContiguous(node: Node, limits: seq<nat>, stack: seq<nat>)
    requires stack != []
    requires var top := stack[|stack| - 1];
             Contiguous(node, top, limits) && OpenChildren(node, top, stack) && limits[top] == |limits|
    ensures Contiguous(WithChild(node, |limits|), stack[|stack| - 1], RaisedLimits(limits, stack))
  {
    var raised, children := RaisedLimits(limits, stack), node.children + [|limits|];
    forall k | 0 < k < |children| ensures children[k] == raised[children[k - 1]] {
      assert node.children[k - 1] !in stack;
    }
  }

  lemma ParentCovers(node: Node, starts: seq<nat>, reach: seq<nat>, stack: seq<nat>, pos: nat, start: nat, end: nat)
    requires stack != [] && stack[|stack| - 1] < |reach| && reach[stack[|stack| - 1]] == pos <= start <= end
    requires Covers(node, stack[|stack| - 1], starts, reach) && OpenChildren(node, stack[|stack| - 1], stack)
    requires forall j :: 0 <= j < |reach| ==> reach[j] <= pos
    ensures Covers(WithChild(node, |starts|), stack[|stack| - 1], starts + [start], Raise(reach, stack, end) + [end])
  {
    var raised, children := Raise(reach, stack, end) + [end], node.children + [|starts|];
    forall k | 0 < k < |children| ensures raised[children[k - 1]] <= (starts + [start])[children[k]] {
      assert node.children[k - 1] !in stack;
    }
  }

  // The stack after a node has been added.
  function Pushed(stack: seq<nat>, n: nat, pushed: bool): seq<nat> {
    if pushed then stack + [n] else stack
  }

  lemma ChildIsNew(node: Node, i: nat, limits: seq<nat>)
    requires Contiguous(node, i, limits)
    ensures |limits| !in node.children
  {
  }

  lemma ParentOpenChildren(node: Node, stack: seq<nat>, n: nat, pushed: bool)
    requires stack != [] && OpenChildren(node, stack[|stack| - 1], stack) && n !in node.children
    requires n !in stack
    ensures OpenChildren(WithChild(node, n), stack[|stack| - 1], Pushed(stack, n, pushed))
  {
    var children := WithChild(node, n).children;
    forall k | 0 <= k < |children| - 1 ensures children[k] !in Pushed(stack, n, pushed) {
      assert children[k] == node.children[k];
      assert children[k] in node.children;
    }
  }

  lemma OtherOpenChildren(node: Node, i: nat, stack: seq<nat>, n: nat, pushed: bool)
    requires stack != [] && OpenChildren(node, i, stack) && n !in node.children && i != stack[|stack| - 1] && i != n
    ensures OpenChildren(node, i, Pushed(stack, n, pushed))
  {
    forall k | 0 <= k < |node.children| ensures node.children[k] != n { assert node.children[k] in node.children; }
  }

  lemma AddKeepsStack(nodes: seq<Node>, stack: seq<nat>, limits: seq<nat>, node: Node, pushed: bool)
    requires StackIsLastPath(nodes, stack) && AllContiguous(nodes, limits) && node.children == []
    ensures StackIsLastPath(WithNode(nodes, stack[|stack| - 1], node), Pushed(stack, |nodes|, pushed))
  {
    var n, top := |nodes|, stack[|stack| - 1];
    var after, longer := WithNode(nodes, top, node), Pushed(stack, n, pushed);
    assert forall k :: 0 <= k < |stack| ==> stack[k] < n;
    forall i | 0 <= i < |after| ensures OpenChildren(after[i], i, longer) {
      if i < n {
        assert OpenChildren(nodes[i], i, stack);
        ChildIsNew(nodes[i], i, limits);
        if i == top { ParentOpenChildren(nodes[i], stack, n, pushed); } else { OtherOpenChildren(nodes[i], i, stack, n, pushed); }
      }
    }
    forall a | 0 <= a < |longer| - 1 ensures LastChild(after[longer[a]]) == Some(longer[a + 1]) {
      if a < |stack| - 1 { assert stack[a] < stack[|stack| - 1]; }
    }
  }

  lemma AddKeepsContiguous(nodes: seq<Node>, stack: seq<nat>, limits: seq<nat>, node: Node)
    requires StackIsLastPath(nodes, stack) && AllContiguous(nodes, limits) && node.children == []
    requires limits[stack[|stack| - 1]] == |limits|
    ensures AllContiguous(WithNode(nodes, stack[|stack| - 1], node), RaisedLimits(limits, stack))
  {
    var top := stack[|stack| - 1];
    var after := WithNode(nodes, top, node);
    forall i | 0 <= i < |after| ensures Contiguous(after[i], i, RaisedLimits(limits, stack)) {
      if i < |nodes| {
        assert Contiguous(nodes[i], i, limits) && OpenChildren(nodes[i], i, stack);
        if i == top { ParentContiguous(nodes[i], limits, stack); } else { OtherContiguous(nodes[i], i, limits, stack); }
      }
    }
  }

  lemma CoversMore(node: Node, i: nat, starts: seq<nat>, reach: seq<nat>, start: nat, end: nat)
    requires Covers(node, i, starts, reach)
    ensures Covers(node, i, starts + [start], reach + [end])
  {
  }

  lemma AddKeepsCover(nodes: seq<Node>, stack: seq<nat>, reach: seq<nat>, pos: nat, node: Node)
    requires StackIsLastPath(nodes, stack) && AllCover(nodes, reach) && node.children == [] && pos == node.start <= node.end
    requires reach[stack[|stack| - 1]] == pos && forall i :: 0 <= i < |reach| ==> reach[i] <= pos
    ensures AllCover(WithNode(nodes, stack[|stack| - 1], node), Raise(reach, stack, node.end) + [node.end])
  {
    var top := stack[|stack| - 1];
    var after, starts := WithNode(nodes, top, node), Starts(nodes);
    assert Starts(after) == starts + [node.start];
    forall i | 0 <= i < |after| ensures Covers(after[i], i, starts + [node.start], Raise(reach, stack, node.end) + [node.end]) {
      if i < |nodes| {
        assert Covers(nodes[i], i, starts, reach) && OpenChildren(nodes[i], i, stack);
        if i == top {
          ParentCovers(nodes[i], starts, reach, stack, pos, node.start, node.end);
        } else {
          CoversWhenRaised(nodes[i], i, starts, reach, stack, pos, node.end);
          CoversMore(nodes[i], i, starts, Raise(reach, stack, node.end), node.start, node.end);
        }
      }
    }
  }

  lemma AddKeepsExtents(
    nodes: seq<Node>, stack: seq<nat>, limits: seq<nat>, reach: seq<nat>, pos: nat, node: Node, pushed: bool)
    requires Extents(nodes, stack, limits, reach, pos) && stack != [] && stack[|stack| - 1] < |nodes| && pos <= node.end
    requires stack[|stack| - 1] in stack && |nodes| !in stack
    ensures Extents(WithNode(nodes, stack[|stack| - 1], node), Pushed(stack, |nodes|, pushed),
                    RaisedLimits(limits, stack), Raise(reach, stack, node.end) + [node.end], node.end)
  {
    var longer := Pushed(stack, |nodes|, pushed);
    assert forall i :: i in longer <==> i in stack || (pushed && i == |nodes|);
  }

  lemma AddKeeps(nodes: seq<Node>, stack: seq<nat>, limits: seq<nat>, reach: seq<nat>, pos: nat, node: Node, pushed: bool)
    requires TreeSoFar(nodes, stack, limits, reach, pos) && node.children == [] && pos == node.start <= node.end
    ensures TreeSoFar(WithNode(nodes, stack[|stack| - 1], node), Pushed(stack, |nodes|, pushed),
                      RaisedLimits(limits, stack), Raise(reach, stack, node.end) + [node.end], node.end)
  {
    var top := stack[|stack| - 1];
    assert top in stack && |nodes| !in stack;
    AddKeepsStack(nodes, stack, limits, node, pushed);
    AddKeepsExtents(nodes, stack, limits, reach, pos, node, pushed);
    AddKeepsContiguous(nodes, stack, limits, node);
    AddKeepsCover(nodes, stack, reach, pos, node);
  }

  // ---------------------------------------------------------------- closing a node

  function Ended(nodes: seq<Node>, i: nat, end: nat): seq<Node>
    requires i < |nodes|
  {
    nodes[i := nodes[i].(end := end)]
  }

  lemma PopKeepsStack(nodes: seq<Node>, stack: seq<nat>, end: nat)
    requires StackIsLastPath(nodes, stack) && |stack| > 1
    ensures StackIsLastPath(Ended(nodes, stack[|stack| - 1], end), stack[..|stack| - 1])
  {
    var top, shorter := stack[|stack| - 1], stack[..|stack| - 1];
    var after, below := Ended(nodes, top, end), shorter[|shorter| - 1];
    assert top !in shorter;
    forall i | 0 <= i < |after| ensures OpenChildren(after[i], i, shorter) {
      assert OpenChildren(nodes[i], i, stack);
      assert after[i].children == nodes[i].children;
      if i in shorter && i != below {
        var a :| 0 <= a < |shorter| && shorter[a] == i;
        assert a < |shorter| - 1 && LastChild(nodes[stack[a]]) == Some(stack[a + 1]);
        assert shorter[a + 1] in shorter;
      }
    }
  }

  lemma PopKeepsExtents(nodes: seq<Node>, stack: seq<nat>, limits: seq<nat>, reach: seq<nat>, pos: nat)
    requires Extents(nodes, stack, limits, reach, pos) && |stack| > 1 && stack[|stack| - 1] < |nodes|
    ensures Extents(Ended(nodes, stack[|stack| - 1], pos), stack[..|stack| - 1], limits, reach, pos)
  {
    var top, shorter := stack[|stack| - 1], stack[..|stack| - 1];
    assert top in stack && forall i :: i in stack <==> i in shorter || i == top;
  }

  lemma PopKeepsCover(nodes: seq<Node>, reach: seq<nat>, i: nat, end: nat)
    requires AllCover(nodes, reach) && i < |nodes|
    ensures AllCover(Ended(nodes, i, end), reach)
  {
    var after := Ended(nodes, i, end);
    assert Starts(after) == Starts(nodes);
    forall k | 0 <= k < |nodes| ensures Covers(after[k], k, Starts(after), reach) {
      assert Covers(nodes[k], k, Starts(nodes), reach);
    }
  }

  lemma PopKeepsContiguous(nodes: seq<Node>, limits: seq<nat>, i: nat, end: nat)
    requires AllContiguous(nodes, limits) && i < |nodes|
    ensures AllContiguous(Ended(nodes, i, end), limits)
  {
    forall k | 0 <= k < |nodes| ensures Contiguous(Ended(nodes, i, end)[k], k, limits) {
      assert Contiguous(nodes[k], k, limits);
    }
  }

  lemma PopKeeps(nodes: seq<Node>, stack: seq<nat>, limits: seq<nat>, reach: seq<nat>, pos: nat)
    requires TreeSoFar(nodes, stack, limits, reach, pos) && |stack| > 1
    ensures TreeSoFar(Ended(nodes, stack[|stack| - 1], pos), stack[..|stack| - 1], limits, reach, pos)
  {
    var top := stack[|stack| - 1];
    PopKeepsStack(nodes, stack, pos);
    PopKeepsCover(nodes, reach, top, pos);
    PopKeepsContiguous(nodes, limits, top, pos);
    PopKeepsExtents(nodes, stack, limits, reach, pos);
  }

  // ---------------------------------------------------------------- parsing

  // What closing a tag leaves on the stack: what is below the topmost element of that name, or the root.
  function AfterClosing(nodes: seq<Node>, stack: seq<nat>, tag: Str): (rest: seq<nat>)
    requires forall k :: 0 <= k < |stack| ==> stack[k] < |nodes|
    ensures |rest| <= |stack| && rest == stack[..|rest|]
    decreases |stack|
  {
    if |stack| <= 1 then stack
    else if nodes[stack[|stack| - 1]].tag == Some(tag) then stack[..|stack| - 1]
    else AfterClosing(nodes, stack[..|stack| - 1], tag)
  }

  /** A closing tag that no open element has closes every element. */
  lemma {:induction false} StrayClosingTagClosesAll(nodes: seq<Node>, stack: seq<nat>, tag: Str)
    requires stack != [] && (forall k :: 0 <= k < |stack| ==> stack[k] < |nodes|)
    requires forall k :: 0 < k < |stack| ==> nodes[stack[k]].tag != Some(tag)
    ensures AfterClosing(nodes, stack, tag) == stack[..1]
    decreases |stack|
  {
    if |stack| > 1 {
      var front := stack[..|stack| - 1];
      forall k | 0 < k < |front| ensures nodes[front[k]].tag != Some(tag) { assert front[k] == stack[k]; }
      StrayClosingTagClosesAll(nodes, front, tag);
    } else {
      assert stack[..1] == stack;
    }
  }

  /** A closing tag takes off the stack all elements down to the topmost one of its name, and none below. */
  lemma {:induction false} ClosingTagClosesToItsElement(nodes: seq<Node>, stack: seq<nat>, tag: Str, k: nat)
    requires 0 < k < |stack| && (forall j :: 0 <= j < |stack| ==> stack[j] < |nodes|) && nodes[stack[k]].tag == Some(tag)
    requires forall j :: k < j < |stack| ==> nodes[stack[j]].tag != Some(tag)
    ensures AfterClosing(nodes, stack, tag) == stack[..k]
    decreases |stack|
  {
    if k < |stack| - 1 {
      var front := stack[..|stack| - 1];
      ClosingTagClosesToItsElement(nodes, front, tag, k);
      assert front[..k] == stack[..k];
    }
  }

  // The elements that a closing tag takes off the stack end with it.
  function ClosedBy(nodes: seq<Node>, stack: seq<nat>, rest: seq<nat>, end: nat): seq<Node> {
    seq(|nodes|, i requires 0 <= i < |nodes| =>
      if i in stack && i !in rest then nodes[i].(end := end) else nodes[i])
  }

  ghost predicate SameBut(nodes: seq<Node>, after: seq<Node>) {
    |after| == |nodes| && forall i :: 0 <= i < |nodes| ==> after[i] == nodes[i].(end := after[i].end)
  }

  lemma SameButEnded(nodes: seq<Node>, after: seq<Node>, i: nat, end: nat)
    requires SameBut(nodes, after) && i < |nodes|
    ensures SameBut(nodes, Ended(after, i, end))
  {
  }

  // The top of the stack is closed.
  lemma PopTop(
    nodes: seq<Node>, after: seq<Node>, stack: seq<nat>, limits: seq<nat>, reach: seq<nat>, end: nat)
    requires TreeSoFar(after, stack, limits, reach, end) && SameBut(nodes, after) && |stack| > 1
    ensures var top := stack[|stack| - 1];
            && top < |nodes| && TreeSoFar(Ended(after, top, end), stack[..|stack| - 1], limits, reach, end)
            && SameBut(nodes, Ended(after, top, end))
    ensures forall k :: 0 <= k < |stack| ==> stack[k] < |nodes|
  {
    PopKeeps(after, stack, limits, reach, end);
    SameButEnded(nodes, after, stack[|stack| - 1], end);
  }

  lemma OneMoreClosed(nodes: seq<Node>, stack: seq<nat>, rest: seq<nat>, end: nat)
    requires rest != [] && rest <= stack && (forall k :: 0 <= k < |rest| ==> rest[k] < |nodes|)
    requires forall a, b :: 0 <= a < b < |rest| ==> rest[a] < rest[b]
    ensures ClosedBy(nodes, stack, rest[..|rest| - 1], end) == Ended(ClosedBy(nodes, stack, rest, end), rest[|rest| - 1], end)
  {
    var top, shorter := rest[|rest| - 1], rest[..|rest| - 1];
    assert rest[|rest| - 1] in stack && top !in shorter;
    assert forall i :: i in rest <==> i in shorter || i == top;
  }

  // Some elements have been closed; the closing tag will leave the same stack as from the start.
  ghost predicate ClosedSoFar(nodes: seq<Node>, stack: seq<nat>, after: seq<Node>, rest: seq<nat>, tag: Str, end: nat, closed: bool) {
    && rest <= stack && (forall k :: 0 <= k < |stack| ==> stack[k] < |nodes|)
    && after == ClosedBy(nodes, stack, rest, end)
    && AfterClosing(nodes, stack, tag) == if closed then rest else AfterClosing(nodes, rest, tag)
  }

  lemma OneMoreClosing(nodes: seq<Node>, stack: seq<nat>, after: seq<Node>, rest: seq<nat>, tag: Str, end: nat)
    requires ClosedSoFar(nodes, stack, after, rest, tag, end, false) && |rest| > 1
    requires forall a, b :: 0 <= a < b < |rest| ==> rest[a] < rest[b]
    ensures var top := rest[|rest| - 1];
            && top < |after| == |nodes|
            && ClosedSoFar(nodes, stack, Ended(after, top, end), rest[..|rest| - 1], tag, end, nodes[top].tag == Some(tag))
  {
    forall k | 0 <= k < |rest| ensures rest[k] < |nodes| { assert rest[k] == stack[k]; }
    OneMoreClosed(nodes, stack, rest, end);
  }

  method CloseTag(nodes: seq<Node>, stack: seq<nat>, tag: Str, end: nat, ghost limits: seq<nat>, ghost reach: seq<nat>)
    returns (nodes': seq<Node>, stack': seq<nat>)
    requires TreeSoFar(nodes, stack, limits, reach, end)
    ensures TreeSoFar(nodes', stack', limits, reach, end) && SameBut(nodes, nodes')
    ensures stack' == AfterClosing(nodes, stack, tag) && nodes' == ClosedBy(nodes, stack, stack', end)
  {
    nodes', stack' := nodes, stack;
    var closed := false;
    assert nodes == ClosedBy(nodes, stack, stack, end);
    while |stack'| > 1 && !closed
      invariant TreeSoFar(nodes', stack', limits, reach, end) && SameBut(nodes, nodes')
      invariant ClosedSoFar(nodes, stack, nodes', stack', tag, end, closed)
      decreases |stack'|
    {
      var candidate := stack'[|stack'| - 1];
      OneMoreClosing(nodes, stack, nodes', stack', tag, end);
      PopTop(nodes, nodes', stack', limits, reach, end);
      nodes', stack' := Ended(nodes', candidate, end), stack'[..|stack'| - 1];
      closed := nodes[candidate].tag == Some(tag);
    }
  }

  function NodeFor(t: Token): Node {
    Node(if t.meaning.Opening? then Some(t.meaning.tag) else None, t.start, t.end, [])
  }

  // The nodes but the root are those of the tokens, in order.
  ghost predicate NodesOf(nodes: seq<Node>, tokens: seq<Token>) {
    && |nodes| == |tokens| + 1
    && forall k :: 0 <= k < |tokens| ==> nodes[k + 1].start == tokens[k].start && nodes[k + 1].tag == NodeFor(tokens[k]).tag
  }

  // The tokens read and those to come make up the whole.
  ghost predicate TokensSoFar(content: Str, pos: nat, done: seq<Token>) {
    pos <= |content| && done + NodeTokens(Tokens(content, pos)) == NodeTokens(Tokens(content, 0))
  }

  lemma OneMoreToken(content: Str, pos: nat, done: seq<Token>)
    requires TokensSoFar(content, pos, done) && pos < |content|
    ensures var t := TokenAt(content, pos);
            TokensSoFar(content, t.end, done + if MakesNode(t) then [t] else [])
  {
    var t, rest := TokenAt(content, pos), Tokens(content, TokenEnd(content, pos));
    assert Tokens(content, pos)[1..] == rest;
    Associates(done, if MakesNode(t) then [t] else [], NodeTokens(rest));
  }

  lemma NodesOfAppend(nodes: seq<Node>, done: seq<Token>, parent: nat, t: Token)
    requires NodesOf(nodes, done) && parent < |nodes|
    ensures NodesOf(WithNode(nodes, parent, NodeFor(t)), done + [t])
  {
  }

  lemma NodesOfSame(nodes: seq<Node>, after: seq<Node>, done: seq<Token>)
    requires NodesOf(nodes, done) && SameBut(nodes, after)
    ensures NodesOf(after, done)
  {
    forall k | 0 <= k < |done| ensures after[k + 1].start == done[k].start && after[k + 1].tag == NodeFor(done[k]).tag {
      assert after[k + 1] == nodes[k + 1].(end := after[k + 1].end);
    }
  }

  // The nodes made so far, and the indices of the open ones.
  datatype Parse = Parse(nodes: seq<Node>, stack: seq<nat>)

  predicate Valid(p: Parse) {
    p.stack != [] && forall k :: 0 <= k < |p.stack| ==> p.stack[k] < |p.nodes|
  }

  // What one token does: a node goes to the innermost open element, a closing tag takes elements off.
  function Step(p: Parse, t: Token): Parse
    requires Valid(p)
  {
    match t.meaning
    case Skipped => p
    case PlainText => p.(nodes := WithNode(p.nodes, p.stack[|p.stack| - 1], NodeFor(t)))
    case Opening(_, pushed) =>
      Parse(WithNode(p.nodes, p.stack[|p.stack| - 1], NodeFor(t)), Pushed(p.stack, |p.nodes|, pushed))
    case Closing(tag) =>
      var rest := AfterClosing(p.nodes, p.stack, tag);
      Parse(ClosedBy(p.nodes, p.stack, rest, t.end), rest)
  }

  lemma {:induction false} ClosingLeavesRoot(nodes: seq<Node>, stack: seq<nat>, tag: Str)
    requires Valid(Parse(nodes, stack))
    ensures AfterClosing(nodes, stack, tag) != []
    decreases |stack|
  {
    if |stack| > 1 { ClosingLeavesRoot(nodes, stack[..|stack| - 1], tag); }
  }

  lemma StepValid(p: Parse, t: Token)
    requires Valid(p)
    ensures Valid(Step(p, t))
  {
    if t.meaning.Closing? {
      ClosingLeavesRoot(p.nodes, p.stack, t.meaning.tag);
      var rest := AfterClosing(p.nodes, p.stack, t.meaning.tag);
      forall k | 0 <= k < |rest| ensures rest[k] < |p.nodes| { assert rest[k] == p.stack[k]; }
    }
  }

  // Reading a list of tokens.
  function Parsed(p: Parse, tokens: seq<Token>): Parse
    requires Valid(p)
    decreases |tokens|
  {
    if tokens == [] then p
    else
      StepValid(p, tokens[0]);
      Parsed(Step(p, tokens[0]), tokens[1..])
  }

  // At the end of the input the open nodes end.
  function Completed(p: Parse, end: nat): seq<Node> {
    ClosedBy(p.nodes, p.stack, [], end)
  }

  // Text or an opening tag.
  method AddNode(t: Token, nodes: seq<Node>, stack: seq<nat>, ghost limits: seq<nat>, ghost reach: seq<nat>)
    returns (nodes': seq<Node>, stack': seq<nat>, ghost limits': seq<nat>, ghost reach': seq<nat>)
    requires TreeSoFar(nodes, stack, limits, reach, t.start) && t.start <= t.end && MakesNode(t)
    ensures TreeSoFar(nodes', stack', limits', reach', t.end)
    ensures nodes' == WithNode(nodes, stack[|stack| - 1], NodeFor(t))
    ensures stack' == Pushed(stack, |nodes|, t.meaning.Opening? && t.meaning.pushed)
  {
    var pushed := t.meaning.Opening? && t.meaning.pushed;
    AddKeeps(nodes, stack, limits, reach, t.start, NodeFor(t), pushed);
    limits', reach' := RaisedLimits(limits, stack), Raise(reach, stack, t.end) + [t.end];
    nodes' := WithNode(nodes, stack[|stack| - 1], NodeFor(t));
    stack' := Pushed(stack, |nodes|, pushed);
  }

  // One token: the tree and stack after it.
  method ReadToken(t: Token, nodes: seq<Node>, stack: seq<nat>, ghost limits: seq<nat>, ghost reach: seq<nat>)
    returns (nodes': seq<Node>, stack': seq<nat>, ghost limits': seq<nat>, ghost reach': seq<nat>)
    requires TreeSoFar(nodes, stack, limits, reach, t.start) && t.start <= t.end
    ensures TreeSoFar(nodes', stack', limits', reach', t.end)
    ensures Parse(nodes', stack') == Step(Parse(nodes, stack), t)
    ensures if MakesNode(t) then nodes' == WithNode(nodes, stack[|stack| - 1], NodeFor(t)) else SameBut(nodes, nodes')
  {
    if MakesNode(t) {
      nodes', stack', limits', reach' := AddNode(t, nodes, stack, limits, reach);
    } else {
      ReadOn(nodes, stack, limits, reach, t.start, t.end);
      nodes', stack', limits', reach' := nodes, stack, limits, Raise(reach, stack, t.end);
      if t.meaning.Closing? { nodes', stack' := CloseTag(nodes, stack, t.meaning.tag, t.end, limits, reach'); }
    }
  }

  // ---------------------------------------------------------------- the finished tree

  // Children lie inside their parent, in order and apart.
  ghost predicate Laminar(nodes: seq<Node>) {
    forall i :: 0 <= i < |nodes| ==> Covers(nodes[i], i, Starts(nodes), Ends(nodes))
  }

  function Ends(nodes: seq<Node>): seq<nat> {
    seq(|nodes|, i requires 0 <= i < |nodes| => nodes[i].end)
  }

  predicate ChildrenLater(nodes: seq<Node>) {
    forall i, k :: 0 <= i < |nodes| && 0 <= k < |nodes[i].children| ==> i < nodes[i].children[k] < |nodes|
  }

  function Preorder(nodes: seq<Node>, i: nat): seq<nat>
    requires ChildrenLater(nodes) && i < |nodes|
    decreases |nodes| - i, 0
  {
    [i] + PreorderAll(nodes, i, |nodes[i].children|)
  }

  // The first n children of node i.
  function PreorderAll(nodes: seq<Node>, i: nat, n: nat): seq<nat>
    requires ChildrenLater(nodes) && i < |nodes| && n <= |nodes[i].children|
    decreases |nodes| - i - 1, n + 1
  {
    if n == 0 then [] else PreorderAll(nodes, i, n - 1) + Preorder(nodes, nodes[i].children[n - 1])
  }

  lemma {:induction false} PreorderIsRange(nodes: seq<Node>, limits: seq<nat>, i: nat)
    requires ChildrenLater(nodes) && AllContiguous(nodes, limits) && i < |nodes|
    ensures i < limits[i] <= |nodes| && Preorder(nodes, i) == Range(i, limits[i])
    decreases |nodes| - i, 0
  {
    assert Contiguous(nodes[i], i, limits);
    ChildrenRange(nodes, limits, i, |nodes[i].children|);
    assert [i] == Range(i, i + 1);
    RangeConcat(i, i + 1, limits[i]);
  }

  // Where the n-th child starts: after the one before it.
  function ChildStart(node: Node, i: nat, limits: seq<nat>, n: nat): nat
    requires Contiguous(node, i, limits) && n <= |node.children|
  {
    if n == 0 then i + 1 else limits[node.children[n - 1]]
  }

  lemma ChildStartsThere(node: Node, i: nat, limits: seq<nat>, n: nat)
    requires Contiguous(node, i, limits) && n < |node.children|
    ensures node.children[n] == ChildStart(node, i, limits, n)
  {
  }

  lemma OneMoreChild(nodes: seq<Node>, i: nat, n: nat, from: nat, child: nat, to: nat)
    requires ChildrenLater(nodes) && i < |nodes| && n < |nodes[i].children| && nodes[i].children[n] == child
    requires from <= child <= to && PreorderAll(nodes, i, n) == Range(from, child) && Preorder(nodes, child) == Range(child, to)
    ensures PreorderAll(nodes, i, n + 1) == Range(from, to)
  {
    RangeConcat(from, child, to);
  }

  lemma {:induction false} ChildrenRange(nodes: seq<Node>, limits: seq<nat>, i: nat, n: nat)
    requires ChildrenLater(nodes) && AllContiguous(nodes, limits) && i < |nodes| && n <= |nodes[i].children|
    ensures Contiguous(nodes[i], i, limits) && i + 1 <= ChildStart(nodes[i], i, limits, n)
    ensures PreorderAll(nodes, i, n) == Range(i + 1, ChildStart(nodes[i], i, limits, n))
    decreases |nodes| - i - 1, n + 1
  {
    assert Contiguous(nodes[i], i, limits);
    if n > 0 {
      var child := nodes[i].children[n - 1];
      ChildrenRange(nodes, limits, i, n - 1);
      ChildStartsThere(nodes[i], i, limits, n - 1);
      PreorderIsRange(nodes, limits, child);
      OneMoreChild(nodes, i, n - 1, i + 1, child, limits[child]);
    }
  }

  lemma FinishedCovers(nodes: seq<Node>, stack: seq<nat>, limits: seq<nat>, reach: seq<nat>, pos: nat, after: seq<Node>)
    requires Extents(nodes, stack, limits, reach, pos) && AllCover(nodes, reach) && SameBut(nodes, after)
    requires forall i :: 0 <= i < |nodes| ==> after[i].end == if i in stack then pos else nodes[i].end
    ensures Laminar(after)
  {
    assert Ends(after) == reach;
    assert Starts(after) == Starts(nodes);
    forall i | 0 <= i < |after| ensures Covers(after[i], i, Starts(after), Ends(after)) {
      assert Covers(nodes[i], i, Starts(nodes), reach);
    }
  }

  lemma FinishedPreorder(nodes: seq<Node>, limits: seq<nat>, after: seq<Node>)
    requires AllContiguous(nodes, limits) && SameBut(nodes, after) && nodes != [] && limits[0] == |nodes|
    ensures ChildrenLater(after) && Preorder(after, 0) == Range(0, |after|)
  {
    forall i | 0 <= i < |after| ensures Contiguous(after[i], i, limits) {
      assert Contiguous(nodes[i], i, limits);
    }
    PreorderIsRange(after, limits, 0);
  }

  // At the end of the input every open node is closed.
  method EndOpenNodes(nodes: seq<Node>, stack: seq<nat>, end: nat) returns (after: seq<Node>)
    ensures SameBut(nodes, after) && after == Completed(Parse(nodes, stack), end)
    ensures forall i :: 0 <= i < |nodes| ==> after[i].end == if i in stack then end else nodes[i].end
  {
    after := [];
    for i := 0 to |nodes|
      invariant |after| == i
      invariant forall k :: 0 <= k < i ==> after[k] == nodes[k].(end := if k in stack then end else nodes[k].end)
    {
      after := after + [if i in stack then nodes[i].(end := end) else nodes[i]];
    }
  }

  const ROOT := Node(None, 0, 0, [])

  lemma RootAlone()
    ensures TreeSoFar([ROOT], [0], [1], [0], 0) && NodesOf([ROOT], []) && Valid(Parse([ROOT], [0]))
  {
    assert Contiguous(ROOT, 0, [1]) && Covers(ROOT, 0, Starts([ROOT]), [0]);
  }

  function Tree(content: Str): seq<Node> {
    Completed(Parsed(Parse([ROOT], [0]), Tokens(content, 0)), |content|)
  }

  // Parsing the rest from here gives the whole.
  ghost predicate ParsedSoFar(content: Str, pos: nat, p: Parse) {
    pos <= |content| && Valid(p) && Parsed(p, Tokens(content, pos)) == Parsed(Parse([ROOT], [0]), Tokens(content, 0))
  }

  lemma OneMoreParsed(content: Str, pos: nat, p: Parse)
    requires ParsedSoFar(content, pos, p) && pos < |content|
    ensures ParsedSoFar(content, TokenEnd(content, pos), Step(p, TokenAt(content, pos)))
  {
    StepValid(p, TokenAt(content, pos));
    assert Tokens(content, pos)[1..] == Tokens(content, TokenEnd(content, pos));
  }

  /** The tree of every input: read in preorder its nodes are the text and opening tags in source
      order, once each; every child's range lies inside its parent's, and siblings are in order and apart. */
  method ParseHtml(content: Str) returns (nodes: seq<Node>)
    ensures nodes == Tree(content) && NodesOf(nodes, NodeTokens(Tokens(content, 0)))
    ensures nodes[0].start == 0 && nodes[0].end == |content| && nodes[0].tag == None
    ensures Laminar(nodes) && ChildrenLater(nodes) && Preorder(nodes, 0) == Range(0, |nodes|)
  {
    var unfinished, stack := [ROOT], [0];
    ghost var limits, reach, done := [1], [0], [];
    var pos := 0;
    RootAlone();
    assert [] + NodeTokens(Tokens(content, 0)) == NodeTokens(Tokens(content, 0));
    while pos < |content|
      invariant TokensSoFar(content, pos, done) && TreeSoFar(unfinished, stack, limits, reach, pos) && NodesOf(unfinished, done)
      invariant unfinished[0].start == 0 && unfinished[0].tag == None && ParsedSoFar(content, pos, Parse(unfinished, stack))
      decreases |content| - pos
    {
      var t, before := TokenAt(content, pos), unfinished;
      OneMoreToken(content, pos, done);
      OneMoreParsed(content, pos, Parse(unfinished, stack));
      ghost var top := stack[|stack| - 1];
      unfinished, stack, limits, reach := ReadToken(t, unfinished, stack, limits, reach);
      if MakesNode(t) {
        NodesOfAppend(before, done, top, t);
        done := done + [t];
      } else {
        NodesOfSame(before, unfinished, done);
        assert done + [] == done;
      }
      pos := t.end;
    }
    assert done + [] == done && stack[0] in stack;
    nodes := EndOpenNodes(unfinished, stack, |content|);
    NodesOfSame(unfinished, nodes, done);
    FinishedCovers(unfinished, stack, limits, reach, pos, nodes);
    FinishedPreorder(unfinished, limits, nodes);
  }
}
