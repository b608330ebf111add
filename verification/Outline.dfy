/**
 Headings and the two stacks that run over them: the heading path of crawler/ingestion/segment.ts
 and the outline of crawler/ingestion/documentation-map.ts.
 */
module Outline {
  import opened Prelude
  import opened Text

  datatype Heading = Heading(level: nat, text: Str, anchor: Str)

  // ---------------------------------------------------------------- the stack, as indices into the headings

  // An array used only through push, pop and at(-1); an entry is a heading's index and level.
  datatype Stack = Empty | Push(below: Stack, top: nat, level: nat) {
    predicate Has(j: nat) {
      Push? && (top == j || below.Has(j))
    }
  }

  // while (stack.length > 0 && stack.at(-1).level >= level) stack.pop()
  function PopTo(stack: Stack, level: nat): Stack {
    if stack.Empty? || stack.level < level then stack else PopTo(stack.below, level)
  }

  // The stack after the first n headings.
  function StackAt(headings: seq<Heading>, n: nat): Stack
    requires n <= |headings|
  {
    if n == 0 then Empty
    else Push(PopTo(StackAt(headings, n - 1), headings[n - 1].level), n - 1, headings[n - 1].level)
  }

  // ---------------------------------------------------------------- what the stack holds

  // Entries are headings before `bound`, indices and levels rising towards the top.
  predicate Rises(headings: seq<Heading>, stack: Stack, bound: nat) {
    stack.Push? ==>
      && stack.top < bound <= |headings| && stack.level == headings[stack.top].level
      && Rises(headings, stack.below, stack.top)
      && (stack.below.Push? ==> stack.below.level < stack.level)
  }

  lemma {:induction false} PopRises(headings: seq<Heading>, stack: Stack, bound: nat, level: nat)
    requires Rises(headings, stack, bound)
    ensures Rises(headings, PopTo(stack, level), bound)
    ensures PopTo(stack, level).Push? ==> PopTo(stack, level).level < level
  {
    if stack.Push? && stack.level >= level {
      PopRises(headings, stack.below, stack.top, level);
      RisesBelow(headings, PopTo(stack.below, level), stack.top, bound);
    }
  }

  lemma RisesBelow(headings: seq<Heading>, stack: Stack, bound: nat, bound': nat)
    requires Rises(headings, stack, bound) && bound <= bound' <= |headings|
    ensures Rises(headings, stack, bound')
  {
  }

  lemma {:induction false} StackRises(headings: seq<Heading>, n: nat)
    requires n <= |headings|
    ensures Rises(headings, StackAt(headings, n), n)
  {
    if n > 0 {
      StackRises(headings, n - 1);
      PopRises(headings, StackAt(headings, n - 1), n - 1, headings[n - 1].level);
    }
  }

  // Heading j is still open at heading k: everything after it, up to k, is deeper.
  predicate Encloses(headings: seq<Heading>, j: nat, k: nat) {
    j <= k < |headings| && forall i :: j < i <= k ==> headings[i].level > headings[j].level
  }

  lemma {:induction false} TopIsHighest(headings: seq<Heading>, stack: Stack, bound: nat, j: nat)
    requires Rises(headings, stack, bound) && stack.Has(j)
    ensures j <= stack.top < |headings| && headings[j].level <= stack.level
  {
    if stack.top != j { TopIsHighest(headings, stack.below, stack.top, j); }
  }

  lemma {:induction false} PopKeepsLower(headings: seq<Heading>, stack: Stack, bound: nat, level: nat, j: nat)
    requires Rises(headings, stack, bound) && j < |headings|
    ensures PopTo(stack, level).Has(j) <==> stack.Has(j) && headings[j].level < level
  {
    if stack.Push? {
      if stack.level >= level {
        PopKeepsLower(headings, stack.below, stack.top, level, j);
      } else if stack.Has(j) {
        TopIsHighest(headings, stack, bound, j);
      }
    }
  }

  /** After heading k the stack holds exactly the headings that enclose k. */
  lemma {:induction false} StackHoldsEnclosing(headings: seq<Heading>, k: nat, j: nat)
    requires k < |headings|
    ensures StackAt(headings, k + 1).Has(j) <==> Encloses(headings, j, k)
  {
    if j < k {
      StackHoldsEnclosing(headings, k - 1, j);
      StackRises(headings, k);
      PopKeepsLower(headings, StackAt(headings, k), k, headings[k].level, j);
    } else if StackAt(headings, k + 1).Has(j) {
      StackRises(headings, k + 1);
      TopIsHighest(headings, StackAt(headings, k + 1), k + 1, j);
    }
  }

  lemma {:induction false} SameMembersSameStack(headings: seq<Heading>, a: Stack, b: Stack, n: nat, m: nat)
    requires Rises(headings, a, n) && Rises(headings, b, m) && forall j :: a.Has(j) <==> b.Has(j)
    ensures a == b
  {
    if a.Push? { assert a.Has(a.top); }
    if b.Push? { assert b.Has(b.top); }
    if a.Push? {
      TopIsHighest(headings, b, m, a.top);
      TopIsHighest(headings, a, n, b.top);
      forall j ensures a.below.Has(j) <==> b.below.Has(j) {
        if a.below.Has(j) { TopIsHighest(headings, a.below, a.top, j); assert b.Has(j); }
        if b.below.Has(j) { TopIsHighest(headings, b.below, b.top, j); assert a.Has(j); }
      }
      SameMembersSameStack(headings, a.below, b.below, a.top, b.top);
    }
  }

  // ---------------------------------------------------------------- parents

  // The nearest earlier heading of a lower level.
  predicate IsParent(headings: seq<Heading>, i: nat, j: nat) {
    && i < j < |headings| && headings[i].level < headings[j].level
    && forall k :: i < k < j ==> headings[k].level >= headings[j].level
  }

  predicate IsRoot(headings: seq<Heading>, j: nat) {
    j < |headings| && forall k :: 0 <= k < j ==> headings[k].level >= headings[j].level
  }

  // From k on, the last lowest heading up to n encloses n.
  lemma {:induction false} SomeEnclosing(headings: seq<Heading>, k: nat, n: nat) returns (e: nat)
    requires k <= n < |headings|
    ensures k <= e && Encloses(headings, e, n) && headings[e].level <= headings[k].level
    decreases n - k
  {
    if Encloses(headings, k, n) {
      e := k;
    } else {
      var i :| k < i <= n && headings[i].level <= headings[k].level;
      e := SomeEnclosing(headings, i, n);
    }
  }

  // What heading j finds when it has popped the stack.
  function Popped(headings: seq<Heading>, j: nat): Stack
    requires j < |headings|
  {
    PopTo(StackAt(headings, j), headings[j].level)
  }

  lemma PoppedHas(headings: seq<Heading>, j: nat, i: nat)
    requires i < j < |headings|
    ensures Popped(headings, j).Has(i) <==> Encloses(headings, i, j - 1) && headings[i].level < headings[j].level
  {
    StackHoldsEnclosing(headings, j - 1, i);
    StackRises(headings, j);
    PopKeepsLower(headings, StackAt(headings, j), j, headings[j].level, i);
  }

  lemma PoppedRises(headings: seq<Heading>, j: nat)
    requires j < |headings|
    ensures Rises(headings, Popped(headings, j), j)
    ensures Popped(headings, j).Push? ==> Popped(headings, j).level < headings[j].level
  {
    StackRises(headings, j);
    PopRises(headings, StackAt(headings, j), j, headings[j].level);
  }

  // A heading above the popping level leaves a heading at or after it on the popped stack.
  lemma OpenAbove(headings: seq<Heading>, j: nat, k: nat)
    requires k < j < |headings| && headings[k].level < headings[j].level
    ensures Popped(headings, j).Push? && k <= Popped(headings, j).top
  {
    var e := SomeEnclosing(headings, k, j - 1);
    PoppedHas(headings, j, e);
    PoppedRises(headings, j);
    TopIsHighest(headings, Popped(headings, j), j, e);
  }

  // What heading j leaves on the stack encloses j's parent.
  lemma RestMembers(headings: seq<Heading>, j: nat, p: nat, i: nat)
    requires IsParent(headings, p, j) && i <= p
    ensures Popped(headings, j).Has(i) <==> Encloses(headings, i, p)
  {
    PoppedHas(headings, j, i);
    if Encloses(headings, i, p) { assert headings[i].level <= headings[p].level; }
  }

  lemma PoppedTopIsParent(headings: seq<Heading>, j: nat)
    requires j < |headings|
    ensures if Popped(headings, j).Empty? then IsRoot(headings, j) else IsParent(headings, Popped(headings, j).top, j)
  {
    PoppedRises(headings, j);
    forall k: nat | k < j && headings[k].level < headings[j].level
      ensures Popped(headings, j).Push? && k <= Popped(headings, j).top
    {
      OpenAbove(headings, j, k);
    }
  }

  /** What is left of the stack when heading j has popped it ends in the parent of j, and is the stack
      as the parent left it; nothing is left exactly when j is a root. */
  lemma PoppedStackEndsInParent(headings: seq<Heading>, j: nat)
    requires j < |headings|
    ensures var rest := Popped(headings, j);
            if rest.Empty? then IsRoot(headings, j)
            else IsParent(headings, rest.top, j) && rest == StackAt(headings, rest.top + 1)
  {
    var rest := Popped(headings, j);
    PoppedTopIsParent(headings, j);
    if rest.Push? {
      PoppedRises(headings, j);
      var p := rest.top;
      var parent := StackAt(headings, p + 1);
      StackRises(headings, p + 1);
      forall i: nat ensures rest.Has(i) <==> parent.Has(i) {
        StackHoldsEnclosing(headings, p, i);
        if i <= p { RestMembers(headings, j, p, i); }
        else if rest.Has(i) { TopIsHighest(headings, rest, j, i); }
      }
      SameMembersSameStack(headings, rest, parent, j, p + 1);
    }
  }

  lemma {:induction false} ParentIsUnique(headings: seq<Heading>, i: nat, i': nat, j: nat)
    requires IsParent(headings, i, j) && (IsParent(headings, i', j) || IsRoot(headings, j))
    ensures !IsRoot(headings, j) && i == i'
  {
    assert headings[i].level < headings[j].level;
  }

  // ---------------------------------------------------------------- the outline

  predicate Within(nodes: seq<nat>, lo: nat, hi: nat) {
    forall a :: 0 <= a < |nodes| ==> lo <= nodes[a] < hi
  }

  // The children of heading i among the first n headings, in order.
  function ChildrenOf(headings: seq<Heading>, i: nat, n: nat): (nodes: seq<nat>)
    requires n <= |headings|
    ensures Within(nodes, i + 1, n)
  {
    if n == 0 then []
    else ChildrenOf(headings, i, n - 1) + (if IsParent(headings, i, n - 1) then [n - 1] else [])
  }

  function RootsOf(headings: seq<Heading>, n: nat): seq<nat>
    requires n <= |headings|
  {
    if n == 0 then []
    else RootsOf(headings, n - 1) + (if IsRoot(headings, n - 1) then [n - 1] else [])
  }

  method Pop(stack: Stack, level: nat) returns (rest: Stack)
    ensures rest == PopTo(stack, level)
  {
    rest := stack;
    while rest.Push? && rest.level >= level
      invariant PopTo(rest, level) == PopTo(stack, level)
      decreases rest
    {
      rest := rest.below;
    }
  }

  // Nodes are named by the index of their heading: `children[i]` is the child list of the i-th node made.
  method BuildOutline(headings: seq<Heading>) returns (roots: seq<nat>, children: seq<seq<nat>>)
    ensures roots == RootsOf(headings, |headings|)
    ensures |children| == |headings|
    ensures forall i :: 0 <= i < |headings| ==> children[i] == ChildrenOf(headings, i, |headings|)
  {
    roots, children := [], [];
    var stack := Empty;
    for n := 0 to |headings|
      invariant stack == StackAt(headings, n)
      invariant roots == RootsOf(headings, n) && |children| == n
      invariant forall i :: 0 <= i < n ==> children[i] == ChildrenOf(headings, i, n)
    {
      stack := Pop(stack, headings[n].level);
      PoppedStackEndsInParent(headings, n);
      ghost var before' := children;
      if stack.Push? {
        children := children[stack.top := children[stack.top] + [n]];
      } else {
        roots := roots + [n];
      }
      children := children + [[]];
      ChildrenExtended(headings, n, before', children, stack);
      stack := Push(stack, n, headings[n].level);
    }
  }

  // Appending heading n to its parent's children, if it has one, makes the child lists of one more heading.
  lemma ChildrenExtended(headings: seq<Heading>, n: nat, before: seq<seq<nat>>, after: seq<seq<nat>>, rest: Stack)
    requires n < |headings| && |before| == n && |after| == n + 1 && after[n] == []
    requires forall i :: 0 <= i < n ==> before[i] == ChildrenOf(headings, i, n)
    requires if rest.Push? then IsParent(headings, rest.top, n) else IsRoot(headings, n)
    requires forall i :: 0 <= i < n ==> after[i] == if rest.Push? && i == rest.top then before[i] + [n] else before[i]
    ensures forall i :: 0 <= i < n + 1 ==> after[i] == ChildrenOf(headings, i, n + 1)
  {
    NoChildrenYet(headings, n, n + 1);
    forall i | 0 <= i < n ensures after[i] == ChildrenOf(headings, i, n + 1) {
      if IsParent(headings, i, n) {
        ParentIsUnique(headings, i, if rest.Push? then rest.top else i, n);
      }
    }
  }

  lemma {:induction false} NoChildrenYet(headings: seq<Heading>, i: nat, n: nat)
    requires n <= |headings| && n <= i + 1
    ensures ChildrenOf(headings, i, n) == []
  {
    if n > 0 { NoChildrenYet(headings, i, n - 1); }
  }

  // ---------------------------------------------------------------- the outline lists the headings in order

  lemma {:induction false} ChildrenInRange(headings: seq<Heading>, i: nat, n: nat)
    requires n <= |headings|
    ensures forall a :: 0 <= a < |ChildrenOf(headings, i, n)| ==> IsParent(headings, i, ChildrenOf(headings, i, n)[a])
  {
    if n > 0 { ChildrenInRange(headings, i, n - 1); }
  }

  lemma {:induction false} RootsInRange(headings: seq<Heading>, n: nat)
    requires n <= |headings|
    ensures forall a :: 0 <= a < |RootsOf(headings, n)| ==> IsRoot(headings, RootsOf(headings, n)[a])
  {
    if n > 0 { RootsInRange(headings, n - 1); }
  }

  function Preorder(headings: seq<Heading>, i: nat): seq<nat>
    requires i < |headings|
    decreases |headings| - i, 0, 0
  {
    [i] + PreorderAll(headings, i + 1, ChildrenOf(headings, i, |headings|))
  }

  function PreorderAll(headings: seq<Heading>, floor: nat, nodes: seq<nat>): seq<nat>
    requires floor <= |headings| && Within(nodes, floor, |headings|)
    decreases |headings| - floor, 1, |nodes|
  {
    if nodes == [] then []
    else PreorderAll(headings, floor, nodes[..|nodes| - 1]) + Preorder(headings, nodes[|nodes| - 1])
  }

  // j is no deeper than any heading from lo up to it.
  predicate LowestFrom(headings: seq<Heading>, lo: nat, j: nat) {
    lo <= j < |headings| && forall k :: lo <= k < j ==> headings[k].level >= headings[j].level
  }

  function Siblings(headings: seq<Heading>, lo: nat, hi: nat): seq<nat>
    requires lo <= hi <= |headings|
    decreases hi
  {
    if lo == hi then []
    else Siblings(headings, lo, hi - 1) + (if LowestFrom(headings, lo, hi - 1) then [hi - 1] else [])
  }

  lemma {:induction false} SiblingsInRange(headings: seq<Heading>, lo: nat, hi: nat)
    requires lo <= hi <= |headings|
    ensures Within(Siblings(headings, lo, hi), lo, hi)
    decreases hi
  {
    if lo < hi { SiblingsInRange(headings, lo, hi - 1); }
  }

  // Everything strictly inside the subtree of m is deeper, and `hi` is not.
  predicate SubtreeEnds(headings: seq<Heading>, m: nat, hi: nat) {
    && m < hi <= |headings| && (forall k :: m < k < hi ==> headings[k].level > headings[m].level)
    && (hi < |headings| ==> headings[hi].level <= headings[m].level)
  }

  lemma {:induction false} ChildrenAreSiblings(headings: seq<Heading>, m: nat, hi: nat, n: nat)
    requires SubtreeEnds(headings, m, hi) && m < n <= |headings|
    ensures ChildrenOf(headings, m, n) == Siblings(headings, m + 1, if n < hi then n else hi)
    decreases n
  {
    if n == m + 1 {
      NoChildrenYet(headings, m, n);
    } else {
      ChildrenAreSiblings(headings, m, hi, n - 1);
    }
  }

  lemma {:induction false} RootsAreSiblings(headings: seq<Heading>, n: nat)
    requires n <= |headings|
    ensures RootsOf(headings, n) == Siblings(headings, 0, n)
  {
    if n > 0 { RootsAreSiblings(headings, n - 1); }
  }

  // Some heading from lo up to hi is higher than heading k.
  predicate SomeHigher(headings: seq<Heading>, lo: nat, hi: nat, k: nat)
    requires hi <= |headings| && k < |headings|
  {
    exists e :: lo <= e < hi && headings[e].level < headings[k].level
  }

  lemma SomeHigherBefore(headings: seq<Heading>, lo: nat, hi: nat, k: nat)
    requires lo < hi <= k < |headings| && SomeHigher(headings, lo, hi, k) && SomeHigher(headings, lo, hi - 1, hi - 1)
    ensures SomeHigher(headings, lo, hi - 1, k)
  {
    var d :| lo <= d < hi && headings[d].level < headings[k].level;
    var e :| lo <= e < hi - 1 && headings[e].level < headings[hi - 1].level;
    assert headings[if d == hi - 1 then e else d].level < headings[k].level;
  }

  // The last sibling before hi, and what the siblings before it are.
  lemma {:induction false} LastSibling(headings: seq<Heading>, lo: nat, hi: nat, top: nat) returns (m: nat)
    requires lo < hi <= top <= |headings|
    requires forall k :: hi <= k < top ==> SomeHigher(headings, lo, hi, k)
    ensures lo <= m < hi && LowestFrom(headings, lo, m)
    ensures Siblings(headings, lo, hi) == Siblings(headings, lo, m) + [m]
    ensures forall k :: m < k < top ==> headings[k].level > headings[m].level
    decreases hi
  {
    if LowestFrom(headings, lo, hi - 1) {
      m := hi - 1;
      forall k | m < k < top ensures headings[k].level > headings[m].level {
        assert SomeHigher(headings, lo, hi, k);
      }
    } else {
      var last := hi - 1;
      assert SomeHigher(headings, lo, last, last);
      forall k | last <= k < top ensures SomeHigher(headings, lo, last, k) {
        if k >= hi { SomeHigherBefore(headings, lo, hi, k); }
      }
      m := LastSibling(headings, lo, last, top);
    }
  }

  lemma {:induction false} SiblingsPreorder(headings: seq<Heading>, floor: nat, lo: nat, hi: nat)
    requires floor <= lo <= hi <= |headings|
    requires hi < |headings| ==> forall k :: lo <= k < hi ==> headings[hi].level <= headings[k].level
    ensures Within(Siblings(headings, lo, hi), floor, |headings|)
    ensures PreorderAll(headings, floor, Siblings(headings, lo, hi)) == Range(lo, hi)
    decreases hi - lo, 1
  {
    if lo < hi {
      var m := LastSibling(headings, lo, hi, hi);
      SiblingsPreorder(headings, floor, lo, m);
      SubtreePreorder(headings, m, hi);
      PreorderAppend(headings, floor, Siblings(headings, lo, m), m);
      RangeConcat(lo, m, hi);
    }
  }

  lemma PreorderAppend(headings: seq<Heading>, floor: nat, front: seq<nat>, m: nat)
    requires floor <= m < |headings| && Within(front, floor, |headings|)
    ensures Within(front + [m], floor, |headings|)
    ensures PreorderAll(headings, floor, front + [m]) == PreorderAll(headings, floor, front) + Preorder(headings, m)
  {
    assert (front + [m])[..|front + [m]| - 1] == front;
  }

  lemma {:induction false} SubtreePreorder(headings: seq<Heading>, m: nat, hi: nat)
    requires SubtreeEnds(headings, m, hi)
    ensures Preorder(headings, m) == Range(m, hi)
    decreases hi - m, 0
  {
    ChildrenAreSiblings(headings, m, hi, |headings|);
    SiblingsPreorder(headings, m + 1, m + 1, hi);
    assert [m] == Range(m, m + 1);
    RangeConcat(m, m + 1, hi);
  }

  /** Read in preorder, the outline is the list of headings. */
  lemma OutlinePreorderIsHeadings(headings: seq<Heading>)
    ensures Within(RootsOf(headings, |headings|), 0, |headings|)
    ensures PreorderAll(headings, 0, RootsOf(headings, |headings|)) == Range(0, |headings|)
  {
    RootsAreSiblings(headings, |headings|);
    SiblingsPreorder(headings, 0, 0, |headings|);
  }

  // ---------------------------------------------------------------- chains and paths

  // A way down the outline from a root, the last node on top.
  predicate IsChain(headings: seq<Heading>, chain: Stack) {
    && chain.Push? && chain.top < |headings| && chain.level == headings[chain.top].level
    && if chain.below.Empty? then chain.top in RootsOf(headings, |headings|)
       else chain.top in ChildrenOf(headings, chain.below.top, |headings|) && IsChain(headings, chain.below)
  }

  /** The way from a root down to heading k is the heading path that the segmenter keeps. */
  lemma {:induction false} ChainIsHeadingPath(headings: seq<Heading>, chain: Stack)
    requires IsChain(headings, chain)
    ensures chain == StackAt(headings, chain.top + 1)
  {
    var k := chain.top;
    if chain.below.Empty? {
      RootsInRange(headings, |headings|);
      assert IsRoot(headings, k);
    } else {
      ChildrenInRange(headings, chain.below.top, |headings|);
      assert IsParent(headings, chain.below.top, k);
      ChainIsHeadingPath(headings, chain.below);
    }
    PoppedStackEndsInParent(headings, k);
    var rest := Popped(headings, k);
    if rest.Push? && chain.below.Push? { ParentIsUnique(headings, chain.below.top, rest.top, k); }
  }

  /** Every heading is reached by a chain. */
  lemma {:induction false} HeadingPathIsChain(headings: seq<Heading>, k: nat)
    requires k < |headings|
    ensures IsChain(headings, StackAt(headings, k + 1))
  {
    PoppedStackEndsInParent(headings, k);
    var rest := Popped(headings, k);
    if rest.Empty? {
      RootListed(headings, k, |headings|);
    } else {
      HeadingPathIsChain(headings, rest.top);
      ChildListed(headings, rest.top, k, |headings|);
    }
  }

  lemma {:induction false} RootListed(headings: seq<Heading>, j: nat, n: nat)
    requires j < n <= |headings| && IsRoot(headings, j)
    ensures j in RootsOf(headings, n)
  {
    if j < n - 1 { RootListed(headings, j, n - 1); }
  }

  lemma {:induction false} ChildListed(headings: seq<Heading>, i: nat, j: nat, n: nat)
    requires j < n <= |headings| && IsParent(headings, i, j)
    ensures j in ChildrenOf(headings, i, n)
  {
    if j < n - 1 { ChildListed(headings, i, j, n - 1); }
  }
}
