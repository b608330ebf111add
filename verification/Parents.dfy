/** Section parents: the linking loop of crawler/candidate-persistence.ts. */
module Parents {
  import opened Prelude
  import opened Text
  import opened Outline
  import opened Segment
  import opened Slugs

  // A document's id and the sections it was cut into.
  datatype Document = Document(id: Str, sections: seq<Section>)

  // What a path is looked up by: level and anchor of each heading on it.
  function Key(path: seq<Heading>): (key: seq<(nat, Str)>)
    ensures |key| == |path| && forall i :: 0 <= i < |path| ==> key[i] == (path[i].level, path[i].anchor)
  {
    seq(|path|, i requires 0 <= i < |path| => (path[i].level, path[i].anchor))
  }

  function ParentKey(path: seq<Heading>): seq<(nat, Str)>
    requires path != []
  {
    Key(path[..|path| - 1])
  }

  // Section j is the first of the first n with this key.
  predicate IsFirst(sections: seq<Section>, key: seq<(nat, Str)>, n: nat, j: nat) {
    && j < n <= |sections| && Key(sections[j].path) == key
    && forall k :: 0 <= k < j ==> Key(sections[k].path) != key
  }

  predicate Occurs(sections: seq<Section>, key: seq<(nat, Str)>, n: nat) {
    n <= |sections| && exists k :: 0 <= k < n && Key(sections[k].path) == key
  }

  // The parent linked to section i: the first earlier section whose path is its own minus the last heading.
  predicate Linked(sections: seq<Section>, i: nat, parent: Option<nat>)
    requires i < |sections|
  {
    var path := sections[i].path;
    if |path| <= 1 then parent == None
    else if parent.Some? then IsFirst(sections, ParentKey(path), i, parent.value)
    else !Occurs(sections, ParentKey(path), i)
  }

  predicate AllLinked(sections: seq<Section>, parents: seq<Option<nat>>) {
    |parents| == |sections| && forall i :: 0 <= i < |sections| ==> Linked(sections, i, parents[i])
  }

  // The map holds, for this document, the first section of each path among its first n sections.
  ghost predicate FirstSections(first: map<(Str, seq<(nat, Str)>), nat>, document: Document, n: nat) {
    && n <= |document.sections|
    && (forall key :: (document.id, key) in first ==> IsFirst(document.sections, key, n, first[(document.id, key)]))
    && (forall k :: 0 <= k < n ==> (document.id, Key(document.sections[k].path)) in first)
  }

  // A section is named by its ordinal in its document.
  method LinkDocument(document: Document, before: map<(Str, seq<(nat, Str)>), nat>)
    returns (parents: seq<Option<nat>>, first: map<(Str, seq<(nat, Str)>), nat>)
    requires forall key :: (document.id, key) !in before
    ensures AllLinked(document.sections, parents)
    ensures forall id, key :: id != document.id ==> ((id, key) in first <==> (id, key) in before)
  {
    parents, first := [], before;
    for i := 0 to |document.sections|
      invariant |parents| == i && FirstSections(first, document, i)
      invariant forall k :: 0 <= k < i ==> Linked(document.sections, k, parents[k])
      invariant forall id, key :: id != document.id ==> ((id, key) in first <==> (id, key) in before)
    {
      var path := document.sections[i].path;
      var parent := None;
      if |path| > 1 && (document.id, ParentKey(path)) in first {
        parent := Some(first[(document.id, ParentKey(path))]);
      }
      assert Linked(document.sections, i, parent);
      parents := parents + [parent];
      if (document.id, Key(path)) !in first { first := first[(document.id, Key(path)) := i]; }
    }
  }

  method LinkParents(documents: seq<Document>) returns (parents: seq<seq<Option<nat>>>)
    requires forall d, e :: 0 <= d < e < |documents| ==> documents[d].id != documents[e].id
    ensures |parents| == |documents|
    ensures forall d :: 0 <= d < |documents| ==> AllLinked(documents[d].sections, parents[d])
  {
    parents := [];
    var first: map<(Str, seq<(nat, Str)>), nat> := map[];
    for d := 0 to |documents|
      invariant |parents| == d && forall e :: 0 <= e < d ==> AllLinked(documents[e].sections, parents[e])
      invariant forall e, key :: d <= e < |documents| ==> (documents[e].id, key) !in first
    {
      var linked;
      linked, first := LinkDocument(documents[d], first);
      parents := parents + [linked];
    }
  }

  // ---------------------------------------------------------------- parents are never missing

  // The document was segmented: these are its blocks, and where its sections come from.
  ghost predicate Segments(document: Document, title: Str, blocks: seq<Block>, packed: seq<seq<Piece>>, from: seq<nat>) {
    var logical := LogicalSections(title, blocks);
    SectionsFrom(logical, document.sections, packed, from) && NoneSkipped(logical, |logical|, from)
  }

  // Section i has a heading: which one.
  lemma HeadingOfSection(
    document: Document, title: Str, blocks: seq<Block>, packed: seq<seq<Piece>>, from: seq<nat>, i: nat) returns (k: nat)
    requires Segments(document, title, blocks, packed, from) && i < |document.sections| && document.sections[i].path != []
    ensures from[i] == Offset(blocks) + k && k < |HeadingsOf(blocks)|
    ensures document.sections[i].path == HeadingPath(HeadingsOf(blocks), k)
  {
    SectionsFollowHeadings(title, blocks);
    var logical := LogicalSections(title, blocks);
    assert SectionFor(logical[from[i]], packed[i], i, document.sections[i]);
    k := from[i] - Offset(blocks);
    assert SectionOf(HeadingsOf(blocks), k, logical[from[i]]);
  }

  // Heading p has a section.
  lemma SectionOfHeading(
    document: Document, title: Str, blocks: seq<Block>, packed: seq<seq<Piece>>, from: seq<nat>, p: nat) returns (j: nat)
    requires Segments(document, title, blocks, packed, from) && p < |HeadingsOf(blocks)|
    ensures j < |document.sections| && from[j] == Offset(blocks) + p
    ensures document.sections[j].path == HeadingPath(HeadingsOf(blocks), p)
  {
    SectionsFollowHeadings(title, blocks);
    var logical, f := LogicalSections(title, blocks), Offset(blocks) + p;
    assert SectionOf(HeadingsOf(blocks), f - Offset(blocks), logical[f]);
    assert f in from;
    j :| 0 <= j < |from| && from[j] == f;
    assert SectionFor(logical[from[j]], packed[j], j, document.sections[j]);
  }

  // The path of a heading is its parent's path and itself.
  lemma PathOfParent(headings: seq<Heading>, k: nat) returns (p: nat)
    requires k < |headings| && |HeadingPath(headings, k)| > 1
    ensures IsParent(headings, p, k) && HeadingPath(headings, k) == HeadingPath(headings, p) + [headings[k]]
  {
    PoppedStackEndsInParent(headings, k);
    var rest := Popped(headings, k);
    assert HeadingPath(headings, k) == PathOf(headings, rest) + [headings[k]];
    assert rest.Push?;
    p := rest.top;
  }

  /** A section below another heading has an earlier section in its document whose path is its own
      minus the last heading; the heading of that section is the nearest enclosing one. */
  lemma ParentExists(
    document: Document, title: Str, blocks: seq<Block>, packed: seq<seq<Piece>>, from: seq<nat>, i: nat) returns (j: nat)
    requires Segments(document, title, blocks, packed, from) && i < |document.sections| && |document.sections[i].path| > 1
    ensures j < i && from[j] < from[i] && Offset(blocks) <= from[j]
    ensures document.sections[j].path == document.sections[i].path[..|document.sections[i].path| - 1]
    ensures IsParent(HeadingsOf(blocks), from[j] - Offset(blocks), from[i] - Offset(blocks))
  {
    var k := HeadingOfSection(document, title, blocks, packed, from, i);
    var p := PathOfParent(HeadingsOf(blocks), k);
    j := SectionOfHeading(document, title, blocks, packed, from, p);
  }

  /** Linking never misses: exactly the sections with a path longer than one have a parent, which is
      earlier and one heading shorter, so the parents of a document form a forest. */
  lemma ParentsNeverMissing(
    document: Document, title: Str, blocks: seq<Block>, packed: seq<seq<Piece>>, from: seq<nat>, parents: seq<Option<nat>>)
    requires Segments(document, title, blocks, packed, from) && AllLinked(document.sections, parents)
    ensures forall i :: 0 <= i < |parents| ==>
              && (parents[i].Some? <==> |document.sections[i].path| > 1)
              && (parents[i].Some? ==>
                    && parents[i].value < i
                    && Key(document.sections[parents[i].value].path) == ParentKey(document.sections[i].path)
                    && |document.sections[parents[i].value].path| == |document.sections[i].path| - 1)
  {
    forall i | 0 <= i < |parents| && |document.sections[i].path| > 1 ensures Occurs(document.sections, ParentKey(document.sections[i].path), i) {
      var j := ParentExists(document, title, blocks, packed, from, i);
      assert Key(document.sections[j].path) == ParentKey(document.sections[i].path);
    }
    forall i | 0 <= i < |parents| ensures Linked(document.sections, i, parents[i]) {}
  }

  /** With distinct anchors the parent is the first section of the nearest enclosing heading. */
  lemma ParentIsNearestHeading(
    document: Document, title: Str, blocks: seq<Block>, packed: seq<seq<Piece>>, from: seq<nat>,
    parents: seq<Option<nat>>, bases: seq<Str>, i: nat)
    requires Segments(document, title, blocks, packed, from) && AllLinked(document.sections, parents)
    requires |bases| == |HeadingsOf(blocks)|
    requires forall k :: 0 <= k < |bases| ==> HeadingsOf(blocks)[k].anchor == Anchor(bases, k)
    requires !exists a: nat, b: nat, n: nat :: Clash(bases, a, b, n)
    requires i < |parents| && parents[i].Some?
    ensures var p := parents[i].value;
            && p < |from| && Offset(blocks) <= from[p]
            && IsParent(HeadingsOf(blocks), from[p] - Offset(blocks), from[i] - Offset(blocks))
            && forall j :: 0 <= j < p ==> from[j] < from[p]
  {
    var headings, p := HeadingsOf(blocks), parents[i].value;
    assert Linked(document.sections, i, parents[i]);
    assert Key(document.sections[p].path) == ParentKey(document.sections[i].path);
    var j := ParentExists(document, title, blocks, packed, from, i);
    var k := HeadingOfSection(document, title, blocks, packed, from, j);
    assert document.sections[p].path != [];
    var h := HeadingOfSection(document, title, blocks, packed, from, p);
    SameKeySameHeading(headings, bases, h, k);
    FirstOfItsHeading(document, title, blocks, packed, from, i, p);
  }

  // A section that is the first with its path is the first from its heading.
  lemma FirstOfItsHeading(
    document: Document, title: Str, blocks: seq<Block>, packed: seq<seq<Piece>>, from: seq<nat>, n: nat, p: nat)
    requires Segments(document, title, blocks, packed, from) && p < |document.sections|
    requires IsFirst(document.sections, Key(document.sections[p].path), n, p)
    ensures forall q :: 0 <= q < p ==> from[q] < from[p]
  {
    var logical := LogicalSections(title, blocks);
    assert SectionFor(logical[from[p]], packed[p], p, document.sections[p]);
    forall q: nat | q < p ensures from[q] < from[p] {
      assert SectionFor(logical[from[q]], packed[q], q, document.sections[q]);
    }
  }

  lemma SameKeySameHeading(headings: seq<Heading>, bases: seq<Str>, h: nat, k: nat)
    requires h < |headings| == |bases| && k < |headings|
    requires forall i :: 0 <= i < |bases| ==> headings[i].anchor == Anchor(bases, i)
    requires !exists a: nat, b: nat, n: nat :: Clash(bases, a, b, n)
    requires Key(HeadingPath(headings, h)) == Key(HeadingPath(headings, k))
    ensures h == k
  {
    AnchorsDistinctIff(bases);
    var a, b := HeadingPath(headings, h), HeadingPath(headings, k);
    assert a[|a| - 1] == headings[h] && b[|b| - 1] == headings[k];
    assert Key(a)[|a| - 1] == Key(b)[|b| - 1];
    assert headings[h].anchor == headings[k].anchor;
    assert Anchor(bases, h) == Anchor(bases, k);
  }
}
