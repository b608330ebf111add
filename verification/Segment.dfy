/** Sections of a document: crawler/ingestion/segment.ts. */
module Segment {
  import opened Prelude
  import opened Text
  import opened Outline

  // `rendered` is what renderBlock prints; a heading's is printed here.
  datatype Block =
    | HeadingBlock(id: Str, heading: Heading)
    | CodeBlock(id: Str, rendered: Str)
    | TableBlock(id: Str, rendered: Str)
    | ProseBlock(id: Str, rendered: Str)

  datatype Piece = Piece(block: Str, start: nat, end: nat, text: Str, atomic: bool)

  const HASH: Unit := 35
  const FULL_STOP: Unit := 46
  const EXCLAMATION: Unit := 33
  const QUESTION: Unit := 63

  const PARAGRAPH_BREAK: Str := [LF, LF]

  function Render(block: Block): Str {
    if block.HeadingBlock? then Repeat(HASH, block.heading.level) + [SPACE] + block.heading.text else block.rendered
  }

  function BlockPiece(block: Block): Piece {
    var text := Render(block);
    Piece(block.id, 0, |text|, text, !block.ProseBlock?)
  }

  function Min(a: int, b: int): int { if a <= b then a else b }

  function Max(a: int, b: int): int { if a >= b then a else b }

  // ---------------------------------------------------------------- where prose is cut

  // The greatest candidate from `floor` to `maximum`, or -1.
  function BestCandidate(candidates: seq<int>, floor: nat, maximum: nat): (best: int)
    ensures best == -1 || (best in candidates && floor <= best <= maximum)
    ensures forall c :: c in candidates && floor <= c <= maximum ==> c <= best
  {
    if candidates == [] then -1
    else
      var best := BestCandidate(candidates[1..], floor, maximum);
      assert candidates == [candidates[0]] + candidates[1..];
      if floor <= candidates[0] <= maximum then Max(candidates[0], best) else best
  }

  function Candidates(prefix: Str): seq<int> {
    [LastIndexOf(prefix, PARAGRAPH_BREAK), LastIndexOf(prefix, [LF]),
     Max(LastIndexOf(prefix, [FULL_STOP, SPACE]),
         Max(LastIndexOf(prefix, [EXCLAMATION, SPACE]), LastIndexOf(prefix, [QUESTION, SPACE]))) + 1,
     LastIndexOf(prefix, [SPACE])]
  }

  function Boundary(value: Str, maximum: nat): (cut: nat)
    requires maximum >= 1
    ensures if |value| <= maximum then cut == |value| else 1 <= cut <= maximum
  {
    if |value| <= maximum then |value|
    else
      var best := BestCandidate(Candidates(value[..maximum + 1]), Max(1, maximum / 2), maximum);
      if best >= 0 then best else maximum
  }

  predicate IsBlankAt(value: Str, k: int) {
    0 <= k < |value| && (value[k] == LF || value[k] == SPACE)
  }

  /** Paragraph and sentence ends never matter: text is cut at the last newline or space in the
      upper half of what fits, wherever that is, and at the limit when there is none. */
  lemma BoundaryIsLastBlank(value: Str, maximum: nat)
    requires 1 <= maximum < |value|
    ensures var cut := Boundary(value, maximum);
            && (cut == maximum || (IsBlankAt(value, cut) && maximum / 2 <= cut))
            && forall k :: IsBlankAt(value, k) && Max(1, maximum / 2) <= k <= maximum ==>
                 k <= cut && IsBlankAt(value, cut)
  {
    var prefix := value[..maximum + 1];
    var floor, cut := Max(1, maximum / 2), Boundary(value, maximum);
    CandidatesAreBlanks(prefix);
    var best := BestCandidate(Candidates(prefix), floor, maximum);
    assert best >= 0 ==> best == cut && IsBlankAt(prefix, best) && IsBlankAt(value, best);
    forall k | IsBlankAt(value, k) && floor <= k <= maximum ensures k <= cut && IsBlankAt(value, cut) {
      assert IsBlankAt(prefix, k);
      var c :| c in Candidates(prefix) && k <= c;
      assert IsBlankAt(prefix, c);
    }
  }

  lemma CandidatesAreBlanks(prefix: Str)
    ensures forall c :: c in Candidates(prefix) && c >= 1 ==> IsBlankAt(prefix, c)
    ensures forall k :: IsBlankAt(prefix, k) ==> exists c :: c in Candidates(prefix) && k <= c
  {
    forall c | c in Candidates(prefix) && c >= 1 ensures IsBlankAt(prefix, c) {
      CandidateIsBlank(prefix, c);
    }
    forall k | IsBlankAt(prefix, k) ensures exists c :: c in Candidates(prefix) && k <= c {
      BlankBeforeLast(prefix, k);
    }
  }

  lemma CandidateIsBlank(prefix: Str, c: int)
    requires c in Candidates(prefix) && c >= 1
    ensures IsBlankAt(prefix, c)
  {
    OccurrenceIsBlank(prefix, PARAGRAPH_BREAK, 0);
    OccurrenceIsBlank(prefix, [LF], 0);
    OccurrenceIsBlank(prefix, [SPACE], 0);
    OccurrenceIsBlank(prefix, [FULL_STOP, SPACE], 1);
    OccurrenceIsBlank(prefix, [EXCLAMATION, SPACE], 1);
    OccurrenceIsBlank(prefix, [QUESTION, SPACE], 1);
    var paragraph, line, word := LastIndexOf(prefix, PARAGRAPH_BREAK), LastIndexOf(prefix, [LF]), LastIndexOf(prefix, [SPACE]);
    var stop, bang, query :=
      LastIndexOf(prefix, [FULL_STOP, SPACE]), LastIndexOf(prefix, [EXCLAMATION, SPACE]), LastIndexOf(prefix, [QUESTION, SPACE]);
    var sentence := Max(stop, Max(bang, query)) + 1;
    assert c == paragraph || c == line || c == sentence || c == word;
    assert sentence == stop + 1 || sentence == bang + 1 || sentence == query + 1;
  }

  // Where the last occurrence is, the text is blank at `offset`.
  lemma OccurrenceIsBlank(s: Str, pattern: Str, offset: nat)
    requires offset < |pattern| && (pattern[offset] == LF || pattern[offset] == SPACE)
    ensures LastIndexOf(s, pattern) >= 0 ==> IsBlankAt(s, LastIndexOf(s, pattern) + offset)
  {
    var i := LastIndexOf(s, pattern);
    if i >= 0 {
      assert s[i + offset] == s[i..i + |pattern|][offset];
    }
  }

  lemma BlankBeforeLast(prefix: Str, k: int)
    requires IsBlankAt(prefix, k)
    ensures LastIndexOf(prefix, [prefix[k]]) in Candidates(prefix) && k <= LastIndexOf(prefix, [prefix[k]])
  {
    assert prefix[k..k + 1] == [prefix[k]];
    assert OccursAt(prefix, [prefix[k]], k);
    if prefix[k] == LF {
      assert Candidates(prefix)[1] == LastIndexOf(prefix, [LF]);
    } else {
      assert Candidates(prefix)[3] == LastIndexOf(prefix, [SPACE]);
    }
  }

  // ---------------------------------------------------------------- slices of one block

  predicate SpaceBetween(text: Str, from: int, to: int) {
    0 <= from && to <= |text| && forall i :: from <= i < to ==> IsSpace(text[i])
  }

  // A piece cut out of a prose block, blank at neither end.
  predicate IsSlice(original: Piece, piece: Piece) {
    && piece.start < piece.end <= |original.text| && piece.block == original.block && !piece.atomic
    && piece.text == original.text[piece.start..piece.end]
    && !IsSpace(original.text[piece.start]) && !IsSpace(original.text[piece.end - 1])
  }

  // The slices of a prose piece before `upto`: in order, disjoint, and what they leave out is whitespace.
  ghost predicate Sliced(original: Piece, slices: seq<Piece>, upto: int) {
    && 0 <= upto <= |original.text|
    && if slices == [] then SpaceBetween(original.text, 0, upto)
       else
         var last := slices[|slices| - 1];
         && IsSlice(original, last) && last.end <= upto && SpaceBetween(original.text, last.end, upto)
         && Sliced(original, slices[..|slices| - 1], last.start)
  }

  // What becomes of one block: an atomic piece stays as it is, prose becomes its slices.
  ghost predicate IsGroup(original: Piece, group: seq<Piece>) {
    if original.atomic then group == [original] else Sliced(original, group, |original.text|)
  }

  lemma SlicedFurther(original: Piece, slices: seq<Piece>, from: int, upto: int)
    requires Sliced(original, slices, from) && from <= upto && SpaceBetween(original.text, from, upto)
    ensures Sliced(original, slices, upto)
  {
  }

  lemma SlicedAppend(original: Piece, slices: seq<Piece>, piece: Piece)
    requires IsSlice(original, piece) && Sliced(original, slices, piece.start)
    ensures Sliced(original, slices + [piece], piece.end)
  {
    assert (slices + [piece])[..|slices + [piece]| - 1] == slices;
  }

  lemma SliceTaken(original: Piece, slices: seq<Piece>, start: int, piece: Piece, next: int)
    requires Sliced(original, slices, start) && IsSlice(original, piece) && start <= piece.start && piece.end <= next
    requires SpaceBetween(original.text, start, piece.start) && SpaceBetween(original.text, piece.end, next)
    ensures Sliced(original, slices + [piece], next)
  {
    SlicedFurther(original, slices, start, piece.start);
    SlicedAppend(original, slices, piece);
    SlicedFurther(original, slices + [piece], piece.end, next);
  }

  // The first index in [from, to) that does not hold whitespace, or `to`.
  method SkipSpace(text: Str, from: nat, to: nat) returns (next: nat)
    requires from <= to <= |text|
    ensures from <= next <= to && SpaceBetween(text, from, next) && (next < to ==> !IsSpace(text[next]))
  {
    next := from;
    while next < to && IsSpace(text[next])
      invariant from <= next <= to && SpaceBetween(text, from, next)
    {
      next := next + 1;
    }
  }

  // The end of the last unit in [from, to) that is not whitespace, or `from`.
  method TrimEnd(text: Str, from: nat, to: nat) returns (end: nat)
    requires from <= to <= |text|
    ensures from <= end <= to && SpaceBetween(text, end, to) && (from < end ==> !IsSpace(text[end - 1]))
  {
    end := to;
    while from < end && IsSpace(text[end - 1])
      invariant from <= end <= to && SpaceBetween(text, end, to)
    {
      end := end - 1;
    }
  }

  // What is left of [start, to) without the whitespace at its ends, if anything is.
  method TrimmedSlice(original: Piece, start: nat, to: nat, ghost slices: seq<Piece>) returns (piece: Option<Piece>)
    requires start < to <= |original.text| && Sliced(original, slices, start)
    ensures piece.Some? ==> IsSlice(original, piece.value) && |piece.value.text| <= to - start
    ensures Sliced(original, if piece.Some? then slices + [piece.value] else slices, to)
    ensures !IsSpace(original.text[start]) ==> piece.Some?
  {
    var first := SkipSpace(original.text, start, to);
    var end := TrimEnd(original.text, first, to);
    if first < end {
      piece := Some(Piece(original.block, first, end, original.text[first..end], false));
      SliceTaken(original, slices, start, piece.value, to);
    } else {
      piece := None;
      SlicedFurther(original, slices, start, to);
    }
  }

  // The next slice of a prose piece, from `start`, of at most `available` units before trimming; none if it is blank.
  method CutSlice(original: Piece, start: nat, available: nat, ghost slices: seq<Piece>)
    returns (piece: Option<Piece>, next: nat)
    requires start < |original.text| && available >= 1 && Sliced(original, slices, start)
    ensures start < next <= |original.text| && (next < |original.text| ==> !IsSpace(original.text[next]))
    ensures piece.Some? ==> IsSlice(original, piece.value) && |piece.value.text| <= available
    ensures Sliced(original, if piece.Some? then slices + [piece.value] else slices, next)
    ensures !IsSpace(original.text[start]) ==> piece.Some?
  {
    var to := start + Boundary(original.text[start..], available);
    piece := TrimmedSlice(original, start, to, slices);
    next := SkipSpace(original.text, to, |original.text|);
    SlicedFurther(original, if piece.Some? then slices + [piece.value] else slices, to, next);
  }

  // ---------------------------------------------------------------- packing

  // pieces.map((piece) => piece.text).join("\n\n")
  function Content(pieces: seq<Piece>): Str {
    if pieces == [] then []
    else if |pieces| == 1 then pieces[0].text
    else Content(pieces[..|pieces| - 1]) + PARAGRAPH_BREAK + pieces[|pieces| - 1].text
  }

  /** The content is the texts of the pieces with a blank line between any two. */
  lemma {:induction false} ContentIsJoined(a: seq<Piece>, b: seq<Piece>)
    requires a != [] && b != []
    ensures Content(a + b) == Content(a) + [10, 10] + Content(b)
    ensures |b| == 1 ==> Content(b) == b[0].text
  {
    var front, last := b[..|b| - 1], b[|b| - 1];
    assert (a + b)[..|a + b| - 1] == a + front;
    if |b| == 1 {
      assert a + front == a;
    } else {
      ContentIsJoined(a, front);
      assert Content(b) == Content(front) + PARAGRAPH_BREAK + last.text;
      assert Content(a) + [10, 10] + Content(front) + PARAGRAPH_BREAK + last.text
          == Content(a) + [10, 10] + (Content(front) + PARAGRAPH_BREAK + last.text);
    }
  }

  function Characters(pieces: seq<Piece>): nat {
    |Content(pieces)|
  }

  function Flatten(groups: seq<seq<Piece>>): seq<Piece> {
    if groups == [] then [] else Flatten(groups[..|groups| - 1]) + groups[|groups| - 1]
  }

  // A section fits its target, or is one atomic piece.
  predicate Fits(section: seq<Piece>, target: nat) {
    section != [] && (Characters(section) <= target || (|section| == 1 && section[0].atomic))
  }

  // The space a piece needs for not starting a new section.
  function Room(piece: Piece, target: nat): nat {
    if piece.atomic then |piece.text| else Min(64, target)
  }

  // A section ended because the next one's first piece would not have fitted in it.
  predicate Tight(section: seq<Piece>, next: seq<Piece>, target: nat) {
    section != [] && next != [] && Characters(section) + 2 + Room(next[0], target) > target
  }

  datatype Packing = Packing(sections: seq<seq<Piece>>, current: seq<Piece>, characters: nat)

  function Flush(p: Packing): Packing {
    Packing(if p.current != [] then p.sections + [p.current] else p.sections, [], 0)
  }

  function Add(p: Packing, piece: Piece): Packing {
    Packing(p.sections, p.current + [piece], p.characters + Separator(p) + |piece.text|)
  }

  function Separator(p: Packing): nat {
    if p.current != [] then 2 else 0
  }

  function AllPieces(p: Packing): seq<Piece> {
    Flatten(p.sections) + p.current
  }

  // `characters` is the length of the joined content, full sections fit, and the open one is within target.
  ghost predicate Packed(p: Packing, target: nat) {
    && p.characters == Characters(p.current) && (p.current != [] ==> p.characters <= target)
    && forall k :: 0 <= k < |p.sections| ==> Fits(p.sections[k], target)
  }

  // Sections are not closed early.
  ghost predicate AllTight(sections: seq<seq<Piece>>, target: nat) {
    forall k :: 0 < k < |sections| ==> Tight(sections[k - 1], sections[k], target)
  }

  // Neither are the closed sections nor the open one after them.
  ghost predicate PackedTight(p: Packing, target: nat) {
    && AllTight(p.sections, target)
    && (p.sections != [] && p.current != [] ==> Tight(p.sections[|p.sections| - 1], p.current, target))
  }

  // The last closed section has no room for `room` more.
  ghost predicate LastFull(p: Packing, room: nat, target: nat) {
    p.current == [] && p.sections != [] ==> Characters(p.sections[|p.sections| - 1]) + 2 + room > target
  }

  lemma CharactersAppend(pieces: seq<Piece>, piece: Piece)
    ensures Characters(pieces + [piece]) == (if pieces == [] then 0 else Characters(pieces) + 2) + |piece.text|
  {
    assert (pieces + [piece])[..|pieces + [piece]| - 1] == pieces;
  }

  lemma FlattenAppend(groups: seq<seq<Piece>>, group: seq<Piece>)
    ensures Flatten(groups + [group]) == Flatten(groups) + group
  {
    assert (groups + [group])[..|groups + [group]| - 1] == groups;
  }

  lemma FlushKeeps(p: Packing, target: nat)
    requires Packed(p, target)
    ensures Packed(Flush(p), target) && AllPieces(Flush(p)) == AllPieces(p)
    ensures PackedTight(p, target) ==> PackedTight(Flush(p), target)
  {
    if p.current != [] { FlattenAppend(p.sections, p.current); }
  }

  // Adding a piece that fits, to a section or to a new one that the last had no room for.
  lemma AddKeeps(p: Packing, piece: Piece, target: nat)
    requires Packed(p, target) && p.characters + Separator(p) + |piece.text| <= target
    ensures Packed(Add(p, piece), target) && AllPieces(Add(p, piece)) == AllPieces(p) + [piece]
    ensures PackedTight(p, target) && LastFull(p, Room(piece, target), target) ==> PackedTight(Add(p, piece), target)
  {
    CharactersAppend(p.current, piece);
    assert Add(p, piece).current != [];
    assert p.current != [] ==> Add(p, piece).current[0] == p.current[0];
    assert AllPieces(Add(p, piece)) == AllPieces(p) + [piece];
  }

  // No prose starts with whitespace, which would be cut off.
  predicate Trimmed(pieces: seq<Piece>) {
    forall k :: 0 <= k < |pieces| && !pieces[k].atomic && pieces[k].text != [] ==> !IsSpace(pieces[k].text[0])
  }

  // Closes the open section when less than 64 units, or the whole target, are left in it.
  method MakeRoom(before: Packing, target: nat) returns (p: Packing, available: nat)
    requires target >= 1 && Packed(before, target)
    ensures Packed(p, target) && AllPieces(p) == AllPieces(before)
    ensures 1 <= available && p.characters + Separator(p) + available <= target
    ensures PackedTight(before, target) && LastFull(before, 0, target) ==>
              PackedTight(p, target) && LastFull(p, Min(64, target), target)
  {
    p := before;
    if p.current != [] && target - p.characters - 2 < Min(64, target) {
      FlushKeeps(p, target);
      p := Flush(p);
      assert p.sections[|p.sections| - 1] == before.current;
    }
    available := target - p.characters - Separator(p);
  }

  // Closes the open section when it has reached its target.
  method CloseFull(before: Packing, target: nat) returns (p: Packing)
    requires target >= 1 && Packed(before, target)
    ensures Packed(p, target) && AllPieces(p) == AllPieces(before)
    ensures PackedTight(before, target) && LastFull(before, 0, target) ==> PackedTight(p, target) && LastFull(p, 0, target)
  {
    p := before;
    if p.characters >= target {
      FlushKeeps(p, target);
      p := Flush(p);
      assert before.current != [] ==> p.sections[|p.sections| - 1] == before.current;
    }
  }

  // Cuts the next slice off a prose piece and packs it; nothing is added if it is blank.
  method PackSlice(original: Piece, target: nat, before: Packing, start: nat, ghost slices: seq<Piece>)
    returns (p: Packing, next: nat, ghost added: seq<Piece>)
    requires target >= 1 && start < |original.text| && Packed(before, target) && Sliced(original, slices, start)
    ensures start < next <= |original.text| && Packed(p, target) && Sliced(original, slices + added, next)
    ensures AllPieces(p) == AllPieces(before) + added && (next < |original.text| ==> !IsSpace(original.text[next]))
    ensures !IsSpace(original.text[start]) && PackedTight(before, target) && LastFull(before, 0, target)
            ==> PackedTight(p, target) && LastFull(p, 0, target)
  {
    var available, piece;
    p, available := MakeRoom(before, target);
    piece, next := CutSlice(original, start, available, slices);
    added := [];
    if piece.Some? {
      AddKeeps(p, piece.value, target);
      p, added := Add(p, piece.value), [piece.value];
    } else {
      assert slices + added == slices;
    }
    p := CloseFull(p, target);
  }

  // Cuts one prose piece into slices and packs them.
  method PackProse(original: Piece, target: nat, before: Packing) returns (p: Packing, ghost slices: seq<Piece>)
    requires target >= 1 && !original.atomic && Packed(before, target)
    ensures Packed(p, target) && Sliced(original, slices, |original.text|)
    ensures AllPieces(p) == AllPieces(before) + slices
    ensures Trimmed([original]) && PackedTight(before, target) && LastFull(before, 0, target)
            ==> PackedTight(p, target) && LastFull(p, 0, target)
  {
    p, slices := before, [];
    ghost var tidy := Trimmed([original]) && PackedTight(before, target) && LastFull(before, 0, target);
    var start := 0;
    assert tidy && original.text != [] ==> !IsSpace([original][0].text[0]);
    ghost var already := AllPieces(before);
    assert already == already + slices;
    while start < |original.text|
      invariant start <= |original.text| && Packed(p, target) && Sliced(original, slices, start)
      invariant AllPieces(p) == already + slices
      invariant tidy ==> PackedTight(p, target) && LastFull(p, 0, target)
      invariant tidy && start < |original.text| ==> !IsSpace(original.text[start])
    {
      ghost var added;
      p, start, added := PackSlice(original, target, p, start, slices);
      Associates(already, slices, added);
      slices := slices + added;
    }
  }

  // A piece over the target gets a section of its own.
  lemma AloneKeeps(p: Packing, original: Piece, target: nat)
    requires Packed(p, target) && p.current == [] && original.atomic && |original.text| > target
    ensures var alone := Flush(Add(p, original));
            && Packed(alone, target) && AllPieces(alone) == AllPieces(p) + [original]
            && (PackedTight(p, target) && LastFull(p, |original.text|, target) ==>
                  PackedTight(alone, target) && LastFull(alone, 0, target))
  {
    var alone := Flush(Add(p, original));
    CharactersAppend([], original);
    assert p.current + [original] == [original];
    FlattenAppend(p.sections, [original]);
    assert Fits([original], target);
  }

  // Closes the open section when `room` more would not fit in it.
  method MakeRoomFor(before: Packing, room: nat, target: nat) returns (p: Packing)
    requires Packed(before, target)
    ensures Packed(p, target) && AllPieces(p) == AllPieces(before)
    ensures p.current != [] ==> p.characters + 2 + room <= target
    ensures PackedTight(before, target) && LastFull(before, 0, target) ==>
              PackedTight(p, target) && LastFull(p, room, target)
  {
    p := before;
    if p.current != [] && p.characters + 2 + room > target {
      FlushKeeps(p, target);
      p := Flush(p);
      assert p.sections[|p.sections| - 1] == before.current;
    }
  }

  // Packs one piece that may not be cut.
  method PackAtomic(original: Piece, target: nat, before: Packing) returns (p: Packing)
    requires target >= 1 && original.atomic && Packed(before, target)
    ensures Packed(p, target) && AllPieces(p) == AllPieces(before) + [original]
    ensures PackedTight(before, target) && LastFull(before, 0, target) ==> PackedTight(p, target) && LastFull(p, 0, target)
  {
    p := MakeRoomFor(before, |original.text|, target);
    if |original.text| <= target {
      AddKeeps(p, original, target);
      p := Add(p, original);
    } else {
      AloneKeeps(p, original, target);
      p := Flush(Add(p, original));
    }
  }

  method PackPiece(original: Piece, target: nat, before: Packing) returns (p: Packing, ghost group: seq<Piece>)
    requires target >= 1 && Packed(before, target)
    ensures Packed(p, target) && IsGroup(original, group) && AllPieces(p) == AllPieces(before) + group
    ensures Trimmed([original]) && PackedTight(before, target) && LastFull(before, 0, target)
            ==> PackedTight(p, target) && LastFull(p, 0, target)
  {
    if original.atomic {
      p := PackAtomic(original, target, before);
      group := [original];
    } else {
      p, group := PackProse(original, target, before);
    }
  }

  ghost predicate AreGroups(pieces: seq<Piece>, groups: seq<seq<Piece>>) {
    |groups| == |pieces| && forall i :: 0 <= i < |pieces| ==> IsGroup(pieces[i], groups[i])
  }

  lemma GroupsOneMoreOf(pieces: seq<Piece>, i: nat, groups: seq<seq<Piece>>, group: seq<Piece>)
    requires i < |pieces| && AreGroups(pieces[..i], groups) && IsGroup(pieces[i], group)
    ensures AreGroups(pieces[..i + 1], groups + [group])
  {
    forall k | 0 <= k < i ensures IsGroup(pieces[k], groups[k]) { assert pieces[..i][k] == pieces[k]; }
  }

  // packLogicalSection
  method PackLogicalSection(pieces: seq<Piece>, target: nat)
    returns (sections: seq<seq<Piece>>, ghost groups: seq<seq<Piece>>)
    requires target >= 1
    ensures AreGroups(pieces, groups) && Flatten(sections) == Flatten(groups)
    ensures forall k :: 0 <= k < |sections| ==> Fits(sections[k], target)
    ensures Trimmed(pieces) ==> AllTight(sections, target)
  {
    var p := Packing([], [], 0);
    groups := [];
    for i := 0 to |pieces|
      invariant Packed(p, target) && AllPieces(p) == Flatten(groups) && AreGroups(pieces[..i], groups)
      invariant Trimmed(pieces) ==> PackedTight(p, target) && LastFull(p, 0, target)
    {
      ghost var group;
      assert Trimmed(pieces) ==> Trimmed([pieces[i]]);
      p, group := PackPiece(pieces[i], target, p);
      FlattenAppend(groups, group);
      GroupsOneMoreOf(pieces, i, groups, group);
      groups := groups + [group];
    }
    assert pieces[..|pieces|] == pieces;
    FlushKeeps(p, target);
    sections := Flush(p).sections;
  }

  // ---------------------------------------------------------------- nothing but whitespace is lost

  function TextOf(pieces: seq<Piece>): Str {
    if pieces == [] then [] else TextOf(pieces[..|pieces| - 1]) + pieces[|pieces| - 1].text
  }

  // The contents of all sections, one after the other.
  function ContentOf(sections: seq<seq<Piece>>): Str {
    if sections == [] then [] else ContentOf(sections[..|sections| - 1]) + Content(sections[|sections| - 1])
  }

  lemma {:induction false} TextOfConcat(a: seq<Piece>, b: seq<Piece>)
    ensures TextOf(a + b) == TextOf(a) + TextOf(b)
  {
    if b == [] {
      assert a + b == a;
    } else {
      assert (a + b)[..|a + b| - 1] == a + b[..|b| - 1];
      TextOfConcat(a, b[..|b| - 1]);
    }
  }

  lemma {:induction false} SquashContent(pieces: seq<Piece>)
    ensures Squash(Content(pieces)) == Squash(TextOf(pieces))
  {
    if |pieces| == 1 {
      assert TextOf(pieces[..0]) == [];
      assert TextOf(pieces) == pieces[0].text;
    } else if |pieces| > 1 {
      var front, last := pieces[..|pieces| - 1], pieces[|pieces| - 1].text;
      SquashContent(front);
      SquashSpace(PARAGRAPH_BREAK);
      SquashConcat(Content(front) + PARAGRAPH_BREAK, last);
      SquashConcat(Content(front), PARAGRAPH_BREAK);
      SquashConcat(TextOf(front), last);
    }
  }

  lemma {:induction false} SquashSections(sections: seq<seq<Piece>>)
    ensures Squash(ContentOf(sections)) == Squash(TextOf(Flatten(sections)))
  {
    if sections != [] {
      var front, last := sections[..|sections| - 1], sections[|sections| - 1];
      SquashSections(front);
      SquashContent(last);
      SquashConcat(ContentOf(front), Content(last));
      TextOfConcat(Flatten(front), last);
      SquashConcat(TextOf(Flatten(front)), TextOf(last));
    }
  }

  lemma {:induction false} SquashSliced(original: Piece, slices: seq<Piece>, upto: int)
    requires Sliced(original, slices, upto)
    ensures Squash(TextOf(slices)) == Squash(original.text[..upto])
  {
    if slices == [] {
      SquashSpace(original.text[..upto]);
    } else {
      var front, last := slices[..|slices| - 1], slices[|slices| - 1];
      SquashSliced(original, front, last.start);
      SquashConcat(TextOf(front), last.text);
      SquashWithGap(original.text[..last.start], last.text, original.text[last.end..upto]);
      InThreeParts(original.text, last.start, last.end, upto);
    }
  }

  lemma InThreeParts(text: Str, i: nat, j: nat, k: nat)
    requires i <= j <= k <= |text|
    ensures text[..k] == text[..i] + text[i..j] + text[j..k]
  {
  }

  lemma SquashWithGap(a: Str, b: Str, gap: Str)
    requires AllSpace(gap)
    ensures Squash(a + b + gap) == Squash(a) + Squash(b)
  {
    SquashSpace(gap);
    SquashConcat(a + b, gap);
    SquashConcat(a, b);
  }

  lemma {:induction false} SquashGroups(pieces: seq<Piece>, groups: seq<seq<Piece>>)
    requires AreGroups(pieces, groups)
    ensures Squash(TextOf(Flatten(groups))) == Squash(TextOf(pieces))
  {
    if pieces != [] {
      var last, group := pieces[|pieces| - 1], groups[|groups| - 1];
      SquashGroups(pieces[..|pieces| - 1], groups[..|groups| - 1]);
      TextOfConcat(Flatten(groups[..|groups| - 1]), group);
      SquashConcat(TextOf(Flatten(groups[..|groups| - 1])), TextOf(group));
      SquashConcat(TextOf(pieces[..|pieces| - 1]), last.text);
      SquashGroup(last, group);
    }
  }

  lemma SquashGroup(original: Piece, group: seq<Piece>)
    requires IsGroup(original, group)
    ensures Squash(TextOf(group)) == Squash(original.text)
  {
    if original.atomic {
      assert group[..|group| - 1] == [] && group[|group| - 1] == original;
      assert TextOf(group) == original.text;
    } else {
      SquashSliced(original, group, |original.text|);
      assert original.text[..|original.text|] == original.text;
    }
  }

  // ---------------------------------------------------------------- merged slices

  datatype BlockSlice = BlockSlice(block: Str, start: nat, end: nat)

  function MergedSlices(pieces: seq<Piece>): seq<BlockSlice> {
    if pieces == [] then []
    else
      var slices, piece := MergedSlices(pieces[..|pieces| - 1]), pieces[|pieces| - 1];
      var last := |slices| - 1;
      if slices != [] && slices[last].block == piece.block && slices[last].end == piece.start
      then slices[last := slices[last].(end := piece.end)]
      else slices + [BlockSlice(piece.block, piece.start, piece.end)]
  }

  method MergeSlices(pieces: seq<Piece>) returns (slices: seq<BlockSlice>)
    ensures slices == MergedSlices(pieces)
  {
    slices := [];
    for i := 0 to |pieces|
      invariant slices == MergedSlices(pieces[..i])
    {
      var piece, last := pieces[i], |slices| - 1;
      assert pieces[..i + 1][..i] == pieces[..i];
      if slices != [] && slices[last].block == piece.block && slices[last].end == piece.start {
        slices := slices[last := slices[last].(end := piece.end)];
      } else {
        slices := slices + [BlockSlice(piece.block, piece.start, piece.end)];
      }
    }
    assert pieces[..|pieces|] == pieces;
  }

  predicate SliceCovers(slice: BlockSlice, block: Str, at: nat) {
    slice.block == block && slice.start <= at < slice.end
  }

  predicate PieceCovers(piece: Piece, block: Str, at: nat) {
    piece.block == block && piece.start <= at < piece.end
  }

  predicate SomeSliceCovers(slices: seq<BlockSlice>, block: Str, at: nat) {
    exists i :: 0 <= i < |slices| && SliceCovers(slices[i], block, at)
  }

  predicate SomePieceCovers(pieces: seq<Piece>, block: Str, at: nat) {
    exists i :: 0 <= i < |pieces| && PieceCovers(pieces[i], block, at)
  }

  // No two neighbours can be merged.
  predicate Unmergeable(slices: seq<BlockSlice>) {
    && (forall i :: 0 < i < |slices| ==> slices[i - 1].block != slices[i].block || slices[i - 1].end != slices[i].start)
    && (forall i :: 0 <= i < |slices| ==> slices[i].start <= slices[i].end)
  }

  lemma {:induction false} MergedUnmergeable(pieces: seq<Piece>)
    requires forall i :: 0 <= i < |pieces| ==> pieces[i].start <= pieces[i].end
    ensures Unmergeable(MergedSlices(pieces))
  {
    if pieces != [] { MergedUnmergeable(pieces[..|pieces| - 1]); }
  }

  lemma SomeCoversLast(slices: seq<BlockSlice>, block: Str, at: nat)
    requires slices != []
    ensures SomeSliceCovers(slices, block, at)
      <==> SomeSliceCovers(slices[..|slices| - 1], block, at) || SliceCovers(slices[|slices| - 1], block, at)
  {
    var front := slices[..|slices| - 1];
    if i :| 0 <= i < |front| && SliceCovers(front[i], block, at) { assert SliceCovers(slices[i], block, at); }
  }

  lemma SomePieceLast(pieces: seq<Piece>, block: Str, at: nat)
    requires pieces != []
    ensures SomePieceCovers(pieces, block, at)
      <==> SomePieceCovers(pieces[..|pieces| - 1], block, at) || PieceCovers(pieces[|pieces| - 1], block, at)
  {
    var front := pieces[..|pieces| - 1];
    if i :| 0 <= i < |front| && PieceCovers(front[i], block, at) { assert PieceCovers(pieces[i], block, at); }
  }

  /** Merging keeps the covered positions and leaves no two neighbours that could be merged. */
  lemma {:induction false} MergedSlicesCover(pieces: seq<Piece>, block: Str, at: nat)
    requires forall i :: 0 <= i < |pieces| ==> pieces[i].start <= pieces[i].end
    ensures Unmergeable(MergedSlices(pieces))
    ensures SomeSliceCovers(MergedSlices(pieces), block, at) <==> SomePieceCovers(pieces, block, at)
  {
    MergedUnmergeable(pieces);
    if pieces != [] {
      var front := pieces[..|pieces| - 1];
      MergedSlicesCover(front, block, at);
      SomePieceLast(pieces, block, at);
      var before, after := MergedSlices(front), MergedSlices(pieces);
      SomeCoversLast(after, block, at);
      if |after| == |before| {
        SomeCoversLast(before, block, at);
        assert after[..|after| - 1] == before[..|before| - 1];
        assert before[|before| - 1].start <= before[|before| - 1].end;
      } else {
        assert after[..|after| - 1] == before;
      }
    }
  }

  // ---------------------------------------------------------------- logical sections

  datatype Logical = Logical(title: Str, anchor: Str, path: seq<Heading>, pieces: seq<Piece>)

  const DOCUMENT_ANCHOR: Str := [100, 111, 99, 117, 109, 101, 110, 116]

  function HeadingsOf(blocks: seq<Block>): seq<Heading> {
    if blocks == [] then []
    else
      var last := blocks[|blocks| - 1];
      HeadingsOf(blocks[..|blocks| - 1]) + (if last.HeadingBlock? then [last.heading] else [])
  }

  function BlockPieces(blocks: seq<Block>): seq<Piece> {
    if blocks == [] then [] else BlockPieces(blocks[..|blocks| - 1]) + [BlockPiece(blocks[|blocks| - 1])]
  }

  // [...path], the headings on the stack from the outermost in
  function PathOf(headings: seq<Heading>, stack: Stack): seq<Heading> {
    if stack.Empty? then []
    else PathOf(headings, stack.below) + (if stack.top < |headings| then [headings[stack.top]] else [])
  }

  function Closed(sections: seq<Logical>, current: Logical): seq<Logical> {
    if current.pieces != [] then sections + [current] else sections
  }

  // The sections closed so far and the open one.
  function Split(title: Str, blocks: seq<Block>): (seq<Logical>, Logical) {
    if blocks == [] then ([], Logical(title, DOCUMENT_ANCHOR, [], []))
    else
      var (sections, current) := Split(title, blocks[..|blocks| - 1]);
      var block := blocks[|blocks| - 1];
      if block.HeadingBlock? then
        var headings := HeadingsOf(blocks);
        (Closed(sections, current),
         Logical(block.heading.text, block.heading.anchor, PathOf(headings, StackAt(headings, |headings|)), [BlockPiece(block)]))
      else (sections, current.(pieces := current.pieces + [BlockPiece(block)]))
  }

  function LogicalSections(title: Str, blocks: seq<Block>): seq<Logical> {
    var (sections, current) := Split(title, blocks);
    Closed(sections, current)
  }

  lemma {:induction false} StackPrefix(headings: seq<Heading>, more: seq<Heading>, n: nat)
    requires n <= |headings|
    ensures StackAt(headings + more, n) == StackAt(headings, n)
  {
    if n > 0 { StackPrefix(headings, more, n - 1); }
  }

  lemma {:induction false} PathPrefix(headings: seq<Heading>, more: seq<Heading>, stack: Stack, bound: nat)
    requires Rises(headings, stack, bound)
    ensures PathOf(headings + more, stack) == PathOf(headings, stack)
  {
    if stack.Push? { PathPrefix(headings, more, stack.below, stack.top); }
  }

  method PopPath(path: seq<Heading>, level: nat, ghost headings: seq<Heading>, ghost stack: Stack, ghost bound: nat)
    returns (rest: seq<Heading>)
    requires Rises(headings, stack, bound) && path == PathOf(headings, stack)
    ensures rest == PathOf(headings, PopTo(stack, level))
  {
    rest := path;
    ghost var s, b := stack, bound;
    while rest != [] && rest[|rest| - 1].level >= level
      invariant Rises(headings, s, b) && rest == PathOf(headings, s) && PopTo(s, level) == PopTo(stack, level)
      decreases |rest|
    {
      rest := rest[..|rest| - 1];
      s, b := s.below, s.top;
    }
  }

  method SplitSections(title: Str, blocks: seq<Block>) returns (sections: seq<Logical>)
    ensures sections == LogicalSections(title, blocks)
  {
    sections := [];
    var path: seq<Heading> := [];
    var current := Logical(title, DOCUMENT_ANCHOR, [], []);
    ghost var headings: seq<Heading> := [];
    for i := 0 to |blocks|
      invariant (sections, current) == Split(title, blocks[..i])
      invariant headings == HeadingsOf(blocks[..i]) && path == PathOf(headings, StackAt(headings, |headings|))
    {
      var block := blocks[i];
      assert blocks[..i + 1][..i] == blocks[..i];
      if block.HeadingBlock? {
        if current.pieces != [] { sections := sections + [current]; }
        StackRises(headings, |headings|);
        PopRises(headings, StackAt(headings, |headings|), |headings|, block.heading.level);
        path := PopPath(path, block.heading.level, headings, StackAt(headings, |headings|), |headings|);
        PushedPath(headings, block.heading);
        path := path + [block.heading];
        headings := headings + [block.heading];
        current := Logical(block.heading.text, block.heading.anchor, path, [BlockPiece(block)]);
      } else {
        current := current.(pieces := current.pieces + [BlockPiece(block)]);
      }
    }
    assert blocks[..|blocks|] == blocks;
    if current.pieces != [] { sections := sections + [current]; }
  }

  lemma PushedPath(headings: seq<Heading>, heading: Heading)
    ensures var longer := headings + [heading];
            PathOf(longer, StackAt(longer, |longer|))
            == PathOf(headings, PopTo(StackAt(headings, |headings|), heading.level)) + [heading]
  {
    StackPrefix(headings, [heading], |headings|);
    StackRises(headings, |headings|);
    PopRises(headings, StackAt(headings, |headings|), |headings|, heading.level);
    PathPrefix(headings, [heading], PopTo(StackAt(headings, |headings|), heading.level), |headings|);
  }

  // ---------------------------------------------------------------- what the logical sections are

  function PiecesOf(sections: seq<Logical>): seq<Piece> {
    if sections == [] then [] else PiecesOf(sections[..|sections| - 1]) + sections[|sections| - 1].pieces
  }

  // The path of heading k, as the outline has it.
  function HeadingPath(headings: seq<Heading>, k: nat): seq<Heading>
    requires k < |headings|
  {
    PathOf(headings, StackAt(headings, k + 1))
  }

  // Section offset + k belongs to heading k; before them there may be one for the text above all headings.
  ghost predicate FollowHeadings(headings: seq<Heading>, sections: seq<Logical>, offset: nat) {
    && offset <= 1 && |sections| == offset + |headings|
    && (offset == 1 ==> sections[0].path == [] && sections[0].anchor == DOCUMENT_ANCHOR)
    && forall i :: offset <= i < |sections| ==> SectionOf(headings, i - offset, sections[i])
  }

  predicate SectionOf(headings: seq<Heading>, k: nat, section: Logical) {
    && k < |headings| && section.title == headings[k].text && section.anchor == headings[k].anchor
    && section.path == HeadingPath(headings, k) && section.pieces != [] && section.pieces[0].atomic
  }

  lemma {:induction false} SplitKeepsPieces(title: Str, blocks: seq<Block>)
    ensures var (sections, current) := Split(title, blocks);
            PiecesOf(sections) + current.pieces == BlockPieces(blocks)
    ensures PiecesOf(LogicalSections(title, blocks)) == BlockPieces(blocks)
  {
    if blocks != [] { SplitKeepsPieces(title, blocks[..|blocks| - 1]); }
    var (sections, current) := Split(title, blocks);
    assert Closed(sections, current) == sections + [current] ==> Closed(sections, current)[..|sections|] == sections;
  }

  // The section for the text above all headings has the title of the document.
  predicate StartsWithTitle(title: Str, sections: seq<Logical>) {
    sections != [] && sections[0].title == title && sections[0].anchor == Ascii("document") && sections[0].path == []
  }

  /** Text above all headings stands in a section of its own, with the document's title. */
  lemma {:induction false} LeadingTextHasTitle(title: Str, blocks: seq<Block>)
    requires blocks != [] && !blocks[0].HeadingBlock?
    ensures var (sections, current) := Split(title, blocks);
            && StartsWithTitle(title, sections + [current]) && (sections == [] ==> current.pieces != [])
            && StartsWithTitle(title, LogicalSections(title, blocks))
  {
    var anchor := Ascii("document");
    assert anchor[0] == 100 && anchor[1] == 111 && anchor[2] == 99 && anchor[3] == 117 && anchor[4] == 109
        && anchor[5] == 101 && anchor[6] == 110 && anchor[7] == 116;
    assert DOCUMENT_ANCHOR == anchor;
    var front := blocks[..|blocks| - 1];
    if front != [] {
      LeadingTextHasTitle(title, front);
    } else {
      assert Split(title, front) == ([], Logical(title, DOCUMENT_ANCHOR, [], []));
    }
  }

  // Text stands above the first heading.
  function Offset(blocks: seq<Block>): nat {
    if blocks != [] && !blocks[0].HeadingBlock? then 1 else 0
  }

  lemma HeadingPathPrefix(headings: seq<Heading>, more: seq<Heading>, k: nat)
    requires k < |headings|
    ensures HeadingPath(headings + more, k) == HeadingPath(headings, k)
  {
    StackPrefix(headings, more, k + 1);
    StackRises(headings, k + 1);
    PathPrefix(headings, more, StackAt(headings, k + 1), k + 1);
  }

  // One more heading and its section.
  lemma FollowOneMore(headings: seq<Heading>, sections: seq<Logical>, offset: nat, heading: Heading, section: Logical)
    requires FollowHeadings(headings, sections, offset) && SectionOf(headings + [heading], |headings|, section)
    ensures FollowHeadings(headings + [heading], sections + [section], offset)
  {
    forall i | offset <= i < |sections| ensures SectionOf(headings + [heading], i - offset, sections[i]) {
      HeadingPathPrefix(headings, [heading], i - offset);
    }
  }

  // More text in the last heading's section.
  lemma FollowMoreText(headings: seq<Heading>, sections: seq<Logical>, last: Logical, offset: nat, piece: Piece)
    requires FollowHeadings(headings, sections + [last], offset) && headings != []
    ensures FollowHeadings(headings, sections + [last.(pieces := last.pieces + [piece])], offset)
  {
    var before := sections + [last];
    assert SectionOf(headings, |sections| - offset, before[|sections|]);
    forall i | offset <= i < |sections| ensures SectionOf(headings, i - offset, sections[i]) {
      assert before[i] == sections[i];
    }
    assert offset == 1 && |sections| > 0 ==> before[0] == sections[0];
  }

  // What has been split so far: before the first heading all text is in the open section.
  ghost predicate SplitSoFar(blocks: seq<Block>, headings: seq<Heading>, sections: seq<Logical>, current: Logical) {
    if headings == [] then
      && sections == [] && current.path == [] && current.anchor == DOCUMENT_ANCHOR
      && (current.pieces == [] <==> blocks == []) && Offset(blocks) == (if blocks == [] then 0 else 1)
    else FollowHeadings(headings, sections + [current], Offset(blocks))
  }

  lemma {:induction false} SplitFollowsHeadings(title: Str, blocks: seq<Block>)
    ensures var (sections, current) := Split(title, blocks);
            SplitSoFar(blocks, HeadingsOf(blocks), sections, current)
  {
    if blocks != [] {
      var front, block := blocks[..|blocks| - 1], blocks[|blocks| - 1];
      SplitFollowsHeadings(title, front);
      var (sections, current) := Split(title, front);
      assert front != [] ==> Offset(blocks) == Offset(front);
      if block.HeadingBlock? {
        SplitAtHeading(title, blocks, sections, current);
      } else if HeadingsOf(front) != [] {
        FollowMoreText(HeadingsOf(front), sections, current, Offset(front), BlockPiece(block));
        assert HeadingsOf(blocks) == HeadingsOf(front);
      }
    }
  }

  lemma SplitAtHeading(title: Str, blocks: seq<Block>, sections: seq<Logical>, current: Logical)
    requires blocks != [] && blocks[|blocks| - 1].HeadingBlock?
    requires var front := blocks[..|blocks| - 1];
             && Split(title, front) == (sections, current) && SplitSoFar(front, HeadingsOf(front), sections, current)
             && (front != [] ==> Offset(blocks) == Offset(front))
    ensures var (sections', current') := Split(title, blocks);
            SplitSoFar(blocks, HeadingsOf(blocks), sections', current')
  {
    var before, heading := HeadingsOf(blocks[..|blocks| - 1]), blocks[|blocks| - 1].heading;
    var (sections', current') := Split(title, blocks);
    if before != [] { assert SectionOf(before, |sections| - Offset(blocks), (sections + [current])[|sections|]); }
    assert FollowHeadings(before, sections', Offset(blocks));
    FollowOneMore(before, sections', Offset(blocks), heading, current');
  }

  /** There is one logical section for the text above all headings, if there is any, and then one for
      each heading, which starts with it and has the path the outline gives it. */
  lemma SectionsFollowHeadings(title: Str, blocks: seq<Block>)
    ensures FollowHeadings(HeadingsOf(blocks), LogicalSections(title, blocks), Offset(blocks))
  {
    SplitFollowsHeadings(title, blocks);
    var (sections, current) := Split(title, blocks);
    if HeadingsOf(blocks) != [] {
      var i := |sections|;
      assert SectionOf(HeadingsOf(blocks), i - Offset(blocks), (sections + [current])[i]);
    }
  }

  // ---------------------------------------------------------------- the document

  datatype Section = Section(
    ordinal: nat, title: Str, anchor: Str, path: seq<Heading>,
    slices: seq<BlockSlice>, content: Str, characterCount: nat)

  datatype OptionError = TargetNotPositive | OversizedBelowTarget

  datatype Segmented = Segmented(sections: seq<Section>, oversized: seq<nat>)

  // The section for these pieces of this logical section.
  predicate SectionFor(logical: Logical, pieces: seq<Piece>, ordinal: nat, section: Section) {
    && section.ordinal == ordinal && section.title == logical.title && section.anchor == logical.anchor
    && section.path == logical.path && section.slices == MergedSlices(pieces)
    && section.content == Content(pieces) && section.characterCount == |section.content|
  }

  function Contents(sections: seq<Section>): Str {
    if sections == [] then [] else Contents(sections[..|sections| - 1]) + sections[|sections| - 1].content
  }

  // Sections, the pieces packed into each, and the logical section each comes from.
  ghost predicate SectionsFrom(logical: seq<Logical>, sections: seq<Section>, packed: seq<seq<Piece>>, from: seq<nat>) {
    && |packed| == |from| == |sections|
    && (forall i :: 0 <= i < |sections| ==>
          from[i] < |logical| && SectionFor(logical[from[i]], packed[i], i, sections[i]))
    && (forall i, j :: 0 <= i < j < |from| ==> from[i] <= from[j])
  }

  // Every logical section that starts with an atomic piece has a section.
  ghost predicate NoneSkipped(logical: seq<Logical>, upto: nat, from: seq<nat>) {
    forall k :: 0 <= k < upto <= |logical| && logical[k].pieces != [] && logical[k].pieces[0].atomic ==> k in from
  }

  predicate AllFit(packed: seq<seq<Piece>>, target: nat) {
    forall i :: 0 <= i < |packed| ==> Fits(packed[i], target)
  }

  // What the first `upto` logical sections become.
  ghost predicate Built(
    logical: seq<Logical>, upto: nat, target: nat,
    sections: seq<Section>, packed: seq<seq<Piece>>, from: seq<nat>, groups: seq<seq<Piece>>)
  {
    && upto <= |logical| && SectionsFrom(logical, sections, packed, from) && (forall i :: 0 <= i < |from| ==> from[i] < upto)
    && NoneSkipped(logical, upto, from) && AllFit(packed, target)
    && AreGroups(PiecesOf(logical[..upto]), groups) && Flatten(packed) == Flatten(groups)
  }

  lemma {:induction false} FlattenConcat(a: seq<seq<Piece>>, b: seq<seq<Piece>>)
    ensures Flatten(a + b) == Flatten(a) + Flatten(b)
  {
    if b == [] {
      assert a + b == a;
    } else {
      assert (a + b)[..|a + b| - 1] == a + b[..|b| - 1];
      FlattenConcat(a, b[..|b| - 1]);
    }
  }

  lemma GroupsConcat(a: seq<Piece>, b: seq<Piece>, groups: seq<seq<Piece>>, more: seq<seq<Piece>>)
    requires AreGroups(a, groups) && AreGroups(b, more)
    ensures AreGroups(a + b, groups + more)
  {
    forall i | 0 <= i < |a + b| ensures IsGroup((a + b)[i], (groups + more)[i]) {
      if i < |a| { assert IsGroup(a[i], groups[i]); } else { assert IsGroup(b[i - |a|], more[i - |a|]); }
    }
  }

  lemma {:induction false} AtomicPieceIsPacked(pieces: seq<Piece>, groups: seq<seq<Piece>>)
    requires AreGroups(pieces, groups) && pieces != [] && pieces[0].atomic
    ensures Flatten(groups) != []
  {
    if |pieces| > 1 {
      AtomicPieceIsPacked(pieces[..|pieces| - 1], groups[..|groups| - 1]);
    } else {
      assert IsGroup(pieces[0], groups[0]);
    }
  }

  lemma {:induction false} ContentsAreContent(sections: seq<Section>, packed: seq<seq<Piece>>)
    requires |packed| == |sections| && forall i :: 0 <= i < |sections| ==> sections[i].content == Content(packed[i])
    ensures Contents(sections) == ContentOf(packed)
  {
    if sections != [] { ContentsAreContent(sections[..|sections| - 1], packed[..|packed| - 1]); }
  }

  // One more logical section, packed.
  lemma BuiltOneMore(
    logical: seq<Logical>, k: nat, target: nat,
    sections: seq<Section>, packed: seq<seq<Piece>>, from: seq<nat>, groups: seq<seq<Piece>>,
    newSections: seq<Section>, newPacked: seq<seq<Piece>>, newGroups: seq<seq<Piece>>) returns (newFrom: seq<nat>)
    requires k < |logical| && Built(logical, k, target, sections, packed, from, groups)
    requires AreGroups(logical[k].pieces, newGroups) && Flatten(newPacked) == Flatten(newGroups) && AllFit(newPacked, target)
    requires |newSections| == |newPacked|
    requires forall i :: 0 <= i < |newPacked| ==> SectionFor(logical[k], newPacked[i], |sections| + i, newSections[i])
    ensures Built(logical, k + 1, target, sections + newSections, packed + newPacked, from + newFrom, groups + newGroups)
  {
    newFrom := seq(|newPacked|, i => k);
    GroupsOneMore(logical, k, packed, groups, newPacked, newGroups);
    assert newPacked != [] ==> newFrom[0] == k;
    NoneSkippedOneMore(logical, k, from, newFrom, newGroups);
    SectionsOneMore(logical, k, sections, packed, from, newSections, newPacked, newFrom);
  }

  lemma GroupsOneMore(
    logical: seq<Logical>, k: nat, packed: seq<seq<Piece>>, groups: seq<seq<Piece>>,
    newPacked: seq<seq<Piece>>, newGroups: seq<seq<Piece>>)
    requires k < |logical| && AreGroups(PiecesOf(logical[..k]), groups) && Flatten(packed) == Flatten(groups)
    requires AreGroups(logical[k].pieces, newGroups) && Flatten(newPacked) == Flatten(newGroups)
    ensures AreGroups(PiecesOf(logical[..k + 1]), groups + newGroups)
    ensures Flatten(packed + newPacked) == Flatten(groups + newGroups)
  {
    assert logical[..k + 1][..k] == logical[..k];
    GroupsConcat(PiecesOf(logical[..k]), logical[k].pieces, groups, newGroups);
    FlattenConcat(packed, newPacked);
    FlattenConcat(groups, newGroups);
  }

  lemma NoneSkippedOneMore(logical: seq<Logical>, k: nat, from: seq<nat>, newFrom: seq<nat>, newGroups: seq<seq<Piece>>)
    requires k < |logical| && NoneSkipped(logical, k, from) && AreGroups(logical[k].pieces, newGroups)
    requires Flatten(newGroups) != [] ==> k in newFrom
    ensures NoneSkipped(logical, k + 1, from + newFrom)
  {
    if logical[k].pieces != [] && logical[k].pieces[0].atomic { AtomicPieceIsPacked(logical[k].pieces, newGroups); }
  }

  lemma SectionsOneMore(
    logical: seq<Logical>, k: nat, sections: seq<Section>, packed: seq<seq<Piece>>, from: seq<nat>,
    newSections: seq<Section>, newPacked: seq<seq<Piece>>, newFrom: seq<nat>)
    requires k < |logical| && SectionsFrom(logical, sections, packed, from) && (forall i :: 0 <= i < |from| ==> from[i] < k)
    requires |newSections| == |newPacked| == |newFrom| && forall i :: 0 <= i < |newFrom| ==> newFrom[i] == k
    requires forall i :: 0 <= i < |newPacked| ==> SectionFor(logical[k], newPacked[i], |sections| + i, newSections[i])
    ensures SectionsFrom(logical, sections + newSections, packed + newPacked, from + newFrom)
  {
  }

  // The sections of one logical section.
  method MakeSections(logical: Logical, packed: seq<seq<Piece>>, ordinal: nat) returns (sections: seq<Section>)
    ensures |sections| == |packed|
    ensures forall i :: 0 <= i < |packed| ==> SectionFor(logical, packed[i], ordinal + i, sections[i])
  {
    sections := [];
    for n := 0 to |packed|
      invariant |sections| == n
      invariant forall i :: 0 <= i < n ==> SectionFor(logical, packed[i], ordinal + i, sections[i])
    {
      var slices := MergeSlices(packed[n]);
      var content := Content(packed[n]);
      sections := sections
        + [Section(ordinal + n, logical.title, logical.anchor, logical.path, slices, content, |content|)];
    }
  }

  function IndicesAbove(sections: seq<Section>, limit: nat): seq<nat> {
    if sections == [] then []
    else
      var n := |sections| - 1;
      IndicesAbove(sections[..n], limit) + (if sections[n].characterCount > limit then [n] else [])
  }

  lemma {:induction false} InIndicesAbove(sections: seq<Section>, limit: nat, k: nat)
    ensures k in IndicesAbove(sections, limit) <==> k < |sections| && sections[k].characterCount > limit
  {
    if sections != [] { InIndicesAbove(sections[..|sections| - 1], limit, k); }
  }

  lemma {:induction false} IndicesAboveRise(sections: seq<Section>, limit: nat)
    ensures Rising(IndicesAbove(sections, limit))
  {
    if sections != [] {
      var n := |sections| - 1;
      IndicesAboveRise(sections[..n], limit);
      forall k | k in IndicesAbove(sections[..n], limit) ensures k < n { InIndicesAbove(sections[..n], limit, k); }
      if sections[n].characterCount > limit { RisingOneMore(IndicesAbove(sections[..n], limit), n); }
    }
  }

  predicate Rising(indices: seq<nat>) {
    forall i, j :: 0 <= i < j < |indices| ==> indices[i] < indices[j]
  }

  lemma RisingOneMore(indices: seq<nat>, n: nat)
    requires Rising(indices) && forall k :: k in indices ==> k < n
    ensures Rising(indices + [n])
  {
    forall i | 0 <= i < |indices| ensures indices[i] < n { assert indices[i] in indices; }
  }

  // sections.filter((section) => section.characterCount > limit)
  method OversizedSections(sections: seq<Section>, limit: nat) returns (oversized: seq<nat>)
    ensures oversized == IndicesAbove(sections, limit)
    ensures forall k: nat :: k in oversized <==> k < |sections| && sections[k].characterCount > limit
    ensures Rising(oversized)
  {
    oversized := [];
    for n := 0 to |sections|
      invariant oversized == IndicesAbove(sections[..n], limit)
    {
      assert sections[..n + 1][..n] == sections[..n];
      if sections[n].characterCount > limit { oversized := oversized + [n]; }
    }
    assert sections[..|sections|] == sections;
    IndicesAboveRise(sections, limit);
    forall k: nat ensures k in oversized <==> k < |sections| && sections[k].characterCount > limit {
      InIndicesAbove(sections, limit, k);
    }
  }

  // ---------------------------------------------------------------- what is reported

  // The headings, code blocks and tables that print to more than the limit.
  function OversizedBlocks(blocks: seq<Block>, limit: nat): seq<Block> {
    if blocks == [] then []
    else
      var last := blocks[|blocks| - 1];
      OversizedBlocks(blocks[..|blocks| - 1], limit)
      + (if !last.ProseBlock? && |Render(last)| > limit then [last] else [])
  }

  function OversizedPieces(pieces: seq<Piece>, limit: nat): seq<Piece> {
    if pieces == [] then []
    else
      var last := pieces[|pieces| - 1];
      OversizedPieces(pieces[..|pieces| - 1], limit) + (if last.atomic && |last.text| > limit then [last] else [])
  }

  lemma {:induction false} OversizedPiecesConcat(a: seq<Piece>, b: seq<Piece>, limit: nat)
    ensures OversizedPieces(a + b, limit) == OversizedPieces(a, limit) + OversizedPieces(b, limit)
  {
    if b == [] {
      assert a + b == a;
    } else {
      assert (a + b)[..|a + b| - 1] == a + b[..|b| - 1];
      OversizedPiecesConcat(a, b[..|b| - 1], limit);
    }
  }

  lemma {:induction false} OversizedPiecesOfBlocks(blocks: seq<Block>, limit: nat)
    ensures OversizedPieces(BlockPieces(blocks), limit) == BlockPieces(OversizedBlocks(blocks, limit))
  {
    if blocks != [] {
      var front, last := blocks[..|blocks| - 1], blocks[|blocks| - 1];
      OversizedPiecesOfBlocks(front, limit);
      var pieces := BlockPieces(blocks);
      assert pieces[..|pieces| - 1] == BlockPieces(front);
      var kept := OversizedBlocks(front, limit);
      assert (kept + [last])[..|kept + [last]| - 1] == kept;
      assert OversizedPieces(pieces, limit)
          == BlockPieces(kept) + if !last.ProseBlock? && |Render(last)| > limit then [BlockPiece(last)] else [];
      assert kept + [] == kept;
    }
  }

  lemma {:induction false} SlicesAreNotOversized(original: Piece, slices: seq<Piece>, upto: int, limit: nat)
    requires Sliced(original, slices, upto)
    ensures OversizedPieces(slices, limit) == []
  {
    if slices != [] {
      SlicesAreNotOversized(original, slices[..|slices| - 1], slices[|slices| - 1].start, limit);
    }
  }

  lemma {:induction false} OversizedPiecesOfGroups(pieces: seq<Piece>, groups: seq<seq<Piece>>, limit: nat)
    requires AreGroups(pieces, groups)
    ensures OversizedPieces(Flatten(groups), limit) == OversizedPieces(pieces, limit)
  {
    if pieces != [] {
      var n := |pieces| - 1;
      OversizedPiecesOfGroups(pieces[..n], groups[..n], limit);
      OversizedPiecesConcat(Flatten(groups[..n]), groups[n], limit);
      assert IsGroup(pieces[n], groups[n]);
      if !pieces[n].atomic { SlicesAreNotOversized(pieces[n], groups[n], |pieces[n].text|, limit); }
    }
  }

  lemma {:induction false} SmallSectionsHoldNone(section: seq<Piece>, limit: nat)
    requires Characters(section) <= limit
    ensures OversizedPieces(section, limit) == []
  {
    if section != [] {
      var front, last := section[..|section| - 1], section[|section| - 1];
      assert front + [last] == section;
      CharactersAppend(front, last);
      SmallSectionsHoldNone(front, limit);
    }
  }

  // Of the pieces of a section that fits, the oversized are all or none.
  lemma OversizedPiecesOfSection(section: seq<Piece>, target: nat, limit: nat)
    requires Fits(section, target) && target <= limit
    ensures OversizedPieces(section, limit) == if Characters(section) > limit then section else []
    ensures Characters(section) > limit ==> |section| == 1
  {
    if Characters(section) <= limit { SmallSectionsHoldNone(section, limit); }
  }

  // The sections at the given indices hold these pieces, one each.
  predicate Single(packed: seq<seq<Piece>>, indices: seq<nat>, pieces: seq<Piece>) {
    && |indices| == |pieces|
    && forall i :: 0 <= i < |indices| ==> indices[i] < |packed| && packed[indices[i]] == [pieces[i]]
  }

  lemma {:induction false} SectionsAboveAre(sections: seq<Section>, packed: seq<seq<Piece>>, target: nat, limit: nat)
    requires |packed| == |sections| && AllFit(packed, target) && target <= limit
    requires forall i :: 0 <= i < |sections| ==> sections[i].characterCount == Characters(packed[i])
    ensures Single(packed, IndicesAbove(sections, limit), OversizedPieces(Flatten(packed), limit))
  {
    if sections != [] {
      var n := |sections| - 1;
      SectionsAboveAre(sections[..n], packed[..n], target, limit);
      OversizedPiecesConcat(Flatten(packed[..n]), packed[n], limit);
      OversizedPiecesOfSection(packed[n], target, limit);
    }
  }

  // The reported sections are the oversized blocks, in order.
  ghost predicate Reports(blocks: seq<Block>, limit: nat, packed: seq<seq<Piece>>, reported: seq<nat>) {
    Single(packed, reported, BlockPieces(OversizedBlocks(blocks, limit)))
  }

  lemma OversizedBlocksAreReported(
    blocks: seq<Block>, sections: seq<Section>, packed: seq<seq<Piece>>, groups: seq<seq<Piece>>, target: nat, limit: nat)
    requires |packed| == |sections| && AllFit(packed, target) && target <= limit
    requires forall i :: 0 <= i < |sections| ==> sections[i].characterCount == Characters(packed[i])
    requires AreGroups(BlockPieces(blocks), groups) && Flatten(packed) == Flatten(groups)
    ensures Reports(blocks, limit, packed, IndicesAbove(sections, limit))
  {
    SectionsAboveAre(sections, packed, target, limit);
    OversizedPiecesOfGroups(BlockPieces(blocks), groups, limit);
    OversizedPiecesOfBlocks(blocks, limit);
  }

  lemma {:induction false} InOversizedBlocks(blocks: seq<Block>, block: Block, limit: nat)
    ensures block in OversizedBlocks(blocks, limit) <==> block in blocks && !block.ProseBlock? && |Render(block)| > limit
  {
    if blocks != [] {
      var front, last := blocks[..|blocks| - 1], blocks[|blocks| - 1];
      InOversizedBlocks(front, block, limit);
      assert block in blocks <==> block in front || block == last;
    }
  }

  lemma {:induction false} RepeatIs(u: Unit, n: nat)
    ensures |Repeat(u, n)| == n && forall k :: 0 <= k < n ==> Repeat(u, n)[k] == u
  {
    if n > 0 { RepeatIs(u, n - 1); }
  }

  /** A heading prints as its marks, as many as its level, a blank, and its text. */
  lemma HeadingPrints(id: Str, heading: Heading)
    ensures var text, level := Render(HeadingBlock(id, heading)), heading.level;
            && |text| == level + 1 + |heading.text| && (forall k :: 0 <= k < level ==> text[k] == 35)
            && text[level] == 32 && text[level + 1..] == heading.text
  {
    RepeatIs(HASH, heading.level);
  }

  /** A heading is oversized when its marks, the blank and its text are longer than the limit; a
      document of just one such heading has it reported. */
  lemma LongHeadingsAreOversized(blocks: seq<Block>, id: Str, heading: Heading, limit: nat)
    ensures var block := HeadingBlock(id, heading);
            && (block in OversizedBlocks(blocks, limit) <==> block in blocks && heading.level + |heading.text| >= limit)
            && (OversizedBlocks([block], limit) == [block] <==> heading.level + |heading.text| >= limit)
  {
    var block := HeadingBlock(id, heading);
    HeadingPrints(id, heading);
    InOversizedBlocks(blocks, block, limit);
    assert [block][..0] == [];
    assert OversizedBlocks([block], limit)
        == OversizedBlocks([], limit) + if |Render(block)| > limit then [block] else [];
  }

  /** Segmentation loses nothing but whitespace: the sections are packed, in order, from what their
      logical sections hold, each fits its target or is one atomic piece, and exactly the sections
      above the oversized limit are reported, which are, one for one and in order, the headings, code
      blocks and tables that print to more. */
  method SegmentDocument(title: Str, blocks: seq<Block>, target: int, oversized: int)
    returns (r: Result<Segmented, OptionError>, ghost packed: seq<seq<Piece>>, ghost from: seq<nat>, ghost groups: seq<seq<Piece>>)
    ensures r == Err(TargetNotPositive) <==> target < 1
    ensures r == Err(OversizedBelowTarget) <==> 1 <= target && oversized < target
    ensures r.Ok? ==>
              && SectionsFrom(LogicalSections(title, blocks), r.value.sections, packed, from)
              && NoneSkipped(LogicalSections(title, blocks), |LogicalSections(title, blocks)|, from)
              && AreGroups(BlockPieces(blocks), groups) && Flatten(packed) == Flatten(groups)
              && Squash(Contents(r.value.sections)) == Squash(TextOf(BlockPieces(blocks)))
    ensures r.Ok? ==> AllFit(packed, target) && |packed| == |r.value.sections|
    ensures r.Ok? ==>
              && (forall k: nat :: k in r.value.oversized <==> k < |packed| && r.value.sections[k].characterCount > oversized)
              && Rising(r.value.oversized)
              && (forall k: nat :: k in r.value.oversized ==> |packed[k]| == 1 && packed[k][0].atomic)
              && Reports(blocks, oversized, packed, r.value.oversized)
  {
    packed, from, groups := [], [], [];
    if target < 1 { return Err(TargetNotPositive), packed, from, groups; }
    if oversized < target { return Err(OversizedBelowTarget), packed, from, groups; }
    var logical := SplitSections(title, blocks);
    var sections: seq<Section> := [];
    for k := 0 to |logical|
      invariant Built(logical, k, target, sections, packed, from, groups)
    {
      var newPacked, newGroups := PackLogicalSection(logical[k].pieces, target);
      var newSections := MakeSections(logical[k], newPacked, |sections|);
      ghost var newFrom := BuiltOneMore(logical, k, target, sections, packed, from, groups, newSections, newPacked, newGroups);
      sections, packed, from, groups := sections + newSections, packed + newPacked, from + newFrom, groups + newGroups;
    }
    var above := OversizedSections(sections, oversized);
    Lossless(title, blocks, target, sections, packed, from, groups);
    r := Ok(Segmented(sections, above));
    forall i | 0 <= i < |sections|
      ensures sections[i].characterCount == Characters(packed[i])
      ensures sections[i].characterCount > oversized ==> |packed[i]| == 1 && packed[i][0].atomic
    {
      assert SectionFor(logical[from[i]], packed[i], i, sections[i]) && Fits(packed[i], target);
    }
    OversizedBlocksAreReported(blocks, sections, packed, groups, target, oversized);
  }

  lemma Lossless(
    title: Str, blocks: seq<Block>, target: nat,
    sections: seq<Section>, packed: seq<seq<Piece>>, from: seq<nat>, groups: seq<seq<Piece>>)
    requires var logical := LogicalSections(title, blocks);
             Built(logical, |logical|, target, sections, packed, from, groups)
    ensures AreGroups(BlockPieces(blocks), groups)
    ensures Squash(Contents(sections)) == Squash(TextOf(BlockPieces(blocks)))
  {
    var logical := LogicalSections(title, blocks);
    assert logical[..|logical|] == logical;
    SplitKeepsPieces(title, blocks);
    forall i | 0 <= i < |sections| ensures sections[i].content == Content(packed[i]) {
      assert SectionFor(logical[from[i]], packed[i], i, sections[i]);
    }
    ContentsAreContent(sections, packed);
    SquashSections(packed);
    SquashGroups(BlockPieces(blocks), groups);
  }
}
