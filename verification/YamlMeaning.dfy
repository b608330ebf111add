/** What the value of a YAML block is, in terms of the block: which fields an object has, with which values, in which order. */
module YamlMeaning {
  import opened Prelude
  import opened Text
  import opened YamlBlocks

  type Pair = (Str, Value)

  // The key that an object does not take as a field.
  predicate IsProto(key: Str) {
    key == Ascii("__proto__")
  }

  predicate IsFirst(pairs: seq<Pair>, i: nat) {
    i < |pairs| && forall j :: 0 <= j < i ==> pairs[j].0 != pairs[i].0
  }

  predicate IsLast(pairs: seq<Pair>, i: nat) {
    i < |pairs| && forall j :: i < j < |pairs| ==> pairs[j].0 != pairs[i].0
  }

  // Field a stands for the pairs of which `first` is the first and `last` the last.
  predicate StandsFor(fields: seq<Field>, pairs: seq<Pair>, a: nat, first: nat, last: nat) {
    && a < |fields| && IsFirst(pairs, first) && IsLast(pairs, last)
    && pairs[first].0 == pairs[last].0 == fields[a].key && fields[a].value == pairs[last].1
  }

  ghost predicate IsBacked(fields: seq<Field>, pairs: seq<Pair>, a: nat, first: nat)
    requires a < |fields|
  {
    !IsProto(fields[a].key) && exists last: nat :: StandsFor(fields, pairs, a, first, last)
  }

  /** The object that is left when the pairs are assigned one after the other: a field for each key, in the order in
      which keys first occur, with the value that was assigned last. */
  ghost predicate IsObjectOf(fields: seq<Field>, pairs: seq<Pair>, firsts: seq<nat>) {
    && |firsts| == |fields|
    && (forall a, b :: 0 <= a < b < |firsts| ==> firsts[a] < firsts[b])
    && (forall a :: 0 <= a < |fields| ==> IsBacked(fields, pairs, a, firsts[a]))
    && (forall i :: 0 <= i < |pairs| && !IsProto(pairs[i].0) ==> HasKey(fields, pairs[i].0))
  }

  predicate HasKey(fields: seq<Field>, key: Str) {
    exists a :: 0 <= a < |fields| && fields[a].key == key
  }

  lemma ProtoIs()
    ensures PROTO == Ascii("__proto__") && VALUE == Ascii("value")
  {
    var a, b := Ascii("__proto__"), Ascii("value");
    assert a[0] == 95 && a[1] == 95 && a[2] == 112 && a[3] == 114 && a[4] == 111 && a[5] == 116 && a[6] == 111 && a[7] == 95 && a[8] == 95;
    assert b[0] == 118 && b[1] == 97 && b[2] == 108 && b[3] == 117 && b[4] == 101;
  }

  lemma {:induction false} AssignReplaces(fields: seq<Field>, key: Str, value: Value, a: nat)
    requires key != PROTO && a < |fields| && fields[a].key == key && forall b :: 0 <= b < a ==> fields[b].key != key
    ensures Assign(fields, key, value) == fields[a := Field(key, value)]
  {
    if a > 0 {
      AssignReplaces(fields[1..], key, value, a - 1);
      assert fields[a := Field(key, value)] == [fields[0]] + fields[1..][a - 1 := Field(key, value)];
    }
  }

  lemma {:induction false} AssignAdds(fields: seq<Field>, key: Str, value: Value)
    requires key != PROTO && !HasKey(fields, key)
    ensures Assign(fields, key, value) == fields + [Field(key, value)]
  {
    if fields != [] {
      assert fields[0].key != key;
      forall a | 0 <= a < |fields[1..]| ensures fields[1..][a].key != key { assert fields[1..][a] == fields[a + 1]; }
      AssignAdds(fields[1..], key, value);
    }
  }

  // The pair is not for the key of field a, which may have become one of more fields.
  lemma StillBacked(fields: seq<Field>, pairs: seq<Pair>, a: nat, first: nat, pair: Pair, more: seq<Field>)
    requires a < |fields| && IsBacked(fields, pairs, a, first) && fields[a].key != pair.0
    requires a < |more| && more[a] == fields[a]
    ensures IsBacked(more, pairs + [pair], a, first)
  {
    var last: nat :| StandsFor(fields, pairs, a, first, last);
    assert StandsFor(more, pairs + [pair], a, first, last);
  }

  // The pair is another one for the key of field a.
  lemma BackedByNew(fields: seq<Field>, pairs: seq<Pair>, a: nat, first: nat, pair: Pair, more: seq<Field>)
    requires a < |fields| && IsBacked(fields, pairs, a, first) && fields[a].key == pair.0
    requires a < |more| && more[a] == Field(pair.0, pair.1)
    ensures IsBacked(more, pairs + [pair], a, first)
  {
    assert StandsFor(more, pairs + [pair], a, first, |pairs|);
  }

  lemma OneMoreProto(fields: seq<Field>, pairs: seq<Pair>, firsts: seq<nat>, pair: Pair)
    requires IsObjectOf(fields, pairs, firsts) && IsProto(pair.0)
    ensures IsObjectOf(fields, pairs + [pair], firsts)
  {
    forall a | 0 <= a < |fields| ensures IsBacked(fields, pairs + [pair], a, firsts[a]) {
      StillBacked(fields, pairs, a, firsts[a], pair, fields);
    }
  }

  lemma NewIsBacked(fields: seq<Field>, pairs: seq<Pair>, firsts: seq<nat>, pair: Pair, more: seq<Field>)
    requires IsObjectOf(fields, pairs, firsts) && !IsProto(pair.0) && !HasKey(fields, pair.0)
    requires more == fields + [Field(pair.0, pair.1)]
    ensures IsBacked(more, pairs + [pair], |fields|, |pairs|)
  {
    forall j | 0 <= j < |pairs| ensures pairs[j].0 != pair.0 {
      assert !IsProto(pairs[j].0) ==> HasKey(fields, pairs[j].0);
    }
    assert StandsFor(more, pairs + [pair], |fields|, |pairs|, |pairs|);
  }

  lemma KeysOfMore(fields: seq<Field>, pairs: seq<Pair>, firsts: seq<nat>, pair: Pair, more: seq<Field>)
    requires IsObjectOf(fields, pairs, firsts) && |fields| <= |more| && HasKey(more, pair.0)
    requires forall a :: 0 <= a < |fields| ==> more[a].key == fields[a].key
    ensures forall i :: 0 <= i < |pairs + [pair]| && !IsProto((pairs + [pair])[i].0) ==> HasKey(more, (pairs + [pair])[i].0)
  {
    var all := pairs + [pair];
    forall i | 0 <= i < |all| && !IsProto(all[i].0) ensures HasKey(more, all[i].0) {
      if i < |pairs| {
        assert all[i] == pairs[i] && HasKey(fields, pairs[i].0);
        var a :| 0 <= a < |fields| && fields[a].key == pairs[i].0;
        assert more[a].key == all[i].0;
      }
    }
  }

  lemma OneMoreField(fields: seq<Field>, pairs: seq<Pair>, firsts: seq<nat>, pair: Pair, more: seq<Field>)
    requires IsObjectOf(fields, pairs, firsts) && !IsProto(pair.0) && !HasKey(fields, pair.0)
    requires more == fields + [Field(pair.0, pair.1)]
    ensures IsObjectOf(more, pairs + [pair], firsts + [|pairs|])
  {
    var all := firsts + [|pairs|];
    forall a | 0 <= a < |more| ensures IsBacked(more, pairs + [pair], a, all[a]) {
      if a < |fields| {
        assert fields[a].key != pair.0;
        StillBacked(fields, pairs, a, firsts[a], pair, more);
      } else {
        NewIsBacked(fields, pairs, firsts, pair, more);
      }
    }
    forall a | 0 <= a < |firsts| ensures firsts[a] < |pairs| { assert IsBacked(fields, pairs, a, firsts[a]); }
    assert more[|fields|].key == pair.0;
    KeysOfMore(fields, pairs, firsts, pair, more);
  }

  lemma OneMoreValue(fields: seq<Field>, pairs: seq<Pair>, firsts: seq<nat>, pair: Pair, a: nat, more: seq<Field>)
    requires IsObjectOf(fields, pairs, firsts) && !IsProto(pair.0) && a < |fields| && fields[a].key == pair.0
    requires forall b :: 0 <= b < |fields| && b != a ==> fields[b].key != pair.0
    requires more == fields[a := Field(pair.0, pair.1)]
    ensures IsObjectOf(more, pairs + [pair], firsts)
  {
    forall b | 0 <= b < |fields| ensures IsBacked(more, pairs + [pair], b, firsts[b]) {
      if b == a {
        BackedByNew(fields, pairs, a, firsts[a], pair, more);
      } else {
        StillBacked(fields, pairs, b, firsts[b], pair, more);
      }
    }
    assert more[a].key == pair.0;
    KeysOfMore(fields, pairs, firsts, pair, more);
  }

  lemma KeysDiffer(fields: seq<Field>, pairs: seq<Pair>, firsts: seq<nat>, a: nat, b: nat)
    requires IsObjectOf(fields, pairs, firsts) && a < b < |fields|
    ensures fields[a].key != fields[b].key
  {
    assert IsBacked(fields, pairs, a, firsts[a]) && IsBacked(fields, pairs, b, firsts[b]);
    var i: nat :| StandsFor(fields, pairs, a, firsts[a], i);
    var j: nat :| StandsFor(fields, pairs, b, firsts[b], j);
  }

  /** Assigning one more pair to the object of some pairs gives the object of them all. */
  lemma AssignIsOneMore(fields: seq<Field>, pairs: seq<Pair>, firsts: seq<nat>, pair: Pair) returns (more: seq<nat>)
    requires IsObjectOf(fields, pairs, firsts)
    ensures IsObjectOf(Assign(fields, pair.0, pair.1), pairs + [pair], more)
  {
    ProtoIs();
    if IsProto(pair.0) {
      more := firsts;
      OneMoreProto(fields, pairs, firsts, pair);
    } else if HasKey(fields, pair.0) {
      more := firsts;
      var a :| 0 <= a < |fields| && fields[a].key == pair.0;
      forall b | 0 <= b < |fields| && b != a ensures fields[b].key != pair.0 {
        if b < a { KeysDiffer(fields, pairs, firsts, b, a); } else { KeysDiffer(fields, pairs, firsts, a, b); }
      }
      AssignReplaces(fields, pair.0, pair.1, a);
      OneMoreValue(fields, pairs, firsts, pair, a, Assign(fields, pair.0, pair.1));
    } else {
      more := firsts + [|pairs|];
      AssignAdds(fields, pair.0, pair.1);
      OneMoreField(fields, pairs, firsts, pair, Assign(fields, pair.0, pair.1));
    }
  }

  // ---------------------------------------------------------------- what a block means

  ghost predicate IsObject(value: Value, pairs: seq<Pair>) {
    value.Object? && exists firsts :: IsObjectOf(value.fields, pairs, firsts)
  }

  function PairsOf(fields: seq<Field>): seq<Pair> {
    seq(|fields|, i requires 0 <= i < |fields| => (fields[i].key, fields[i].value))
  }

  ghost predicate MeansContent(value: Value, content: Content)
    decreases content
  {
    match content
    case Scalar(raw, literal) => value == Leaf(raw, literal)
    case Nested(block) => Means(value, block)
    case Nothing => value == Null
  }

  /** A mapping is the object of its keys and values, and a sequence the list of what its items are. */
  ghost predicate Means(value: Value, block: Block)
    decreases block
  {
    match block
    case Mapping(_, entries) => exists pairs :: EntriesMean(pairs, entries) && IsObject(value, pairs)
    case Sequence(_, items) => value.List? && ItemsMean(value.items, items)
  }

  ghost predicate EntriesMean(pairs: seq<Pair>, entries: Entries)
    decreases entries
  {
    match entries
    case NoEntries => pairs == []
    case Entries(key, content, rest) =>
      pairs != [] && pairs[0].0 == key && MeansContent(pairs[0].1, content) && EntriesMean(pairs[1..], rest)
  }

  // A scalar on a dash's line and a deeper block below it are two items.
  function Width(item: Item): nat {
    if item.key.None? && item.more.Some? then 2 else 1
  }

  ghost predicate ItemsMean(values: seq<Value>, items: Items)
    decreases items
  {
    match items
    case NoItems => values == []
    case Items(item, rest) =>
      Width(item) <= |values| && ItemMeans(values[..Width(item)], item) && ItemsMean(values[Width(item)..], rest)
  }

  // What a deeper block adds to the object of a dash's key: its fields, or itself under the key value.
  ghost predicate MoreMeans(pairs: seq<Pair>, more: Option<Block>)
    decreases more
  {
    match more
    case None => pairs == []
    case Some(block) =>
      exists nested :: Means(nested, block)
        && pairs == if nested.Object? then PairsOf(nested.fields) else [(Ascii("value"), nested)]
  }

  ghost predicate ItemMeans(values: seq<Value>, item: Item)
    decreases item
  {
    && |values| == Width(item)
    && match item.key
       case Some(key) =>
         exists first, pairs :: MeansContent(first, item.content) && MoreMeans(pairs, item.more)
           && IsObject(values[0], [(key, first)] + pairs)
       case None =>
         MeansContent(values[0], item.content) && (item.more.Some? ==> Means(values[1], item.more.value))
  }

  lemma NoPairs()
    ensures IsObjectOf([], [], [])
  {
  }

  lemma {:induction false} AssignAllIsMore(fields: seq<Field>, pairs: seq<Pair>, firsts: seq<nat>, more: seq<Field>) returns (all: seq<nat>)
    requires IsObjectOf(fields, pairs, firsts)
    ensures IsObjectOf(AssignAll(fields, more), pairs + PairsOf(more), all)
    decreases |more|
  {
    if more == [] {
      all := firsts;
      assert pairs + PairsOf(more) == pairs;
    } else {
      var pair := (more[0].key, more[0].value);
      all := AssignIsOneMore(fields, pairs, firsts, pair);
      all := AssignAllIsMore(Assign(fields, more[0].key, more[0].value), pairs + [pair], all, more[1..]);
      assert pairs + PairsOf(more) == (pairs + [pair]) + PairsOf(more[1..]);
    }
  }

  lemma {:induction false} DenoteMeans(block: Block)
    ensures Means(Denote(block), block)
    decreases block
  {
    match block
    case Mapping(_, entries) =>
      NoPairs();
      var pairs, firsts := EntriesDenote(entries, [], [], []);
      assert [] + pairs == pairs;
      assert EntriesMean(pairs, entries) && IsObject(Denote(block), pairs);
    case Sequence(_, items) => ItemsDenote(items, []);
  }

  lemma {:induction false} ContentMeans(content: Content)
    ensures MeansContent(DenoteContent(content), content)
    decreases content
  {
    if content.Nested? { DenoteMeans(content.block); }
  }

  lemma {:induction false} EntriesDenote(entries: Entries, fields: seq<Field>, before: seq<Pair>, firsts: seq<nat>)
    returns (pairs: seq<Pair>, all: seq<nat>)
    requires IsObjectOf(fields, before, firsts)
    ensures EntriesMean(pairs, entries) && IsObjectOf(DenoteEntries(entries, fields), before + pairs, all)
    decreases entries
  {
    match entries
    case NoEntries =>
      pairs, all := [], firsts;
      assert before + [] == before;
    case Entries(key, content, rest) =>
      var pair := (key, DenoteContent(content));
      ContentMeans(content);
      all := AssignIsOneMore(fields, before, firsts, pair);
      var others;
      others, all := EntriesDenote(rest, Assign(fields, key, pair.1), before + [pair], all);
      pairs := [pair] + others;
      assert pairs[1..] == others;
      Associates(before, [pair], others);
  }

  lemma {:induction false} ItemsDenote(items: Items, before: seq<Value>)
    ensures var values := DenoteItems(items, before);
            |values| >= |before| && values[..|before|] == before && ItemsMean(values[|before|..], items)
    decreases items
  {
    match items
    case NoItems =>
    case Items(item, rest) =>
      var here := DenoteItem(item);
      ItemMeansIt(item);
      ItemsDenote(rest, before + here);
      var values := DenoteItems(items, before);
      assert values[..|before + here|] == before + here;
      assert values[..|before|] == (before + here)[..|before|] == before;
      var added := values[|before|..];
      assert added[..|here|] == (before + here)[|before|..] == here;
      assert added[|here|..] == values[|before + here|..];
  }

  lemma {:induction false} ItemMeansIt(item: Item)
    ensures ItemMeans(DenoteItem(item), item) && |DenoteItem(item)| == Width(item)
    decreases item
  {
    var first := DenoteContent(item.content);
    ContentMeans(item.content);
    if item.more.Some? { DenoteMeans(item.more.value); }
    if item.key.Some? { KeyedItemMeans(item.key.value, first, item.more); }
  }

  // The object of a dash's key, with what a deeper block adds.
  lemma KeyedItemMeans(key: Str, first: Value, more: Option<Block>)
    requires more.Some? ==> Means(Denote(more.value), more.value)
    ensures var fields := Assign([], key, first);
            exists pairs :: MoreMeans(pairs, more)
              && IsObject(Object(if more.Some? then Merge(fields, Denote(more.value)) else fields), [(key, first)] + pairs)
  {
    NoPairs();
    ProtoIs();
    var firsts := AssignIsOneMore([], [], [], (key, first));
    assert [] + [(key, first)] == [(key, first)];
    var fields := Assign([], key, first);
    var pairs: seq<Pair> := [];
    if more.None? {
      assert [(key, first)] + pairs == [(key, first)];
    } else {
      var nested := Denote(more.value);
      if nested.Object? {
        pairs := PairsOf(nested.fields);
        firsts := AssignAllIsMore(fields, [(key, first)], firsts, nested.fields);
      } else {
        pairs := [(Ascii("value"), nested)];
        firsts := AssignIsOneMore(fields, [(key, first)], firsts, (Ascii("value"), nested));
      }
    }
    assert MoreMeans(pairs, more);
  }

  /** The value of an accepted stream is what the block that prints it means: a key that occurs again keeps its place
      and takes the later value, below a dash's key a mapping adds its fields and anything else becomes the field
      value, and a block below a scalar item is an item of its own. */
  lemma YamlMeans(ts: Tokens, value: Value)
    requires ts.Line? && LiteralsHaveValues(ts) && ParseYaml(ts) == Ok(value)
    ensures exists block :: Wellformed(block) && PrintBlock(block, End) == ts && Means(value, block)
  {
    YamlAccepts(ts, value);
    var block :| Wellformed(block) && PrintBlock(block, End) == ts && Denote(block) == value;
    DenoteMeans(block);
  }
}
