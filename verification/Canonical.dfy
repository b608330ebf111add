/** Canonical JSON: canonicalValue and canonicalJSON of crawler/ingestion/canonical.ts. */
module Canonical {
  import opened Prelude
  import opened Text

  datatype List<T> = Nil | Cons(head: T, tail: List<T>)

  // A finite number is named by the text that JSON.stringify prints for it.
  datatype Json =
    | Null
    | Bool(b: bool)
    | Number(text: Str)
    | NonFinite
    | String(s: Str)
    | Array(items: List<Json>)
    | Object(fields: Fields)

  datatype Field = Field(key: Str, value: Json)

  type Fields = List<Field>

  function Lookup(fields: Fields, key: Str): Option<Json> {
    if fields.Nil? then None
    else if fields.head.key == key then Some(fields.head.value)
    else Lookup(fields.tail, key)
  }

  // A value that can exist: keys are distinct, numbers print as numbers.
  predicate Proper(value: Json) {
    match value
    case Number(text) => IsNumberText(text)
    case Array(items) => ProperItems(items)
    case Object(fields) => ProperFields(fields)
    case _ => true
  }

  predicate ProperItems(items: List<Json>) {
    items.Cons? ==> Proper(items.head) && ProperItems(items.tail)
  }

  predicate ProperFields(fields: Fields) {
    fields.Cons? ==>
      Proper(fields.head.value) && Lookup(fields.tail, fields.head.key) == None && ProperFields(fields.tail)
  }

  predicate Distinct(fields: Fields) {
    fields.Cons? ==> Lookup(fields.tail, fields.head.key) == None && Distinct(fields.tail)
  }

  // ---------------------------------------------------------------- order of keys

  // left < right on strings
  predicate Less(a: Str, b: Str) {
    b != [] && (a == [] || a[0] < b[0] || (a[0] == b[0] && Less(a[1..], b[1..])))
  }

  lemma {:induction false} LessIsTotal(a: Str, b: Str)
    ensures a == b || Less(a, b) || Less(b, a)
  {
    if a != [] && b != [] && a[0] == b[0] {
      LessIsTotal(a[1..], b[1..]);
      assert a == [a[0]] + a[1..] && b == [b[0]] + b[1..];
    }
  }

  lemma {:induction false} LessIsStrict(a: Str, b: Str)
    ensures !(Less(a, b) && Less(b, a)) && !Less(a, a)
  {
    if a != [] {
      LessIsStrict(a[1..], a[1..]);
      if b != [] { LessIsStrict(a[1..], b[1..]); }
    }
  }

  lemma {:induction false} LessIsTransitive(a: Str, b: Str, c: Str)
    requires Less(a, b) && Less(b, c)
    ensures Less(a, c)
  {
    if a != [] && a[0] == b[0] == c[0] { LessIsTransitive(a[1..], b[1..], c[1..]); }
  }

  // The texts agree up to place k, where the first ends or has the smaller unit.
  predicate SmallerAt(a: Str, b: Str, k: nat) {
    k <= |a| && k < |b| && a[..k] == b[..k] && (k == |a| || a[k] < b[k])
  }

  lemma SmallerFurther(a: Str, b: Str, k: nat)
    requires a != [] && b != [] && a[0] == b[0]
    ensures SmallerAt(a, b, k + 1) <==> SmallerAt(a[1..], b[1..], k)
  {
    if k + 1 <= |a| && k + 1 <= |b| {
      assert a[..k + 1] == [a[0]] + a[1..][..k] && b[..k + 1] == [b[0]] + b[1..][..k];
      assert a[..k + 1] == b[..k + 1] ==> a[..k + 1][1..] == b[..k + 1][1..];
      assert a[..k + 1][1..] == a[1..][..k] && b[..k + 1][1..] == b[1..][..k];
    }
  }

  /** Texts are ordered by their first different unit; a text comes before its continuations. */
  lemma {:induction false} LessIsFirstDifference(a: Str, b: Str)
    ensures Less(a, b) <==> exists k: nat :: SmallerAt(a, b, k)
  {
    if b == [] || a == [] || a[0] != b[0] {
      if b != [] && (a == [] || a[0] < b[0]) { assert SmallerAt(a, b, 0); }
      if k: nat :| SmallerAt(a, b, k) { assert k == 0; }
    } else {
      LessIsFirstDifference(a[1..], b[1..]);
      if k: nat :| SmallerAt(a[1..], b[1..], k) { SmallerFurther(a, b, k); }
      if k: nat :| SmallerAt(a, b, k) {
        assert k > 0;
        SmallerFurther(a, b, k - 1);
      }
    }
  }

  function Insert(field: Field, fields: Fields): Fields {
    if fields.Nil? || Less(field.key, fields.head.key) then Cons(field, fields)
    else Cons(fields.head, Insert(field, fields.tail))
  }

  // Object.entries(value).sort(([left], [right]) => compareText(left, right))
  function Sort(fields: Fields): Fields {
    if fields.Nil? then Nil else Insert(fields.head, Sort(fields.tail))
  }

  // The keys are in strictly rising order.
  predicate Sorted(fields: Fields) {
    fields.Cons? && fields.tail.Cons? ==> Less(fields.head.key, fields.tail.head.key) && Sorted(fields.tail)
  }

  lemma {:induction false} LookupInsert(field: Field, fields: Fields, key: Str)
    requires Lookup(fields, field.key) == None
    ensures Lookup(Insert(field, fields), key) == Lookup(Cons(field, fields), key)
  {
    if fields.Cons? && !Less(field.key, fields.head.key) { LookupInsert(field, fields.tail, key); }
  }

  lemma {:induction false} LookupSort(fields: Fields, key: Str)
    requires Distinct(fields)
    ensures Lookup(Sort(fields), key) == Lookup(fields, key)
  {
    if fields.Cons? {
      LookupSort(fields.tail, key);
      LookupSort(fields.tail, fields.head.key);
      LookupInsert(fields.head, Sort(fields.tail), key);
    }
  }

  lemma {:induction false} InsertSorted(field: Field, fields: Fields)
    requires Sorted(fields) && Lookup(fields, field.key) == None
    ensures Sorted(Insert(field, fields))
  {
    if fields.Cons? && !Less(field.key, fields.head.key) {
      LessIsTotal(field.key, fields.head.key);
      InsertSorted(field, fields.tail);
    }
  }

  lemma {:induction false} SortSorted(fields: Fields)
    requires Distinct(fields)
    ensures Sorted(Sort(fields))
  {
    if fields.Cons? {
      SortSorted(fields.tail);
      LookupSort(fields.tail, fields.head.key);
      InsertSorted(fields.head, Sort(fields.tail));
    }
  }

  // A key below the first is not there.
  lemma {:induction false} BelowFirst(fields: Fields, key: Str)
    requires Sorted(fields) && (fields.Cons? ==> Less(key, fields.head.key))
    ensures Lookup(fields, key) == None
  {
    if fields.Cons? {
      LessIsStrict(key, fields.head.key);
      if fields.tail.Cons? { LessIsTransitive(key, fields.head.key, fields.tail.head.key); }
      BelowFirst(fields.tail, key);
    }
  }

  lemma SortedTail(fields: Fields)
    requires Sorted(fields) && fields.Cons?
    ensures Sorted(fields.tail) && Lookup(fields.tail, fields.head.key) == None
  {
    BelowFirst(fields.tail, fields.head.key);
  }

  /** There is one sorted list of given fields. */
  lemma {:induction false} SortedIsUnique(a: Fields, b: Fields)
    requires Sorted(a) && Sorted(b) && forall key :: Lookup(a, key) == Lookup(b, key)
    ensures a == b
  {
    if a.Nil? {
      assert b.Cons? ==> Lookup(b, b.head.key).Some?;
    } else {
      assert Lookup(a, a.head.key).Some?;
      assert b.Cons? ==> Lookup(b, b.head.key).Some?;
      LessIsTotal(a.head.key, b.head.key);
      if Less(a.head.key, b.head.key) { BelowFirst(b, a.head.key); }
      if Less(b.head.key, a.head.key) { BelowFirst(a, b.head.key); }
      SortedTail(a);
      SortedTail(b);
      forall key ensures Lookup(a.tail, key) == Lookup(b.tail, key) {
        assert Lookup(a, key) == Lookup(b, key);
      }
      SortedIsUnique(a.tail, b.tail);
    }
  }

  lemma SortIsUnique(a: Fields, b: Fields)
    requires Distinct(a) && Distinct(b) && forall key :: Lookup(a, key) == Lookup(b, key)
    ensures Sort(a) == Sort(b)
  {
    SortSorted(a);
    SortSorted(b);
    forall key ensures Lookup(Sort(a), key) == Lookup(Sort(b), key) {
      LookupSort(a, key);
      LookupSort(b, key);
    }
    SortedIsUnique(Sort(a), Sort(b));
  }

  // ---------------------------------------------------------------- the order in which JavaScript lists keys

  predicate IsDigit(u: Unit) {
    48 <= u <= 57
  }

  function DigitsValue(key: Str): nat
    requires forall i :: 0 <= i < |key| ==> IsDigit(key[i])
  {
    if key == [] then 0
    else
      assert IsDigit(key[|key| - 1]);
      10 * DigitsValue(key[..|key| - 1]) + key[|key| - 1] - 48
  }

  // An array index: its decimal digits without leading zeros, below 2^32 - 1.
  predicate IsIndex(key: Str) {
    && key != [] && (forall i :: 0 <= i < |key| ==> IsDigit(key[i])) && (key[0] == 48 ==> |key| == 1)
    && DigitsValue(key) < 0xFFFF_FFFF
  }

  function Select(fields: Fields, index: bool): Fields {
    if fields.Nil? then Nil
    else if IsIndex(fields.head.key) == index then Cons(fields.head, Select(fields.tail, index))
    else Select(fields.tail, index)
  }

  predicate IndexLess(a: Str, b: Str) {
    IsIndex(a) && IsIndex(b) && DigitsValue(a) < DigitsValue(b)
  }

  function InsertIndex(field: Field, fields: Fields): Fields {
    if fields.Nil? || IndexLess(field.key, fields.head.key) then Cons(field, fields)
    else Cons(fields.head, InsertIndex(field, fields.tail))
  }

  function SortIndices(fields: Fields): Fields {
    if fields.Nil? then Nil else InsertIndex(fields.head, SortIndices(fields.tail))
  }

  function Append(a: Fields, b: Fields): Fields {
    if a.Nil? then b else Cons(a.head, Append(a.tail, b))
  }

  // Object.fromEntries and then Object.entries: array indices come first, in ascending order.
  function Enumerated(fields: Fields): Fields {
    Append(SortIndices(Select(fields, true)), Select(fields, false))
  }

  lemma {:induction false} LookupSelect(fields: Fields, index: bool, key: Str)
    ensures Lookup(Select(fields, index), key) == if IsIndex(key) == index then Lookup(fields, key) else None
  {
    if fields.Cons? { LookupSelect(fields.tail, index, key); }
  }

  lemma {:induction false} LookupInsertIndex(field: Field, fields: Fields, key: Str)
    requires Lookup(fields, field.key) == None
    ensures Lookup(InsertIndex(field, fields), key) == Lookup(Cons(field, fields), key)
  {
    if fields.Cons? && !IndexLess(field.key, fields.head.key) { LookupInsertIndex(field, fields.tail, key); }
  }

  lemma {:induction false} LookupSortIndices(fields: Fields, key: Str)
    requires Distinct(fields)
    ensures Lookup(SortIndices(fields), key) == Lookup(fields, key)
  {
    if fields.Cons? {
      LookupSortIndices(fields.tail, key);
      LookupSortIndices(fields.tail, fields.head.key);
      LookupInsertIndex(fields.head, SortIndices(fields.tail), key);
    }
  }

  lemma {:induction false} LookupAppend(a: Fields, b: Fields, key: Str)
    ensures Lookup(Append(a, b), key) == if Lookup(a, key).Some? then Lookup(a, key) else Lookup(b, key)
  {
    if a.Cons? { LookupAppend(a.tail, b, key); }
  }

  lemma {:induction false} SelectDistinct(fields: Fields, index: bool)
    requires Distinct(fields)
    ensures Distinct(Select(fields, index))
  {
    if fields.Cons? {
      SelectDistinct(fields.tail, index);
      LookupSelect(fields.tail, index, fields.head.key);
    }
  }

  lemma {:induction false} InsertIndexDistinct(field: Field, fields: Fields)
    requires Distinct(fields) && Lookup(fields, field.key) == None
    ensures Distinct(InsertIndex(field, fields))
  {
    if fields.Cons? && !IndexLess(field.key, fields.head.key) {
      InsertIndexDistinct(field, fields.tail);
      LookupInsertIndex(field, fields.tail, fields.head.key);
    }
  }

  lemma {:induction false} SortIndicesDistinct(fields: Fields)
    requires Distinct(fields)
    ensures Distinct(SortIndices(fields))
  {
    if fields.Cons? {
      SortIndicesDistinct(fields.tail);
      LookupSortIndices(fields.tail, fields.head.key);
      InsertIndexDistinct(fields.head, SortIndices(fields.tail));
    }
  }

  lemma {:induction false} AppendDistinct(a: Fields, b: Fields)
    requires Distinct(a) && Distinct(b) && forall key :: Lookup(a, key).Some? ==> Lookup(b, key) == None
    ensures Distinct(Append(a, b))
  {
    if a.Cons? {
      assert Lookup(a, a.head.key).Some?;
      forall key | Lookup(a.tail, key).Some? ensures Lookup(b, key) == None { assert Lookup(a, key).Some?; }
      AppendDistinct(a.tail, b);
      LookupAppend(a.tail, b, a.head.key);
    }
  }

  // Array indices in ascending order, then other keys in the order of their text.
  predicate ListedBefore(a: Str, b: Str) {
    if IsIndex(a) then IsIndex(b) ==> DigitsValue(a) < DigitsValue(b) else !IsIndex(b) && Less(a, b)
  }

  predicate Listed(fields: Fields) {
    fields.Cons? && fields.tail.Cons? ==> ListedBefore(fields.head.key, fields.tail.head.key) && Listed(fields.tail)
  }

  predicate AllOf(fields: Fields, index: bool) {
    fields.Cons? ==> IsIndex(fields.head.key) == index && AllOf(fields.tail, index)
  }

  predicate IsNumeral(key: Str) {
    key != [] && (forall i :: 0 <= i < |key| ==> IsDigit(key[i])) && (key[0] == 48 ==> |key| == 1)
  }

  lemma {:induction false} LongNumeral(key: Str)
    requires IsNumeral(key) && |key| > 1
    ensures DigitsValue(key) >= 10
  {
    var front := key[..|key| - 1];
    if |front| > 1 { LongNumeral(front); } else { assert DigitsValue(front) == front[0] - 48 by { assert front[..0] == []; } }
  }

  lemma {:induction false} NumeralsDiffer(a: Str, b: Str)
    requires IsNumeral(a) && IsNumeral(b) && DigitsValue(a) == DigitsValue(b)
    ensures a == b
  {
    var x, y := a[..|a| - 1], b[..|b| - 1];
    assert IsDigit(a[|a| - 1]) && IsDigit(b[|b| - 1]);
    assert DigitsValue(a) == 10 * DigitsValue(x) + a[|a| - 1] - 48 && DigitsValue(b) == 10 * DigitsValue(y) + b[|b| - 1] - 48;
    if |a| > 1 { LongNumeral(a); }
    if |b| > 1 { LongNumeral(b); }
    if |a| > 1 && |b| > 1 { NumeralsDiffer(x, y); } else { assert x == [] && y == []; }
    assert a == x + [a[|a| - 1]] && b == y + [b[|b| - 1]];
  }

  lemma {:induction false} InsertIndexListed(field: Field, fields: Fields)
    requires Listed(fields) && AllOf(fields, true) && IsIndex(field.key) && Lookup(fields, field.key) == None
    ensures Listed(InsertIndex(field, fields)) && AllOf(InsertIndex(field, fields), true)
  {
    if fields.Cons? && !IndexLess(field.key, fields.head.key) {
      if DigitsValue(field.key) == DigitsValue(fields.head.key) { NumeralsDiffer(field.key, fields.head.key); }
      InsertIndexListed(field, fields.tail);
    }
  }

  lemma {:induction false} SortIndicesListed(fields: Fields)
    requires Distinct(fields) && AllOf(fields, true)
    ensures Listed(SortIndices(fields)) && AllOf(SortIndices(fields), true)
  {
    if fields.Cons? {
      SortIndicesListed(fields.tail);
      LookupSortIndices(fields.tail, fields.head.key);
      InsertIndexListed(fields.head, SortIndices(fields.tail));
    }
  }

  lemma {:induction false} SelectOf(fields: Fields, index: bool)
    ensures AllOf(Select(fields, index), index)
  {
    if fields.Cons? { SelectOf(fields.tail, index); }
  }

  // What is selected of sorted fields is sorted and begins no earlier.
  lemma {:induction false} SelectSorted(fields: Fields, index: bool)
    requires Sorted(fields)
    ensures var selected := Select(fields, index);
            && Sorted(selected)
            && (selected.Cons? ==>
                  fields.Cons? && (selected.head.key == fields.head.key || Less(fields.head.key, selected.head.key)))
  {
    if fields.Cons? {
      SelectSorted(fields.tail, index);
      var later := Select(fields.tail, index);
      if later.Cons? && later.head.key != fields.tail.head.key {
        LessIsTransitive(fields.head.key, fields.tail.head.key, later.head.key);
      }
    }
  }

  lemma {:induction false} SortedIsListed(fields: Fields)
    requires Sorted(fields) && AllOf(fields, false)
    ensures Listed(fields)
  {
    if fields.Cons? { SortedIsListed(fields.tail); }
  }

  lemma {:induction false} AppendListed(a: Fields, b: Fields)
    requires Listed(a) && AllOf(a, true) && Listed(b) && AllOf(b, false)
    ensures Listed(Append(a, b))
  {
    if a.Cons? { AppendListed(a.tail, b); }
  }

  /** The keys of sorted fields are listed with array indices first, in ascending order of their value,
      and the others after them, in the order of their text. */
  lemma EnumeratedOrder(fields: Fields)
    requires Sorted(fields)
    ensures Listed(Enumerated(fields))
  {
    SortedDistinct(fields);
    SelectDistinct(fields, true);
    SelectOf(fields, true);
    SelectOf(fields, false);
    SortIndicesListed(Select(fields, true));
    SelectSorted(fields, false);
    SortedIsListed(Select(fields, false));
    AppendListed(SortIndices(Select(fields, true)), Select(fields, false));
  }

  lemma LookupEnumerated(fields: Fields, key: Str)
    requires Distinct(fields)
    ensures Lookup(Enumerated(fields), key) == Lookup(fields, key)
  {
    SelectDistinct(fields, true);
    LookupSelect(fields, true, key);
    LookupSelect(fields, false, key);
    LookupSortIndices(Select(fields, true), key);
    LookupAppend(SortIndices(Select(fields, true)), Select(fields, false), key);
  }

  lemma EnumeratedDistinct(fields: Fields)
    requires Distinct(fields)
    ensures Distinct(Enumerated(fields))
  {
    SelectDistinct(fields, true);
    SelectDistinct(fields, false);
    SortIndicesDistinct(Select(fields, true));
    forall key | Lookup(SortIndices(Select(fields, true)), key).Some? ensures Lookup(Select(fields, false), key) == None {
      LookupSortIndices(Select(fields, true), key);
      LookupSelect(fields, true, key);
      LookupSelect(fields, false, key);
    }
    AppendDistinct(SortIndices(Select(fields, true)), Select(fields, false));
  }

  lemma {:induction false} SortedDistinct(fields: Fields)
    requires Sorted(fields)
    ensures Distinct(fields)
  {
    if fields.Cons? {
      SortedTail(fields);
      SortedDistinct(fields.tail);
    }
  }

  // ---------------------------------------------------------------- canonical values

  function CanonicalValue(value: Json): Json {
    match value
    case Array(items) => Array(CanonicalItems(items))
    case Object(fields) => Object(Enumerated(Sort(CanonicalFields(fields))))
    case _ => value
  }

  function CanonicalItems(items: List<Json>): List<Json> {
    if items.Nil? then Nil else Cons(CanonicalValue(items.head), CanonicalItems(items.tail))
  }

  function CanonicalFields(fields: Fields): Fields {
    if fields.Nil? then Nil
    else Cons(Field(fields.head.key, CanonicalValue(fields.head.value)), CanonicalFields(fields.tail))
  }

  // JSON.stringify prints null for a number that is not finite.
  function Finite(value: Json): Json {
    match value
    case NonFinite => Null
    case Array(items) => Array(FiniteItems(items))
    case Object(fields) => Object(FiniteFields(fields))
    case _ => value
  }

  function FiniteItems(items: List<Json>): List<Json> {
    if items.Nil? then Nil else Cons(Finite(items.head), FiniteItems(items.tail))
  }

  function FiniteFields(fields: Fields): Fields {
    if fields.Nil? then Nil else Cons(Field(fields.head.key, Finite(fields.head.value)), FiniteFields(fields.tail))
  }

  // ---------------------------------------------------------------- printing

  const QUOTE: Unit := 34
  const BACKSLASH: Unit := 92
  const COMMA: Unit := 44
  const COLON: Unit := 58
  const OPEN_ARRAY: Unit := 91
  const CLOSE_ARRAY: Unit := 93
  const OPEN_OBJECT: Unit := 123
  const CLOSE_OBJECT: Unit := 125
  const LETTER_U: Unit := 117
  const NULL_TEXT: Str := [110, 117, 108, 108]
  const TRUE_TEXT: Str := [116, 114, 117, 101]
  const FALSE_TEXT: Str := [102, 97, 108, 115, 101]

  // A digit, '-', '+', '.', 'e' or 'E'.
  predicate IsNumberUnit(u: Unit) {
    48 <= u <= 57 || u == 45 || u == 43 || u == 46 || u == 101 || u == 69
  }

  predicate IsNumberText(text: Str) {
    text != [] && forall i :: 0 <= i < |text| ==> IsNumberUnit(text[i])
  }

  predicate IsHigh(u: Unit) {
    0xD800 <= u < 0xDC00
  }

  predicate IsLow(u: Unit) {
    0xDC00 <= u < 0xE000
  }

  function HexDigit(d: nat): Unit
    requires d < 16
  {
    if d < 10 then 48 + d else 87 + d
  }

  // The letter after the backslash, for the units that have one: " \ BS FF LF CR TAB.
  function ShortEscape(u: Unit): Option<Unit> {
    if u == QUOTE || u == BACKSLASH then Some(u)
    else if u == 8 then Some(98)
    else if u == 12 then Some(102)
    else if u == LF then Some(110)
    else if u == CR then Some(114)
    else if u == TAB then Some(116)
    else None
  }

  function PrintUnit(u: Unit, rest: Str): Str {
    if ShortEscape(u).Some? then [BACKSLASH, ShortEscape(u).value] + rest
    else if u < 32 || IsHigh(u) || IsLow(u) then
      [BACKSLASH, LETTER_U, HexDigit(u / 4096), HexDigit(u / 256 % 16), HexDigit(u / 16 % 16), HexDigit(u % 16)] + rest
    else [u] + rest
  }

  // The rest of a string and its closing quote; surrogates are escaped unless they are paired.
  function PrintUnits(s: Str, rest: Str): Str {
    if s == [] then [QUOTE] + rest
    else if |s| > 1 && IsHigh(s[0]) && IsLow(s[1]) then [s[0], s[1]] + PrintUnits(s[2..], rest)
    else PrintUnit(s[0], PrintUnits(s[1..], rest))
  }

  function PrintString(s: Str, rest: Str): Str {
    [QUOTE] + PrintUnits(s, rest)
  }

  // JSON.stringify(value), followed by `rest`
  function Print(value: Json, rest: Str): Str {
    match value
    case Null => NULL_TEXT + rest
    case NonFinite => NULL_TEXT + rest
    case Bool(b) => (if b then TRUE_TEXT else FALSE_TEXT) + rest
    case Number(text) => text + rest
    case String(s) => PrintString(s, rest)
    case Array(items) => [OPEN_ARRAY] + PrintItems(items, true, rest)
    case Object(fields) => [OPEN_OBJECT] + PrintFields(fields, true, rest)
  }

  function PrintItems(items: List<Json>, first: bool, rest: Str): Str {
    if items.Nil? then [CLOSE_ARRAY] + rest
    else (if first then [] else [COMMA]) + Print(items.head, PrintItems(items.tail, false, rest))
  }

  function PrintFields(fields: Fields, first: bool, rest: Str): Str {
    if fields.Nil? then [CLOSE_OBJECT] + rest
    else
      (if first then [] else [COMMA])
      + PrintString(fields.head.key, [COLON] + Print(fields.head.value, PrintFields(fields.tail, false, rest)))
  }

  function CanonicalText(value: Json): Str {
    Print(CanonicalValue(value), [])
  }

  // ---------------------------------------------------------------- reading back

  function HexValue(u: Unit): Option<nat> {
    if 48 <= u <= 57 then Some(u - 48) else if 97 <= u <= 102 then Some(u - 87) else None
  }

  function ShortMeaning(letter: Unit): Option<Unit> {
    if letter == QUOTE || letter == BACKSLASH then Some(letter)
    else if letter == 98 then Some(8)
    else if letter == 102 then Some(12)
    else if letter == 110 then Some(LF)
    else if letter == 114 then Some(CR)
    else if letter == 116 then Some(TAB)
    else None
  }

  datatype Read<T> = Read(value: T, rest: Str)

  // The unit after \u.
  function ReadHex(t: Str): (r: Option<Read<Unit>>)
    ensures r.Some? ==> |r.value.rest| < |t|
  {
    if |t| < 4 then None
    else
      match (HexValue(t[0]), HexValue(t[1]), HexValue(t[2]), HexValue(t[3]))
      case (Some(a), Some(b), Some(c), Some(d)) =>
        var u := 4096 * a + 256 * b + 16 * c + d;
        if u < 0x1_0000 then Some(Read(u, t[4..])) else None
      case _ => None
  }

  // One unit of a string.
  function ReadUnit(t: Str): (r: Option<Read<Unit>>)
    ensures r.Some? ==> |r.value.rest| < |t|
  {
    if t == [] then None
    else if t[0] != BACKSLASH then Some(Read(t[0], t[1..]))
    else if |t| < 2 then None
    else if t[1] == LETTER_U then ReadHex(t[2..])
    else if ShortMeaning(t[1]).Some? then Some(Read(ShortMeaning(t[1]).value, t[2..]))
    else None
  }

  // The rest of a string, up to its closing quote.
  function ReadUnits(t: Str): (r: Option<Read<Str>>)
    ensures r.Some? ==> |r.value.rest| < |t|
    decreases |t|
  {
    if t != [] && t[0] == QUOTE then Some(Read([], t[1..]))
    else
      match ReadUnit(t)
      case None => None
      case Some(Read(u, rest)) =>
        match ReadUnits(rest)
        case None => None
        case Some(Read(s, rest')) => Some(Read([u] + s, rest'))
  }

  // How many number units the text starts with.
  function NumberLength(t: Str): (n: nat)
    ensures n <= |t|
  {
    if t == [] || !IsNumberUnit(t[0]) then 0 else 1 + NumberLength(t[1..])
  }

  predicate StartsWith(t: Str, word: Str) {
    |word| <= |t| && t[..|word|] == word
  }

  // JSON.parse of text without insignificant whitespace; what follows the value is left over.
  function ReadValue(t: Str): (r: Option<Read<Json>>)
    ensures r.Some? ==> |r.value.rest| < |t|
    decreases |t|, 0
  {
    if t == [] then None
    else if t[0] == QUOTE then
      match ReadUnits(t[1..])
      case None => None
      case Some(Read(s, rest)) => Some(Read(String(s), rest))
    else if t[0] == OPEN_ARRAY then
      match ReadItems(t[1..], true)
      case None => None
      case Some(Read(items, rest)) => Some(Read(Array(items), rest))
    else if t[0] == OPEN_OBJECT then
      match ReadFields(t[1..], true)
      case None => None
      case Some(Read(fields, rest)) => Some(Read(Object(fields), rest))
    else if StartsWith(t, NULL_TEXT) then Some(Read(Null, t[4..]))
    else if StartsWith(t, TRUE_TEXT) then Some(Read(Bool(true), t[4..]))
    else if StartsWith(t, FALSE_TEXT) then Some(Read(Bool(false), t[5..]))
    else
      var n := NumberLength(t);
      if n > 0 then Some(Read(Number(t[..n]), t[n..])) else None
  }

  // Past the comma that separates all but the first element.
  function AfterComma(t: Str, first: bool): (r: Option<Str>)
    ensures r.Some? ==> |r.value| <= |t|
  {
    if first then Some(t) else if t != [] && t[0] == COMMA then Some(t[1..]) else None
  }

  function ReadItems(t: Str, first: bool): (r: Option<Read<List<Json>>>)
    ensures r.Some? ==> |r.value.rest| < |t|
    decreases |t|, 1
  {
    if t != [] && t[0] == CLOSE_ARRAY then Some(Read(Nil, t[1..]))
    else
      match AfterComma(t, first)
      case None => None
      case Some(t') =>
        match ReadValue(t')
        case None => None
        case Some(Read(item, rest)) =>
          match ReadItems(rest, false)
          case None => None
          case Some(Read(items, rest')) => Some(Read(Cons(item, items), rest'))
  }

  function ReadKey(t: Str): (r: Option<Read<Str>>)
    ensures r.Some? ==> |r.value.rest| < |t|
  {
    if t == [] || t[0] != QUOTE then None
    else
      match ReadUnits(t[1..])
      case None => None
      case Some(Read(key, rest)) => if rest != [] && rest[0] == COLON then Some(Read(key, rest[1..])) else None
  }

  function ReadFields(t: Str, first: bool): (r: Option<Read<Fields>>)
    ensures r.Some? ==> |r.value.rest| < |t|
    decreases |t|, 1
  {
    if t != [] && t[0] == CLOSE_OBJECT then Some(Read(Nil, t[1..]))
    else
      match AfterComma(t, first)
      case None => None
      case Some(t') =>
        match ReadKey(t')
        case None => None
        case Some(Read(key, after)) =>
          match ReadValue(after)
          case None => None
          case Some(Read(value, rest)) =>
            match ReadFields(rest, false)
            case None => None
            case Some(Read(fields, rest')) => Some(Read(Cons(Field(key, value), fields), rest'))
  }

  lemma HexReadsBack(d: nat)
    requires d < 16
    ensures HexValue(HexDigit(d)) == Some(d)
  {
  }

  lemma FourHexReadBack(a: nat, b: nat, c: nat, d: nat, u: Unit, rest: Str)
    requires a < 16 && b < 16 && c < 16 && d < 16 && u == 4096 * a + 256 * b + 16 * c + d
    ensures ReadHex([HexDigit(a), HexDigit(b), HexDigit(c), HexDigit(d)] + rest) == Some(Read(u, rest))
  {
    HexReadsBack(a);
    HexReadsBack(b);
    HexReadsBack(c);
    HexReadsBack(d);
    var t := [HexDigit(a), HexDigit(b), HexDigit(c), HexDigit(d)] + rest;
    assert t[4..] == rest;
  }

  lemma HexEscapeReadsBack(a: nat, b: nat, c: nat, d: nat, u: Unit, rest: Str)
    requires a < 16 && b < 16 && c < 16 && d < 16 && u == 4096 * a + 256 * b + 16 * c + d
    ensures ReadUnit([BACKSLASH, LETTER_U, HexDigit(a), HexDigit(b), HexDigit(c), HexDigit(d)] + rest) == Some(Read(u, rest))
  {
    var digits := [HexDigit(a), HexDigit(b), HexDigit(c), HexDigit(d)] + rest;
    var t := [BACKSLASH, LETTER_U, HexDigit(a), HexDigit(b), HexDigit(c), HexDigit(d)] + rest;
    FourHexReadBack(a, b, c, d, u, rest);
    assert t[2..] == digits;
  }

  lemma HexDigitsOf(u: Unit)
    ensures u / 4096 < 16
    ensures 4096 * (u / 4096) + 256 * (u / 256 % 16) + 16 * (u / 16 % 16) + u % 16 == u
  {
    assert u / 16 == 16 * (u / 256) + u / 16 % 16;
    assert u / 256 == 16 * (u / 4096) + u / 256 % 16;
  }

  // A control character or half of a surrogate pair.
  lemma EscapeReadsBack(u: Unit, rest: Str)
    requires ShortEscape(u).None? && (u < 32 || IsHigh(u) || IsLow(u))
    ensures ReadUnit(PrintUnit(u, rest)) == Some(Read(u, rest))
  {
    HexDigitsOf(u);
    HexEscapeReadsBack(u / 4096, u / 256 % 16, u / 16 % 16, u % 16, u, rest);
  }

  lemma ShortReadsBack(u: Unit, rest: Str)
    requires ShortEscape(u).Some?
    ensures ReadUnit(PrintUnit(u, rest)) == Some(Read(u, rest))
  {
    var t := PrintUnit(u, rest);
    assert t[2..] == rest && t[1] == ShortEscape(u).value;
  }

  lemma UnitReadsBack(u: Unit, rest: Str)
    ensures ReadUnit(PrintUnit(u, rest)) == Some(Read(u, rest))
    ensures PrintUnit(u, rest) != [] && PrintUnit(u, rest)[0] != QUOTE
  {
    if ShortEscape(u).Some? {
      ShortReadsBack(u, rest);
    } else if u < 32 || IsHigh(u) || IsLow(u) {
      EscapeReadsBack(u, rest);
    }
  }

  lemma OneMoreUnit(t: Str, u: Unit, rest: Str, s: Str, end: Str)
    requires t != [] && t[0] != QUOTE && ReadUnit(t) == Some(Read(u, rest)) && ReadUnits(rest) == Some(Read(s, end))
    ensures ReadUnits(t) == Some(Read([u] + s, end))
  {
  }

  // A unit that is not escaped.
  lemma PlainUnit(u: Unit, t: Str, s: Str, end: Str)
    requires u != QUOTE && u != BACKSLASH && ReadUnits(t) == Some(Read(s, end))
    ensures ReadUnits([u] + t) == Some(Read([u] + s, end))
  {
    OneMoreUnit([u] + t, u, t, s, end);
  }

  lemma PairReadsBack(high: Unit, low: Unit, t: Str, s: Str, end: Str)
    requires IsHigh(high) && IsLow(low) && ReadUnits(t) == Some(Read(s, end))
    ensures ReadUnits([high, low] + t) == Some(Read([high, low] + s, end))
  {
    PlainUnit(low, t, s, end);
    PlainUnit(high, [low] + t, [low] + s, end);
    assert [high, low] + t == [high] + ([low] + t);
    assert [high, low] + s == [high] + ([low] + s);
  }

  lemma {:induction false} UnitsReadBack(s: Str, rest: Str)
    ensures ReadUnits(PrintUnits(s, rest)) == Some(Read(s, rest))
    decreases |s|
  {
    if s == [] {
    } else if |s| > 1 && IsHigh(s[0]) && IsLow(s[1]) {
      var tail := s[2..];
      UnitsReadBack(tail, rest);
      PairReadsBack(s[0], s[1], PrintUnits(tail, rest), tail, rest);
      assert s == [s[0], s[1]] + tail;
    } else {
      var tail := s[1..];
      UnitsReadBack(tail, rest);
      var t := PrintUnits(tail, rest);
      UnitReadsBack(s[0], t);
      OneMoreUnit(PrintUnit(s[0], t), s[0], t, tail, rest);
      assert s == [s[0]] + tail;
    }
  }

  // What may follow a value: the end, a comma or a closing bracket.
  predicate Delimited(rest: Str) {
    rest == [] || rest[0] == COMMA || rest[0] == CLOSE_ARRAY || rest[0] == CLOSE_OBJECT
  }

  lemma {:induction false} NumberReadsBack(text: Str, rest: Str)
    requires forall i :: 0 <= i < |text| ==> IsNumberUnit(text[i])
    requires Delimited(rest)
    ensures NumberLength(text + rest) == |text|
  {
    if text == [] {
      assert text + rest == rest;
    } else {
      assert (text + rest)[1..] == text[1..] + rest;
      NumberReadsBack(text[1..], rest);
    }
  }

  lemma StartsAlike(t: Str, word: Str)
    requires word != [] && t != []
    ensures t[0] != word[0] ==> !StartsWith(t, word)
  {
  }

  lemma WordReadsBack(word: Str, rest: Str)
    requires word == NULL_TEXT || word == TRUE_TEXT || word == FALSE_TEXT
    ensures ReadValue(word + rest) == Some(Read(if word == NULL_TEXT then Null else Bool(word == TRUE_TEXT), rest))
  {
    var t := word + rest;
    assert t[..|word|] == word && t[|word|..] == rest && t[0] == word[0];
    StartsAlike(t, NULL_TEXT);
    StartsAlike(t, TRUE_TEXT);
  }

  lemma NumberTextReadsBack(text: Str, rest: Str)
    requires IsNumberText(text) && Delimited(rest)
    ensures ReadValue(text + rest) == Some(Read(Number(text), rest))
  {
    var t := text + rest;
    NumberReadsBack(text, rest);
    assert IsNumberUnit(t[0]);
    StartsAlike(t, NULL_TEXT);
    StartsAlike(t, TRUE_TEXT);
    StartsAlike(t, FALSE_TEXT);
    assert t[..|text|] == text && t[|text|..] == rest;
  }

  // A printed value does not start like the end of a list.
  lemma PrintStarts(value: Json, rest: Str)
    requires Proper(value)
    ensures Print(value, rest) != [] && Print(value, rest)[0] != CLOSE_ARRAY && Print(value, rest)[0] != COMMA
  {
    if value.Number? { assert IsNumberUnit(Print(value, rest)[0]); }
  }

  /** Reading undoes printing: the text of a value cannot be read in another way. */
  lemma {:induction false} ValueReadsBack(value: Json, rest: Str)
    requires Proper(value) && Delimited(rest)
    ensures ReadValue(Print(value, rest)) == Some(Read(Finite(value), rest))
    decreases value
  {
    match value
    case Null => WordReadsBack(NULL_TEXT, rest);
    case NonFinite => WordReadsBack(NULL_TEXT, rest);
    case Bool(b) => WordReadsBack(if b then TRUE_TEXT else FALSE_TEXT, rest);
    case Number(text) => NumberTextReadsBack(text, rest);
    case String(s) => UnitsReadBack(s, rest);
    case Array(items) => ItemsReadBack(items, true, rest);
    case Object(fields) => FieldsReadBack(fields, true, rest);
  }

  lemma {:induction false} ItemsReadBack(items: List<Json>, first: bool, rest: Str)
    requires ProperItems(items) && Delimited(rest)
    ensures ReadItems(PrintItems(items, first, rest), first) == Some(Read(FiniteItems(items), rest))
    ensures Delimited(PrintItems(items, false, rest))
    decreases items
  {
    if items.Cons? {
      var others := PrintItems(items.tail, false, rest);
      ItemsReadBack(items.tail, false, rest);
      ValueReadsBack(items.head, others);
      PrintStarts(items.head, others);
      var t := PrintItems(items, first, rest);
      assert first ==> t == Print(items.head, others);
      assert AfterComma(t, first) == Some(Print(items.head, others));
    }
  }

  lemma KeyReadsBack(key: Str, rest: Str)
    ensures ReadKey(PrintString(key, [COLON] + rest)) == Some(Read(key, rest))
  {
    UnitsReadBack(key, [COLON] + rest);
  }

  lemma FieldReadsBack(fields: Fields, first: bool, rest: Str)
    requires fields.Cons?
    ensures var value := Print(fields.head.value, PrintFields(fields.tail, false, rest));
            && PrintFields(fields, first, rest) != [] && PrintFields(fields, first, rest)[0] != CLOSE_OBJECT
            && AfterComma(PrintFields(fields, first, rest), first) == Some(PrintString(fields.head.key, [COLON] + value))
  {
    var value := Print(fields.head.value, PrintFields(fields.tail, false, rest));
    var t, keyed := PrintFields(fields, first, rest), PrintString(fields.head.key, [COLON] + value);
    assert first ==> t == keyed;
  }

  lemma {:induction false} FieldsReadBack(fields: Fields, first: bool, rest: Str)
    requires ProperFields(fields) && Delimited(rest)
    ensures ReadFields(PrintFields(fields, first, rest), first) == Some(Read(FiniteFields(fields), rest))
    ensures Delimited(PrintFields(fields, false, rest))
    decreases fields
  {
    if fields.Cons? {
      var others := PrintFields(fields.tail, false, rest);
      FieldsReadBack(fields.tail, false, rest);
      ValueReadsBack(fields.head.value, others);
      KeyReadsBack(fields.head.key, Print(fields.head.value, others));
      FieldReadsBack(fields, first, rest);
    }
  }

  // ---------------------------------------------------------------- equal up to key order

  // The same value up to the order of keys; numbers that are not finite count as null.
  ghost predicate SameValue(a: Json, b: Json)
    decreases a
  {
    match a
    case Array(items) => b.Array? && SameItems(items, b.items)
    case Object(fields) => b.Object? && SameKeys(fields, b.fields) && SameFields(fields, b.fields)
    case _ => if a == Null || a == NonFinite then b == Null || b == NonFinite else a == b
  }

  ghost predicate SameItems(a: List<Json>, b: List<Json>)
    decreases a
  {
    if a.Nil? then b.Nil? else b.Cons? && SameValue(a.head, b.head) && SameItems(a.tail, b.tail)
  }

  ghost predicate SameKeys(a: Fields, b: Fields) {
    forall key :: Lookup(a, key).Some? <==> Lookup(b, key).Some?
  }

  // Each field of a has its counterpart in b.
  ghost predicate SameFields(a: Fields, b: Fields)
    decreases a
  {
    a.Cons? ==>
      && Lookup(b, a.head.key).Some? && SameValue(a.head.value, Lookup(b, a.head.key).value) && SameFields(a.tail, b)
  }

  // What JSON.parse makes of the canonical text.
  function Normal(value: Json): Json {
    Finite(CanonicalValue(value))
  }

  function NormalFields(fields: Fields): Fields {
    FiniteFields(CanonicalFields(fields))
  }

  lemma {:induction false} FiniteInsert(field: Field, fields: Fields)
    ensures FiniteFields(Insert(field, fields)) == Insert(Field(field.key, Finite(field.value)), FiniteFields(fields))
  {
    if fields.Cons? { FiniteInsert(field, fields.tail); }
  }

  lemma {:induction false} FiniteSort(fields: Fields)
    ensures FiniteFields(Sort(fields)) == Sort(FiniteFields(fields))
  {
    if fields.Cons? {
      FiniteSort(fields.tail);
      FiniteInsert(fields.head, Sort(fields.tail));
    }
  }

  lemma {:induction false} FiniteSelect(fields: Fields, index: bool)
    ensures FiniteFields(Select(fields, index)) == Select(FiniteFields(fields), index)
  {
    if fields.Cons? { FiniteSelect(fields.tail, index); }
  }

  lemma {:induction false} FiniteInsertIndex(field: Field, fields: Fields)
    ensures FiniteFields(InsertIndex(field, fields)) == InsertIndex(Field(field.key, Finite(field.value)), FiniteFields(fields))
  {
    if fields.Cons? { FiniteInsertIndex(field, fields.tail); }
  }

  lemma {:induction false} FiniteSortIndices(fields: Fields)
    ensures FiniteFields(SortIndices(fields)) == SortIndices(FiniteFields(fields))
  {
    if fields.Cons? {
      FiniteSortIndices(fields.tail);
      FiniteInsertIndex(fields.head, SortIndices(fields.tail));
    }
  }

  lemma {:induction false} FiniteAppend(a: Fields, b: Fields)
    ensures FiniteFields(Append(a, b)) == Append(FiniteFields(a), FiniteFields(b))
  {
    if a.Cons? { FiniteAppend(a.tail, b); }
  }

  lemma FiniteEnumeratedSort(fields: Fields)
    ensures FiniteFields(Enumerated(Sort(fields))) == Enumerated(Sort(FiniteFields(fields)))
  {
    FiniteSort(fields);
    FiniteAppend(SortIndices(Select(Sort(fields), true)), Select(Sort(fields), false));
    FiniteSortIndices(Select(Sort(fields), true));
    FiniteSelect(Sort(fields), true);
    FiniteSelect(Sort(fields), false);
  }

  lemma NormalObject(fields: Fields)
    ensures Normal(Object(fields)) == Object(Enumerated(Sort(NormalFields(fields))))
  {
    FiniteEnumeratedSort(CanonicalFields(fields));
  }

  lemma {:induction false} LookupNormal(fields: Fields, key: Str)
    ensures Lookup(NormalFields(fields), key)
            == if Lookup(fields, key).Some? then Some(Normal(Lookup(fields, key).value)) else None
  {
    if fields.Cons? { LookupNormal(fields.tail, key); }
  }

  lemma {:induction false} LookupCanonical(fields: Fields, key: Str)
    ensures Lookup(CanonicalFields(fields), key)
            == if Lookup(fields, key).Some? then Some(CanonicalValue(Lookup(fields, key).value)) else None
  {
    if fields.Cons? { LookupCanonical(fields.tail, key); }
  }

  lemma {:induction false} ProperIsDistinct(fields: Fields)
    requires ProperFields(fields)
    ensures Distinct(fields) && Distinct(CanonicalFields(fields)) && Distinct(NormalFields(fields))
  {
    if fields.Cons? {
      ProperIsDistinct(fields.tail);
      LookupNormal(fields.tail, fields.head.key);
      LookupCanonical(fields.tail, fields.head.key);
    }
  }

  lemma {:induction false} ProperLookup(fields: Fields, key: Str)
    requires ProperFields(fields) && Lookup(fields, key).Some?
    ensures Proper(Lookup(fields, key).value)
  {
    if fields.head.key != key { ProperLookup(fields.tail, key); }
  }

  lemma LookupEnumeratedSort(fields: Fields, key: Str)
    requires Distinct(fields)
    ensures Lookup(Enumerated(Sort(fields)), key) == Lookup(fields, key)
  {
    SortSorted(fields);
    SortedDistinct(Sort(fields));
    LookupSort(fields, key);
    LookupEnumerated(Sort(fields), key);
  }

  lemma {:induction false} SameIsNormalEqual(a: Json, b: Json)
    requires Proper(a) && Proper(b) && SameValue(a, b)
    ensures Normal(a) == Normal(b)
    decreases a
  {
    match a
    case Array(items) => SameItemsNormal(items, b.items);
    case Object(fields) =>
      forall key ensures Lookup(NormalFields(fields), key) == Lookup(NormalFields(b.fields), key) {
        LookupNormal(fields, key);
        LookupNormal(b.fields, key);
        if Lookup(fields, key).Some? { SameFieldsNormal(fields, b.fields, key); }
      }
      ProperIsDistinct(fields);
      ProperIsDistinct(b.fields);
      SortIsUnique(NormalFields(fields), NormalFields(b.fields));
      NormalObject(fields);
      NormalObject(b.fields);
    case _ =>
  }

  lemma {:induction false} SameItemsNormal(a: List<Json>, b: List<Json>)
    requires ProperItems(a) && ProperItems(b) && SameItems(a, b)
    ensures FiniteItems(CanonicalItems(a)) == FiniteItems(CanonicalItems(b))
    decreases a
  {
    if a.Cons? {
      SameIsNormalEqual(a.head, b.head);
      SameItemsNormal(a.tail, b.tail);
    }
  }

  lemma {:induction false} SameFieldsNormal(a: Fields, b: Fields, key: Str)
    requires ProperFields(a) && ProperFields(b) && SameFields(a, b) && Lookup(a, key).Some?
    ensures Lookup(b, key).Some? && Normal(Lookup(a, key).value) == Normal(Lookup(b, key).value)
    decreases a
  {
    if a.head.key == key {
      ProperLookup(b, key);
      SameIsNormalEqual(a.head.value, Lookup(b, key).value);
    } else {
      SameFieldsNormal(a.tail, b, key);
    }
  }

  lemma {:induction false} NormalEqualIsSame(a: Json, b: Json)
    requires Proper(a) && Proper(b) && Normal(a) == Normal(b)
    ensures SameValue(a, b)
    decreases a
  {
    match a
    case Array(items) => NormalEqualItems(items, b.items);
    case Object(fields) =>
      NormalObject(fields);
      NormalObject(b.fields);
      ProperIsDistinct(fields);
      ProperIsDistinct(b.fields);
      forall key ensures Lookup(NormalFields(fields), key) == Lookup(NormalFields(b.fields), key) {
        LookupEnumeratedSort(NormalFields(fields), key);
        LookupEnumeratedSort(NormalFields(b.fields), key);
      }
      forall key ensures Lookup(fields, key).Some? <==> Lookup(b.fields, key).Some? {
        LookupNormal(fields, key);
        LookupNormal(b.fields, key);
      }
      NormalEqualFields(fields, b.fields, fields);
    case _ =>
  }

  lemma {:induction false} NormalEqualItems(a: List<Json>, b: List<Json>)
    requires ProperItems(a) && ProperItems(b) && FiniteItems(CanonicalItems(a)) == FiniteItems(CanonicalItems(b))
    ensures SameItems(a, b)
    decreases a
  {
    if a.Cons? {
      NormalEqualIsSame(a.head, b.head);
      NormalEqualItems(a.tail, b.tail);
    }
  }

  lemma {:induction false} NormalEqualFields(a: Fields, b: Fields, whole: Fields)
    requires ProperFields(a) && ProperFields(b)
    requires forall key :: Lookup(a, key).Some? ==> Lookup(whole, key) == Lookup(a, key)
    requires forall key :: Lookup(NormalFields(whole), key) == Lookup(NormalFields(b), key)
    ensures SameFields(a, b)
    decreases a
  {
    if a.Cons? {
      var key := a.head.key;
      assert Lookup(a, key).Some?;
      LookupNormal(whole, key);
      LookupNormal(b, key);
      ProperLookup(b, key);
      NormalEqualIsSame(a.head.value, Lookup(b, key).value);
      forall k | Lookup(a.tail, k).Some? ensures Lookup(whole, k) == Lookup(a.tail, k) {
        assert Lookup(a, k).Some?;
      }
      NormalEqualFields(a.tail, b, whole);
    }
  }

  // ---------------------------------------------------------------- main results

  lemma {:induction false} PrintFinite(value: Json, rest: Str)
    ensures Print(Finite(value), rest) == Print(value, rest)
    decreases value
  {
    match value
    case Array(items) => PrintFiniteItems(items, true, rest);
    case Object(fields) => PrintFiniteFields(fields, true, rest);
    case _ =>
  }

  lemma {:induction false} PrintFiniteItems(items: List<Json>, first: bool, rest: Str)
    ensures PrintItems(FiniteItems(items), first, rest) == PrintItems(items, first, rest)
    decreases items
  {
    if items.Cons? {
      PrintFiniteItems(items.tail, false, rest);
      PrintFinite(items.head, PrintItems(items.tail, false, rest));
    }
  }

  lemma {:induction false} PrintFiniteFields(fields: Fields, first: bool, rest: Str)
    ensures PrintFields(FiniteFields(fields), first, rest) == PrintFields(fields, first, rest)
    decreases fields
  {
    if fields.Cons? {
      PrintFiniteFields(fields.tail, false, rest);
      PrintFinite(fields.head.value, PrintFields(fields.tail, false, rest));
    }
  }

  lemma {:induction false} CanonicalProper(value: Json)
    requires Proper(value)
    ensures Proper(CanonicalValue(value))
    decreases value
  {
    match value
    case Array(items) => CanonicalItemsProper(items);
    case Object(fields) =>
      var canonical := CanonicalFields(fields);
      CanonicalFieldsProper(fields);
      ProperIsDistinct(fields);
      SortSorted(canonical);
      SortedDistinct(Sort(canonical));
      EnumeratedDistinct(Sort(canonical));
      forall key | Lookup(Enumerated(Sort(canonical)), key).Some?
        ensures Proper(Lookup(Enumerated(Sort(canonical)), key).value)
      {
        LookupEnumeratedSort(canonical, key);
        ProperLookup(canonical, key);
      }
      DistinctIsProper(Enumerated(Sort(canonical)));
    case _ =>
  }

  lemma {:induction false} CanonicalItemsProper(items: List<Json>)
    requires ProperItems(items)
    ensures ProperItems(CanonicalItems(items))
    decreases items
  {
    if items.Cons? {
      CanonicalProper(items.head);
      CanonicalItemsProper(items.tail);
    }
  }

  lemma {:induction false} CanonicalFieldsProper(fields: Fields)
    requires ProperFields(fields)
    ensures ProperFields(CanonicalFields(fields))
    decreases fields
  {
    if fields.Cons? {
      CanonicalProper(fields.head.value);
      CanonicalFieldsProper(fields.tail);
      LookupCanonical(fields.tail, fields.head.key);
    }
  }

  lemma {:induction false} DistinctIsProper(fields: Fields)
    requires Distinct(fields) && forall key :: Lookup(fields, key).Some? ==> Proper(Lookup(fields, key).value)
    ensures ProperFields(fields)
  {
    if fields.Cons? {
      assert Lookup(fields, fields.head.key).Some?;
      forall key | Lookup(fields.tail, key).Some? ensures Proper(Lookup(fields.tail, key).value) {
        assert Lookup(fields, key) == Lookup(fields.tail, key);
      }
      DistinctIsProper(fields.tail);
    }
  }

  /** Two values have the same canonical text exactly when they are equal up to key order. */
  lemma CanonicalTextIdentifies(a: Json, b: Json)
    requires Proper(a) && Proper(b)
    ensures CanonicalText(a) == CanonicalText(b) <==> SameValue(a, b)
  {
    CanonicalProper(a);
    CanonicalProper(b);
    ValueReadsBack(CanonicalValue(a), []);
    ValueReadsBack(CanonicalValue(b), []);
    PrintFinite(CanonicalValue(a), []);
    PrintFinite(CanonicalValue(b), []);
    if Normal(a) == Normal(b) { NormalEqualIsSame(a, b); }
    if SameValue(a, b) { SameIsNormalEqual(a, b); }
  }

  lemma {:induction false} CanonicalTwice(value: Json)
    requires Proper(value)
    ensures CanonicalValue(CanonicalValue(value)) == CanonicalValue(value)
    decreases value
  {
    match value
    case Array(items) => CanonicalItemsTwice(items);
    case Object(fields) =>
      var canonical := CanonicalFields(fields);
      var listed := Enumerated(Sort(canonical));
      CanonicalProper(value);
      ProperIsDistinct(fields);
      ProperIsDistinct(listed);
      forall key ensures Lookup(CanonicalFields(listed), key) == Lookup(canonical, key) {
        LookupCanonical(listed, key);
        LookupEnumeratedSort(canonical, key);
        LookupCanonical(fields, key);
        if Lookup(fields, key).Some? {
          ProperLookup(fields, key);
          LookupTwice(fields, key);
        }
      }
      SortIsUnique(CanonicalFields(listed), canonical);
    case _ =>
  }

  lemma {:induction false} CanonicalItemsTwice(items: List<Json>)
    requires ProperItems(items)
    ensures CanonicalItems(CanonicalItems(items)) == CanonicalItems(items)
    decreases items
  {
    if items.Cons? {
      CanonicalTwice(items.head);
      CanonicalItemsTwice(items.tail);
    }
  }

  lemma {:induction false} LookupTwice(fields: Fields, key: Str)
    requires ProperFields(fields) && Lookup(fields, key).Some?
    ensures CanonicalValue(CanonicalValue(Lookup(fields, key).value)) == CanonicalValue(Lookup(fields, key).value)
    decreases fields
  {
    if fields.head.key == key { CanonicalTwice(fields.head.value); } else { LookupTwice(fields.tail, key); }
  }

  /** Parsing the canonical text and printing it canonically again gives the same text. */
  lemma CanonicalTextIsStable(value: Json)
    requires Proper(value)
    ensures ReadValue(CanonicalText(value)) == Some(Read(Normal(value), []))
    ensures CanonicalText(Normal(value)) == CanonicalText(value)
  {
    CanonicalProper(value);
    ValueReadsBack(CanonicalValue(value), []);
    CanonicalTwice(value);
    FiniteCommutes(CanonicalValue(value));
    PrintFinite(CanonicalValue(value), []);
  }

  lemma {:induction false} FiniteCommutes(value: Json)
    ensures CanonicalValue(Finite(value)) == Finite(CanonicalValue(value))
    decreases value
  {
    match value
    case Array(items) => FiniteItemsCommute(items);
    case Object(fields) =>
      FiniteFieldsCommute(fields);
      FiniteEnumeratedSort(CanonicalFields(fields));
    case _ =>
  }

  lemma {:induction false} FiniteItemsCommute(items: List<Json>)
    ensures CanonicalItems(FiniteItems(items)) == FiniteItems(CanonicalItems(items))
    decreases items
  {
    if items.Cons? {
      FiniteCommutes(items.head);
      FiniteItemsCommute(items.tail);
    }
  }

  lemma {:induction false} FiniteFieldsCommute(fields: Fields)
    ensures CanonicalFields(FiniteFields(fields)) == FiniteFields(CanonicalFields(fields))
    decreases fields
  {
    if fields.Cons? {
      FiniteCommutes(fields.head.value);
      FiniteFieldsCommute(fields.tail);
    }
  }
}
