/** The text of canonical JSON, unit by unit. */
module CanonicalForm {
  import opened Prelude
  import opened Text
  import opened Canonical

  // ---------------------------------------------------------------- printing is concatenation

  lemma {:induction false} PrintUnitsAppends(s: Str, rest: Str)
    ensures PrintUnits(s, rest) == PrintUnits(s, []) + rest
    decreases |s|
  {
    if s == [] {
    } else if |s| > 1 && IsHigh(s[0]) && IsLow(s[1]) {
      PrintUnitsAppends(s[2..], rest);
      Associates([s[0], s[1]], PrintUnits(s[2..], []), rest);
    } else {
      PrintUnitsAppends(s[1..], rest);
      UnitAppends(s[0], PrintUnits(s[1..], rest));
      UnitAppends(s[0], PrintUnits(s[1..], []));
      Associates(PrintUnit(s[0], []), PrintUnits(s[1..], []), rest);
    }
  }

  lemma UnitAppends(u: Unit, rest: Str)
    ensures PrintUnit(u, rest) == PrintUnit(u, []) + rest
  {
  }

  lemma StringAppends(s: Str, rest: Str)
    ensures PrintString(s, rest) == PrintString(s, []) + rest
  {
    PrintUnitsAppends(s, rest);
    Associates([QUOTE], PrintUnits(s, []), rest);
  }

  lemma {:induction false} PrintAppends(value: Json, rest: Str)
    ensures Print(value, rest) == Print(value, []) + rest
    decreases value
  {
    match value
    case String(s) => StringAppends(s, rest);
    case Array(items) =>
      ItemsAppend(items, true, rest);
      Associates([OPEN_ARRAY], PrintItems(items, true, []), rest);
    case Object(fields) =>
      FieldsAppend(fields, true, rest);
      Associates([OPEN_OBJECT], PrintFields(fields, true, []), rest);
    case Null => Associates(NULL_TEXT, [], rest);
    case NonFinite => Associates(NULL_TEXT, [], rest);
    case Bool(b) => Associates(if b then TRUE_TEXT else FALSE_TEXT, [], rest);
    case Number(text) => Associates(text, [], rest);
  }

  lemma {:induction false} ItemsAppend(items: List<Json>, first: bool, rest: Str)
    ensures PrintItems(items, first, rest) == PrintItems(items, first, []) + rest
    decreases items
  {
    if items.Cons? {
      var comma, others := if first then [] else [COMMA], PrintItems(items.tail, false, []);
      ItemsAppend(items.tail, false, rest);
      PrintAppends(items.head, others + rest);
      PrintAppends(items.head, others);
      Associates(Print(items.head, []), others, rest);
      Associates(comma, Print(items.head, others), rest);
    }
  }

  lemma {:induction false} FieldsAppend(fields: Fields, first: bool, rest: Str)
    ensures PrintFields(fields, first, rest) == PrintFields(fields, first, []) + rest
    decreases fields
  {
    if fields.Cons? {
      var comma, others := if first then [] else [COMMA], PrintFields(fields.tail, false, []);
      var value := Print(fields.head.value, others);
      FieldsAppend(fields.tail, false, rest);
      PrintAppends(fields.head.value, others + rest);
      PrintAppends(fields.head.value, others);
      Associates(Print(fields.head.value, []), others, rest);
      Associates([COLON], value, rest);
      StringAppends(fields.head.key, [COLON] + value + rest);
      StringAppends(fields.head.key, [COLON] + value);
      Associates(PrintString(fields.head.key, []), [COLON] + value, rest);
      Associates(comma, PrintString(fields.head.key, [COLON] + value), rest);
    }
  }

  // ---------------------------------------------------------------- what is printed

  // The parts, with commas between them.
  function Joined(parts: seq<Str>): Str {
    if parts == [] then [] else if |parts| == 1 then parts[0] else parts[0] + [44] + Joined(parts[1..])
  }

  function ItemTexts(items: List<Json>): seq<Str> {
    if items.Nil? then [] else [Print(items.head, [])] + ItemTexts(items.tail)
  }

  function FieldTexts(fields: Fields): seq<Str> {
    if fields.Nil? then []
    else [PrintString(fields.head.key, []) + [58] + Print(fields.head.value, [])] + FieldTexts(fields.tail)
  }

  // What follows the parts printed so far.
  function Ending(first: bool, parts: seq<Str>, close: Unit): Str {
    (if first || parts == [] then [] else [44]) + (Joined(parts) + [close])
  }

  lemma OneMorePart(comma: Str, part: Str, parts: seq<Str>, close: Unit)
    ensures comma + (part + Ending(false, parts, close)) == comma + (Joined([part] + parts) + [close])
  {
    assert ([part] + parts)[1..] == parts;
    if parts == [] {
      assert part + ([] + ([] + [close])) == part + [close];
    } else {
      assert part + ([44] + (Joined(parts) + [close])) == (part + [44] + Joined(parts)) + [close];
    }
  }

  lemma {:induction false} ItemsAreJoined(items: List<Json>, first: bool)
    ensures PrintItems(items, first, []) == Ending(first, ItemTexts(items), 93)
    decreases items
  {
    if items.Cons? {
      ItemsAreJoined(items.tail, false);
      PrintAppends(items.head, PrintItems(items.tail, false, []));
      OneMorePart(if first then [] else [COMMA], Print(items.head, []), ItemTexts(items.tail), 93);
    }
  }

  lemma FieldPrints(key: Str, value: Json, others: Str)
    ensures PrintString(key, [COLON] + Print(value, others)) == (PrintString(key, []) + [58] + Print(value, [])) + others
  {
    PrintAppends(value, others);
    StringAppends(key, [COLON] + Print(value, others));
    assert PrintString(key, []) + ([58] + (Print(value, []) + others))
        == (PrintString(key, []) + [58] + Print(value, [])) + others;
  }

  lemma {:induction false} FieldsAreJoined(fields: Fields, first: bool)
    ensures PrintFields(fields, first, []) == Ending(first, FieldTexts(fields), 125)
    decreases fields
  {
    if fields.Cons? {
      FieldsAreJoined(fields.tail, false);
      FieldPrints(fields.head.key, fields.head.value, PrintFields(fields.tail, false, []));
      OneMorePart(if first then [] else [COMMA], PrintString(fields.head.key, []) + [58] + Print(fields.head.value, []),
                  FieldTexts(fields.tail), 125);
    }
  }

  lemma ArrayPrints(items: List<Json>)
    ensures Print(Array(items), []) == [91] + (Joined(ItemTexts(items)) + [93])
  {
    ItemsAreJoined(items, true);
    assert Ending(true, ItemTexts(items), 93) == Joined(ItemTexts(items)) + [93];
  }

  lemma ObjectPrints(fields: Fields)
    ensures Print(Object(fields), []) == [123] + (Joined(FieldTexts(fields)) + [125])
  {
    FieldsAreJoined(fields, true);
    assert Ending(true, FieldTexts(fields), 125) == Joined(FieldTexts(fields)) + [125];
  }

  lemma WordsPrint(value: Json)
    ensures value.Null? || value.NonFinite? ==> Print(value, []) == Ascii("null")
    ensures value.Bool? ==> Print(value, []) == if value.b then Ascii("true") else Ascii("false")
    ensures value.Number? ==> Print(value, []) == value.text
  {
  }

  /** Values are printed without blanks: words and numbers as they are, items in brackets and fields in braces with
      commas between them, and a colon between a key and its value. */
  lemma ValuesPrint(value: Json)
    ensures match value
            case Null => Print(value, []) == Ascii("null")
            case NonFinite => Print(value, []) == Ascii("null")
            case Bool(b) => Print(value, []) == if b then Ascii("true") else Ascii("false")
            case Number(text) => Print(value, []) == text
            case String(s) => Print(value, []) == [34] + PrintUnits(s, [])
            case Array(items) => Print(value, []) == [91] + (Joined(ItemTexts(items)) + [93])
            case Object(fields) => Print(value, []) == [123] + (Joined(FieldTexts(fields)) + [125])
  {
    match value
    case Array(items) => ArrayPrints(items);
    case Object(fields) => ObjectPrints(fields);
    case _ => WordsPrint(value);
  }

  // ---------------------------------------------------------------- strings

  function HexMeaning(digit: int): int {
    if digit < 58 then digit - 48 else digit - 87
  }

  // What four hexadecimal digits stand for.
  function HexNumber(digits: Str): int
    requires |digits| == 4
  {
    4096 * HexMeaning(digits[0]) + 256 * HexMeaning(digits[1]) + 16 * HexMeaning(digits[2]) + HexMeaning(digits[3])
  }

  predicate IsHexText(digits: Str) {
    |digits| == 4 && forall i :: 0 <= i < 4 ==> 48 <= digits[i] <= 57 || 97 <= digits[i] <= 102
  }

  // How one unit is shown that is not part of a pair of surrogates.
  predicate Shows(text: Str, u: Unit) {
    if u == 34 then text == Ascii("\\\"")
    else if u == 92 then text == Ascii("\\\\")
    else if u == 8 then text == Ascii("\\b")
    else if u == 12 then text == Ascii("\\f")
    else if u == 10 then text == Ascii("\\n")
    else if u == 13 then text == Ascii("\\r")
    else if u == 9 then text == Ascii("\\t")
    else if u < 32 || 0xD800 <= u < 0xE000 then
      |text| == 6 && text[..2] == Ascii("\\u") && IsHexText(text[2..]) && HexNumber(text[2..]) == u
    else text == [u]
  }

  lemma HexShows(u: Unit, digits: Str)
    requires digits == [HexDigit(u / 4096), HexDigit(u / 256 % 16), HexDigit(u / 16 % 16), HexDigit(u % 16)]
    ensures IsHexText(digits) && HexNumber(digits) == u
  {
    HexDigitsOf(u);
  }

  lemma UnitShows(u: Unit)
    ensures Shows(PrintUnit(u, []), u)
  {
    var text := PrintUnit(u, []);
    if ShortEscape(u).None? && (u < 32 || IsHigh(u) || IsLow(u)) {
      HexShows(u, text[2..]);
    }
  }

  /** A string is printed unit by unit, up to its closing quote: paired surrogates as they are, every other unit as
      itself or by its escape. */
  lemma StringsPrint(s: Str)
    ensures if s == [] then PrintUnits(s, []) == [34]
            else if |s| > 1 && 0xD800 <= s[0] < 0xDC00 && 0xDC00 <= s[1] < 0xE000
            then PrintUnits(s, []) == s[..2] + PrintUnits(s[2..], [])
            else exists shown :: Shows(shown, s[0]) && PrintUnits(s, []) == shown + PrintUnits(s[1..], [])
  {
    if |s| > 1 && IsHigh(s[0]) && IsLow(s[1]) {
      assert s[..2] == [s[0], s[1]];
    } else if s != [] {
      UnitShows(s[0]);
      UnitAppends(s[0], PrintUnits(s[1..], []));
      assert Shows(PrintUnit(s[0], []), s[0]);
    }
  }

  // ---------------------------------------------------------------- the text is well formed

  // No control character, and no surrogate outside of a pair.
  predicate IsPlain(t: Str) {
    || t == []
    || (t[0] >= 32 && !(0xD800 <= t[0] < 0xE000) && IsPlain(t[1..]))
    || (|t| > 1 && 0xD800 <= t[0] < 0xDC00 && 0xDC00 <= t[1] < 0xE000 && IsPlain(t[2..]))
  }

  lemma {:induction false} PlainConcat(a: Str, b: Str)
    requires IsPlain(a) && IsPlain(b)
    ensures IsPlain(a + b)
    decreases |a|
  {
    if a == [] {
      assert a + b == b;
    } else if !(0xD800 <= a[0] < 0xE000) {
      assert (a + b)[1..] == a[1..] + b;
      PlainConcat(a[1..], b);
    } else {
      assert (a + b)[2..] == a[2..] + b;
      PlainConcat(a[2..], b);
    }
  }

  lemma {:induction false} AsciiIsPlain(t: Str)
    requires forall i :: 0 <= i < |t| ==> 32 <= t[i] < 128
    ensures IsPlain(t)
  {
    if t != [] { AsciiIsPlain(t[1..]); }
  }

  lemma UnitIsPlain(u: Unit)
    ensures IsPlain(PrintUnit(u, []))
  {
    if ShortEscape(u).Some? || u < 32 || IsHigh(u) || IsLow(u) {
      AsciiIsPlain(PrintUnit(u, []));
    } else {
      assert PrintUnit(u, [])[1..] == [];
    }
  }

  lemma PairIsPlain(high: Unit, low: Unit, rest: Str)
    requires IsHigh(high) && IsLow(low) && IsPlain(rest)
    ensures IsPlain([high, low] + rest)
  {
    assert ([high, low] + rest)[2..] == rest;
  }

  lemma {:induction false} UnitsArePlain(s: Str)
    ensures IsPlain(PrintUnits(s, []))
    decreases |s|
  {
    if s == [] {
      AsciiIsPlain([QUOTE] + []);
    } else if |s| > 1 && IsHigh(s[0]) && IsLow(s[1]) {
      UnitsArePlain(s[2..]);
      PairIsPlain(s[0], s[1], PrintUnits(s[2..], []));
    } else {
      UnitsArePlain(s[1..]);
      UnitIsPlain(s[0]);
      UnitAppends(s[0], PrintUnits(s[1..], []));
      PlainConcat(PrintUnit(s[0], []), PrintUnits(s[1..], []));
    }
  }

  lemma StringIsPlain(s: Str)
    ensures IsPlain(PrintString(s, []))
  {
    UnitsArePlain(s);
    AsciiIsPlain([QUOTE]);
    PlainConcat([QUOTE], PrintUnits(s, []));
  }

  lemma {:induction false} JoinedIsPlain(parts: seq<Str>)
    requires forall i :: 0 <= i < |parts| ==> IsPlain(parts[i])
    ensures IsPlain(Joined(parts))
  {
    if |parts| > 1 {
      JoinedIsPlain(parts[1..]);
      AsciiIsPlain([44]);
      PlainConcat(parts[0], [44]);
      PlainConcat(parts[0] + [44], Joined(parts[1..]));
    }
  }

  lemma EnclosedIsPlain(open: Unit, parts: seq<Str>, close: Unit)
    requires 32 <= open < 128 && 32 <= close < 128 && forall i :: 0 <= i < |parts| ==> IsPlain(parts[i])
    ensures IsPlain([open] + (Joined(parts) + [close]))
  {
    JoinedIsPlain(parts);
    AsciiIsPlain([open]);
    AsciiIsPlain([close]);
    PlainConcat(Joined(parts), [close]);
    PlainConcat([open], Joined(parts) + [close]);
  }

  lemma WordIsPlain(value: Json)
    requires Proper(value) && !value.String? && !value.Array? && !value.Object?
    ensures IsPlain(Print(value, []))
  {
    WordsPrint(value);
    AsciiIsPlain(Print(value, []));
  }

  /** The text of every value that can exist is free of control characters and of unpaired surrogates. */
  lemma {:induction false} PrintedIsPlain(value: Json)
    requires Proper(value)
    ensures IsPlain(Print(value, []))
    decreases value
  {
    match value
    case String(s) => StringIsPlain(s);
    case Array(items) =>
      ArrayPrints(items);
      ItemsArePlain(items);
      EnclosedIsPlain(91, ItemTexts(items), 93);
    case Object(fields) =>
      ObjectPrints(fields);
      FieldsArePlain(fields);
      EnclosedIsPlain(123, FieldTexts(fields), 125);
    case _ => WordIsPlain(value);
  }

  lemma {:induction false} ItemsArePlain(items: List<Json>)
    requires ProperItems(items)
    ensures forall i :: 0 <= i < |ItemTexts(items)| ==> IsPlain(ItemTexts(items)[i])
    decreases items
  {
    if items.Cons? {
      PrintedIsPlain(items.head);
      ItemsArePlain(items.tail);
    }
  }

  lemma FieldIsPlain(key: Str, text: Str)
    requires IsPlain(text)
    ensures IsPlain(PrintString(key, []) + [58] + text)
  {
    StringIsPlain(key);
    AsciiIsPlain([58]);
    PlainConcat(PrintString(key, []), [58]);
    PlainConcat(PrintString(key, []) + [58], text);
  }

  lemma {:induction false} FieldsArePlain(fields: Fields)
    requires ProperFields(fields)
    ensures forall i :: 0 <= i < |FieldTexts(fields)| ==> IsPlain(FieldTexts(fields)[i])
    decreases fields
  {
    if fields.Cons? {
      PrintedIsPlain(fields.head.value);
      FieldsArePlain(fields.tail);
      FieldIsPlain(fields.head.key, Print(fields.head.value, []));
    }
  }
}
