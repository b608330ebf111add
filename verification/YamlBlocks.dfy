/** The block structure of the YAML subset: parseYAML of crawler/ingestion/structured.ts. */
module YamlBlocks {
  import opened Prelude
  import opened Text

  // One line of the document. `literal` is set for block scalars, which always have a value.
  datatype Token = Token(indent: nat, sequence: bool, key: Option<Str>, value: Option<Str>, literal: bool)

  // A leaf stands for yamlScalar(raw, literal); fields are in the order they were first assigned.
  datatype Value = Null | Leaf(raw: Str, literal: bool) | List(items: seq<Value>) | Object(fields: seq<Field>)

  datatype Field = Field(key: Str, value: Value)

  datatype YamlError = ExpectedKey | InconsistentIndentation

  // ---------------------------------------------------------------- the grammar

  datatype Block = Mapping(indent: nat, entries: Entries) | Sequence(indent: nat, items: Items)

  datatype Entries = NoEntries | Entries(key: Str, content: Content, rest: Entries)

  datatype Items = NoItems | Items(item: Item, rest: Items)

  // A line's dash, its key if it has one, what the key or dash holds, and a deeper block that follows on.
  datatype Item = Item(key: Option<Str>, content: Content, more: Option<Block>)

  datatype Content = Scalar(raw: Str, literal: bool) | Nested(block: Block) | Nothing

  datatype Tokens = End | Line(head: Token, tail: Tokens)

  function Length(ts: Tokens): nat {
    if ts.End? then 0 else 1 + Length(ts.tail)
  }

  function First(ts: Tokens): Option<Token> {
    if ts.End? then None else Some(ts.head)
  }

  // Some line follows, and it is deeper.
  predicate Deeper(next: Option<Token>, indent: nat) {
    next.Some? && next.value.indent > indent
  }

  function HeadToken(indent: nat, sequence: bool, key: Option<Str>, content: Content): Token {
    if content.Scalar? then Token(indent, sequence, key, Some(content.raw), content.literal)
    else Token(indent, sequence, key, None, false)
  }

  // The lines of a block, followed by `rest`.
  function PrintBlock(block: Block, rest: Tokens): Tokens {
    match block
    case Mapping(indent, entries) => PrintEntries(entries, indent, rest)
    case Sequence(indent, items) => PrintItems(items, indent, rest)
  }

  function PrintEntries(entries: Entries, indent: nat, rest: Tokens): Tokens {
    match entries
    case NoEntries => rest
    case Entries(key, content, others) =>
      Line(HeadToken(indent, false, Some(key), content), PrintContent(content, PrintEntries(others, indent, rest)))
  }

  function PrintItems(items: Items, indent: nat, rest: Tokens): Tokens {
    match items
    case NoItems => rest
    case Items(item, others) =>
      Line(HeadToken(indent, true, item.key, item.content),
           PrintContent(item.content, PrintMore(item.more, PrintItems(others, indent, rest))))
  }

  function PrintContent(content: Content, rest: Tokens): Tokens {
    if content.Nested? then PrintBlock(content.block, rest) else rest
  }

  function PrintMore(more: Option<Block>, rest: Tokens): Tokens {
    match more
    case None => rest
    case Some(block) => PrintBlock(block, rest)
  }

  // The block, parsed greedily, would take the next line as well.
  predicate Absorbs(block: Block, next: Option<Token>) {
    match block
    case Mapping(indent, entries) => EntriesAbsorb(entries, indent, next)
    case Sequence(indent, items) => ItemsAbsorb(items, indent, next)
  }

  predicate EntriesAbsorb(entries: Entries, indent: nat, next: Option<Token>) {
    match entries
    case NoEntries => next.Some? && next.value.indent == indent && !next.value.sequence
    case Entries(_, content, rest) => EntriesAbsorb(rest, indent, next) || (rest.NoEntries? && ContentAbsorbs(content, indent, next))
  }

  predicate ItemsAbsorb(items: Items, indent: nat, next: Option<Token>) {
    match items
    case NoItems => next.Some? && next.value.indent == indent && next.value.sequence
    case Items(item, rest) => ItemsAbsorb(rest, indent, next) || (rest.NoItems? && ItemAbsorbs(item, indent, next))
  }

  predicate ContentAbsorbs(content: Content, indent: nat, next: Option<Token>) {
    match content
    case Scalar(_, _) => false
    case Nested(block) => Absorbs(block, next)
    case Nothing => Deeper(next, indent)
  }

  predicate ItemAbsorbs(item: Item, indent: nat, next: Option<Token>) {
    match item.more
    case Some(block) => Absorbs(block, next)
    case None => if FollowedOn(item.key, item.content) then Deeper(next, indent) else ContentAbsorbs(item.content, indent, next)
  }

  // A deeper block after the content belongs to the item.
  predicate FollowedOn(key: Option<Str>, content: Content) {
    key.Some? || content.Scalar?
  }

  // Blocks are not empty, deeper than what holds them, and end where a greedy parse ends them.
  predicate Wellformed(block: Block) {
    match block
    case Mapping(indent, entries) => entries.Entries? && WellformedEntries(entries, indent)
    case Sequence(indent, items) => items.Items? && WellformedItems(items, indent)
  }

  predicate WellformedEntries(entries: Entries, indent: nat) {
    match entries
    case NoEntries => true
    case Entries(_, content, rest) => WellformedContent(content, indent) && WellformedEntries(rest, indent)
  }

  predicate WellformedItems(items: Items, indent: nat) {
    match items
    case NoItems => true
    case Items(item, rest) => WellformedItem(item, indent) && WellformedItems(rest, indent)
  }

  predicate WellformedContent(content: Content, indent: nat) {
    content.Nested? ==> content.block.indent > indent && Wellformed(content.block)
  }

  predicate WellformedItem(item: Item, indent: nat) {
    && WellformedContent(item.content, indent)
    && match item.more
       case None => true
       case Some(block) =>
         && FollowedOn(item.key, item.content) && !item.content.Nothing?
         && block.indent > indent && Wellformed(block)
         && (item.content.Nested? ==> !Absorbs(item.content.block, First(PrintBlock(block, End))))
  }

  // ---------------------------------------------------------------- the parser

  datatype Parsed<T> = Parsed(value: T, rest: Tokens)

  function ParseBlock(ts: Tokens): (r: Result<Parsed<Block>, YamlError>)
    requires ts.Line?
    ensures r.Ok? ==> Length(r.value.rest) < Length(ts)
    decreases Length(ts), 2
  {
    var indent := ts.head.indent;
    if ts.head.sequence then
      match ParseItems(ts, indent)
      case Err(e) => Err(e)
      case Ok(Parsed(items, rest)) => Ok(Parsed(Sequence(indent, items), rest))
    else
      match ParseEntries(ts, indent)
      case Err(e) => Err(e)
      case Ok(Parsed(entries, rest)) => Ok(Parsed(Mapping(indent, entries), rest))
  }

  function ParseEntries(ts: Tokens, indent: nat): (r: Result<Parsed<Entries>, YamlError>)
    ensures r.Ok? ==> Length(r.value.rest) <= Length(ts)
    ensures r.Ok? && ts.Line? && ts.head.indent == indent && !ts.head.sequence ==> Length(r.value.rest) < Length(ts)
    decreases Length(ts), 1
  {
    if ts.End? || ts.head.indent != indent || ts.head.sequence then Ok(Parsed(NoEntries, ts))
    else if ts.head.key.None? then Err(ExpectedKey)
    else
      match ParseContent(ts.head, ts.tail)
      case Err(e) => Err(e)
      case Ok(Parsed(content, others)) =>
        match ParseEntries(others, indent)
        case Err(e) => Err(e)
        case Ok(Parsed(entries, rest)) => Ok(Parsed(Entries(ts.head.key.value, content, entries), rest))
  }

  function ParseItems(ts: Tokens, indent: nat): (r: Result<Parsed<Items>, YamlError>)
    ensures r.Ok? ==> Length(r.value.rest) <= Length(ts)
    ensures r.Ok? && ts.Line? && ts.head.indent == indent && ts.head.sequence ==> Length(r.value.rest) < Length(ts)
    decreases Length(ts), 1
  {
    if ts.End? || ts.head.indent != indent || !ts.head.sequence then Ok(Parsed(NoItems, ts))
    else
      match ParseItem(ts)
      case Err(e) => Err(e)
      case Ok(Parsed(item, others)) =>
        match ParseItems(others, indent)
        case Err(e) => Err(e)
        case Ok(Parsed(items, rest)) => Ok(Parsed(Items(item, items), rest))
  }

  function ParseItem(ts: Tokens): (r: Result<Parsed<Item>, YamlError>)
    requires ts.Line?
    ensures r.Ok? ==> Length(r.value.rest) < Length(ts)
    decreases Length(ts), 0
  {
    match ParseContent(ts.head, ts.tail)
    case Err(e) => Err(e)
    case Ok(Parsed(content, after)) =>
      if FollowedOn(ts.head.key, content) && Deeper(First(after), ts.head.indent) then
        match ParseBlock(after)
        case Err(e) => Err(e)
        case Ok(Parsed(more, rest)) => Ok(Parsed(Item(ts.head.key, content, Some(more)), rest))
      else Ok(Parsed(Item(ts.head.key, content, None), after))
  }

  // What a line's key or dash holds: its own value, or the deeper block below it.
  function ParseContent(token: Token, below: Tokens): (r: Result<Parsed<Content>, YamlError>)
    ensures r.Ok? ==> Length(r.value.rest) <= Length(below)
    decreases Length(below), 3
  {
    if token.value.Some? then Ok(Parsed(Scalar(token.value.value, token.literal), below))
    else if Deeper(First(below), token.indent) then
      match ParseBlock(below)
      case Err(e) => Err(e)
      case Ok(Parsed(block, rest)) => Ok(Parsed(Nested(block), rest))
    else Ok(Parsed(Nothing, below))
  }

  // ---------------------------------------------------------------- what is parsed is what was printed

  predicate LiteralsHaveValues(ts: Tokens) {
    ts.Line? ==> (ts.head.literal ==> ts.head.value.Some?) && LiteralsHaveValues(ts.tail)
  }

  lemma {:induction false} BlockSound(ts: Tokens)
    requires ts.Line? && LiteralsHaveValues(ts) && ParseBlock(ts).Ok?
    ensures var Parsed(block, rest) := ParseBlock(ts).value;
            && Wellformed(block) && block.indent == ts.head.indent && PrintBlock(block, rest) == ts
            && !Absorbs(block, First(rest)) && LiteralsHaveValues(rest)
    decreases Length(ts), 2
  {
    if ts.head.sequence { ItemsSound(ts, ts.head.indent); } else { EntriesSound(ts, ts.head.indent); }
  }

  lemma {:induction false} EntriesSound(ts: Tokens, indent: nat)
    requires LiteralsHaveValues(ts) && ParseEntries(ts, indent).Ok?
    ensures var Parsed(entries, rest) := ParseEntries(ts, indent).value;
            && WellformedEntries(entries, indent) && PrintEntries(entries, indent, rest) == ts
            && !EntriesAbsorb(entries, indent, First(rest)) && LiteralsHaveValues(rest)
    decreases Length(ts), 1
  {
    if !(ts.End? || ts.head.indent != indent || ts.head.sequence) {
      ContentSound(ts.head, ts.tail);
      var Parsed(content, others) := ParseContent(ts.head, ts.tail).value;
      EntriesSound(others, indent);
    }
  }

  lemma {:induction false} ItemsSound(ts: Tokens, indent: nat)
    requires LiteralsHaveValues(ts) && ParseItems(ts, indent).Ok?
    ensures var Parsed(items, rest) := ParseItems(ts, indent).value;
            && WellformedItems(items, indent) && PrintItems(items, indent, rest) == ts
            && !ItemsAbsorb(items, indent, First(rest)) && LiteralsHaveValues(rest)
    decreases Length(ts), 1
  {
    if !(ts.End? || ts.head.indent != indent || !ts.head.sequence) {
      ItemSound(ts);
      var Parsed(item, others) := ParseItem(ts).value;
      ItemsSound(others, indent);
    }
  }

  lemma {:induction false} ItemSound(ts: Tokens)
    requires ts.Line? && LiteralsHaveValues(ts) && ParseItem(ts).Ok?
    ensures var Parsed(item, rest) := ParseItem(ts).value;
            && WellformedItem(item, ts.head.indent) && !ItemAbsorbs(item, ts.head.indent, First(rest)) && LiteralsHaveValues(rest)
            && ts.head == HeadToken(ts.head.indent, ts.head.sequence, item.key, item.content)
            && ts.tail == PrintContent(item.content, PrintMore(item.more, rest))
    decreases Length(ts), 0
  {
    ContentSound(ts.head, ts.tail);
    var Parsed(content, after) := ParseContent(ts.head, ts.tail).value;
    if FollowedOn(ts.head.key, content) && Deeper(First(after), ts.head.indent) {
      BlockSound(after);
      var Parsed(more, rest) := ParseBlock(after).value;
      assert First(PrintBlock(more, End)) == First(PrintBlock(more, rest));
    }
  }

  lemma {:induction false} ContentSound(token: Token, below: Tokens)
    requires LiteralsHaveValues(Line(token, below)) && ParseContent(token, below).Ok?
    ensures var Parsed(content, rest) := ParseContent(token, below).value;
            && WellformedContent(content, token.indent) && !ContentAbsorbs(content, token.indent, First(rest))
            && token == HeadToken(token.indent, token.sequence, token.key, content)
            && PrintContent(content, rest) == below && LiteralsHaveValues(rest)
    decreases Length(below), 3
  {
    if token.value.None? && Deeper(First(below), token.indent) { BlockSound(below); }
  }

  // A greedy parse never takes a line shallower than the block.
  lemma {:induction false} AbsorbsIndent(block: Block, next: Option<Token>)
    requires Wellformed(block) && Absorbs(block, next)
    ensures next.Some? && next.value.indent >= block.indent
  {
    match block
    case Mapping(indent, entries) => EntriesAbsorbIndent(entries, indent, next);
    case Sequence(indent, items) => ItemsAbsorbIndent(items, indent, next);
  }

  lemma {:induction false} EntriesAbsorbIndent(entries: Entries, indent: nat, next: Option<Token>)
    requires WellformedEntries(entries, indent) && EntriesAbsorb(entries, indent, next)
    ensures next.Some? && next.value.indent >= indent
  {
    if entries.Entries? {
      if EntriesAbsorb(entries.rest, indent, next) { EntriesAbsorbIndent(entries.rest, indent, next); }
      else { ContentAbsorbsIndent(entries.content, indent, next); }
    }
  }

  lemma {:induction false} ItemsAbsorbIndent(items: Items, indent: nat, next: Option<Token>)
    requires WellformedItems(items, indent) && ItemsAbsorb(items, indent, next)
    ensures next.Some? && next.value.indent >= indent
  {
    if items.Items? {
      var item := items.item;
      if ItemsAbsorb(items.rest, indent, next) { ItemsAbsorbIndent(items.rest, indent, next); }
      else if item.more.Some? { AbsorbsIndent(item.more.value, next); }
      else if !FollowedOn(item.key, item.content) { ContentAbsorbsIndent(item.content, indent, next); }
    }
  }

  lemma {:induction false} ContentAbsorbsIndent(content: Content, indent: nat, next: Option<Token>)
    requires WellformedContent(content, indent) && ContentAbsorbs(content, indent, next)
    ensures next.Some? && next.value.indent > indent
  {
    if content.Nested? { AbsorbsIndent(content.block, next); }
  }

  // The first line of a block does not depend on what follows the block.
  lemma FirstLine(block: Block, rest: Tokens)
    requires Wellformed(block)
    ensures First(PrintBlock(block, rest)).Some? && First(PrintBlock(block, rest)) == First(PrintBlock(block, End))
    ensures First(PrintBlock(block, rest)).value.indent == block.indent
  {
    match block
    case Mapping(_, Entries(_, _, _)) =>
    case Sequence(_, Items(_, _)) =>
  }

  lemma {:induction false} BlockComplete(block: Block, rest: Tokens)
    requires Wellformed(block) && !Absorbs(block, First(rest))
    ensures PrintBlock(block, rest).Line? && ParseBlock(PrintBlock(block, rest)) == Ok(Parsed(block, rest))
    decreases block
  {
    match block
    case Mapping(indent, entries) => EntriesComplete(entries, indent, rest);
    case Sequence(indent, items) => ItemsComplete(items, indent, rest);
  }

  lemma {:induction false} EntriesComplete(entries: Entries, indent: nat, rest: Tokens)
    requires WellformedEntries(entries, indent) && !EntriesAbsorb(entries, indent, First(rest))
    ensures ParseEntries(PrintEntries(entries, indent, rest), indent) == Ok(Parsed(entries, rest))
    decreases entries
  {
    if entries.Entries? {
      var others := PrintEntries(entries.rest, indent, rest);
      if ContentAbsorbs(entries.content, indent, First(others)) {
        ContentAbsorbsIndent(entries.content, indent, First(others));
      }
      ContentComplete(HeadToken(indent, false, Some(entries.key), entries.content), entries.content, others);
      EntriesComplete(entries.rest, indent, rest);
    }
  }

  lemma {:induction false} ItemsComplete(items: Items, indent: nat, rest: Tokens)
    requires WellformedItems(items, indent) && !ItemsAbsorb(items, indent, First(rest))
    ensures ParseItems(PrintItems(items, indent, rest), indent) == Ok(Parsed(items, rest))
    decreases items
  {
    if items.Items? {
      var others := PrintItems(items.rest, indent, rest);
      if items.rest.Items? && ItemAbsorbs(items.item, indent, First(others)) {
        ItemNotAbsorbing(items.item, indent, First(others));
      }
      ItemComplete(items.item, indent, others);
      ItemsComplete(items.rest, indent, rest);
    }
  }

  lemma {:induction false} ItemNotAbsorbing(item: Item, indent: nat, next: Option<Token>)
    requires WellformedItem(item, indent) && next.Some? && next.value.indent <= indent
    ensures !ItemAbsorbs(item, indent, next)
  {
    if ItemAbsorbs(item, indent, next) {
      if item.more.Some? { AbsorbsIndent(item.more.value, next); }
      else if !FollowedOn(item.key, item.content) { ContentAbsorbsIndent(item.content, indent, next); }
    }
  }

  lemma {:induction false} ItemComplete(item: Item, indent: nat, rest: Tokens)
    requires WellformedItem(item, indent) && !ItemAbsorbs(item, indent, First(rest))
    ensures ParseItem(Line(HeadToken(indent, true, item.key, item.content),
                           PrintContent(item.content, PrintMore(item.more, rest)))) == Ok(Parsed(item, rest))
    decreases item
  {
    var after := PrintMore(item.more, rest);
    if item.more.Some? {
      FirstLine(item.more.value, rest);
      BlockComplete(item.more.value, rest);
    } else if FollowedOn(item.key, item.content) && ContentAbsorbs(item.content, indent, First(after)) {
      ContentAbsorbsIndent(item.content, indent, First(after));
    }
    ContentComplete(HeadToken(indent, true, item.key, item.content), item.content, after);
  }

  lemma {:induction false} ContentComplete(token: Token, content: Content, rest: Tokens)
    requires token == HeadToken(token.indent, token.sequence, token.key, content)
    requires WellformedContent(content, token.indent) && !ContentAbsorbs(content, token.indent, First(rest))
    ensures ParseContent(token, PrintContent(content, rest)) == Ok(Parsed(content, rest))
    decreases content
  {
    if content.Nested? {
      BlockComplete(content.block, rest);
      FirstLine(content.block, rest);
    }
  }

  // ---------------------------------------------------------------- values

  const PROTO: Str := [95, 95, 112, 114, 111, 116, 111, 95, 95]
  const VALUE: Str := [118, 97, 108, 117, 101]

  // object[key] = value; assigning to __proto__ makes no field
  function Assign(fields: seq<Field>, key: Str, value: Value): seq<Field> {
    if key == PROTO then fields
    else if fields == [] then [Field(key, value)]
    else if fields[0].key == key then [Field(key, value)] + fields[1..]
    else [fields[0]] + Assign(fields[1..], key, value)
  }

  // Object.assign
  function AssignAll(fields: seq<Field>, more: seq<Field>): seq<Field>
    decreases |more|
  {
    if more == [] then fields else AssignAll(Assign(fields, more[0].key, more[0].value), more[1..])
  }

  function Merge(fields: seq<Field>, nested: Value): seq<Field> {
    if nested.Object? then AssignAll(fields, nested.fields) else Assign(fields, VALUE, nested)
  }

  function Denote(block: Block): Value {
    match block
    case Mapping(_, entries) => Object(DenoteEntries(entries, []))
    case Sequence(_, items) => List(DenoteItems(items, []))
  }

  function DenoteEntries(entries: Entries, before: seq<Field>): seq<Field> {
    match entries
    case NoEntries => before
    case Entries(key, content, rest) => DenoteEntries(rest, Assign(before, key, DenoteContent(content)))
  }

  function DenoteItems(items: Items, before: seq<Value>): seq<Value> {
    match items
    case NoItems => before
    case Items(item, rest) => DenoteItems(rest, before + DenoteItem(item))
  }

  function DenoteItem(item: Item): seq<Value> {
    if item.key.Some? then
      var fields := Assign([], item.key.value, DenoteContent(item.content));
      [Object(if item.more.Some? then Merge(fields, Denote(item.more.value)) else fields)]
    else [DenoteContent(item.content)] + (if item.more.Some? then [Denote(item.more.value)] else [])
  }

  function DenoteContent(content: Content): Value {
    match content
    case Scalar(raw, literal) => Leaf(raw, literal)
    case Nested(block) => Denote(block)
    case Nothing => Null
  }

  function ParseYaml(ts: Tokens): Result<Value, YamlError> {
    if ts.End? then Ok(Object([]))
    else
      match ParseBlock(ts)
      case Err(e) => Err(e)
      case Ok(Parsed(block, rest)) => if rest.End? then Ok(Denote(block)) else Err(InconsistentIndentation)
  }

  /** A stream of lines is accepted exactly when a wellformed block prints it, every line once and in
      order, and that block's value is the result. */
  lemma YamlAccepts(ts: Tokens, value: Value)
    requires ts.Line? && LiteralsHaveValues(ts)
    ensures ParseYaml(ts) == Ok(value)
      <==> exists block :: Wellformed(block) && PrintBlock(block, End) == ts && Denote(block) == value
  {
    if ParseYaml(ts) == Ok(value) { BlockSound(ts); }
    if block :| Wellformed(block) && PrintBlock(block, End) == ts && Denote(block) == value {
      if Absorbs(block, None) { AbsorbsIndent(block, None); }
      BlockComplete(block, End);
    }
  }

  // ---------------------------------------------------------------- a printer for trees

  // Non-empty objects with distinct keys, non-empty lists, and leaves.
  predicate Tree(value: Value)
    decreases value, 1
  {
    match value
    case Null => true
    case Leaf(_, _) => true
    case List(items) => items != [] && forall i :: 0 <= i < |items| ==> Tree(items[i])
    case Object(fields) => fields != [] && DistinctKeys(fields) && forall i :: 0 <= i < |fields| ==> Tree(fields[i].value)
  }

  predicate DistinctKeys(fields: seq<Field>) {
    && (forall i, j :: 0 <= i < j < |fields| ==> fields[i].key != fields[j].key)
    && forall i :: 0 <= i < |fields| ==> fields[i].key != PROTO
  }

  // Where the first key of an object in a list goes: below the dash, on its line if that is safe, or always on its line.
  datatype Dash = Below | WhenSafe | Always

  // Each level is `step` deeper; `flush` puts the list that is a key's value at the indent of the key.
  datatype Style = Style(step: nat, dash: Dash, flush: bool)

  function LayoutContent(value: Value, indent: nat, style: Style): Content
    decreases value, 1
  {
    match value
    case Null => Nothing
    case Leaf(raw, literal) => Scalar(raw, literal)
    case _ => Nested(LayoutBlock(value, indent + style.step, style))
  }

  function LayoutBlock(value: Value, indent: nat, style: Style): Block
    decreases value, 0
  {
    match value
    case Object(fields) => Mapping(indent, LayoutEntries(fields, indent, style))
    case List(items) => Sequence(indent, LayoutItems(items, indent, style))
    case _ => Mapping(indent, NoEntries)
  }

  function LayoutField(value: Value, indent: nat, style: Style): Content
    decreases value, 2
  {
    if style.flush && value.List? then Nested(LayoutBlock(value, indent, style)) else LayoutContent(value, indent, style)
  }

  function LayoutEntries(fields: seq<Field>, indent: nat, style: Style): Entries
    decreases fields, 0
  {
    if fields == [] then NoEntries
    else Entries(fields[0].key, LayoutField(fields[0].value, indent, style), LayoutEntries(fields[1..], indent, style))
  }

  function LayoutItems(items: seq<Value>, indent: nat, style: Style): Items
    decreases items, 0
  {
    if items == [] then NoItems
    else Items(LayoutItem(items[0], indent, style), LayoutItems(items[1..], indent, style))
  }

  // An object whose first key has no value and that has more keys.
  predicate NullFirst(value: Value) {
    value.Object? && |value.fields| > 1 && value.fields[0].value == Null
  }

  predicate OnDashLine(value: Value, style: Style) {
    && value.Object? && value.fields != []
    && (style.dash == Always || (style.dash == WhenSafe && !NullFirst(value)))
  }

  function LayoutItem(value: Value, indent: nat, style: Style): Item
    decreases value, 2
  {
    if OnDashLine(value, style) then
      var fields, inner := value.fields, indent + style.step;
      Item(Some(fields[0].key), LayoutContent(fields[0].value, inner, style),
           if |fields| == 1 then None else Some(Mapping(inner, LayoutEntries(fields[1..], inner, style))))
    else Item(None, LayoutContent(value, indent, style), None)
  }

  // The lines of a value in a style.
  function PrintValue(value: Value, indent: nat, style: Style): Tokens {
    PrintBlock(LayoutBlock(value, indent, style), End)
  }

  // ---------------------------------------------------------------- how printed lines are read

  // A key without a value on a dash's line takes the keys below it as its value.
  function ReadAs(value: Value, dash: Dash): Value
    decreases value, 0
  {
    match value
    case Object(fields) => Object(ReadFields(fields, dash))
    case List(items) => List(ReadItems(items, dash))
    case _ => value
  }

  function ReadFields(fields: seq<Field>, dash: Dash): (read: seq<Field>)
    ensures |read| == |fields| && forall i :: 0 <= i < |fields| ==> read[i].key == fields[i].key
    decreases fields, 0
  {
    if fields == [] then []
    else [Field(fields[0].key, ReadAs(fields[0].value, dash))] + ReadFields(fields[1..], dash)
  }

  function ReadItems(items: seq<Value>, dash: Dash): (read: seq<Value>)
    ensures |read| == |items|
    decreases items, 0
  {
    if items == [] then [] else [ReadListItem(items[0], dash)] + ReadItems(items[1..], dash)
  }

  function ReadListItem(value: Value, dash: Dash): Value
    decreases value, 1
  {
    if dash == Always && NullFirst(value)
    then Object([Field(value.fields[0].key, Object(ReadFields(value.fields[1..], dash)))])
    else ReadAs(value, dash)
  }

  // The block that the lines of a block are read as.
  function Settle(block: Block): Block {
    match block
    case Mapping(indent, entries) => Mapping(indent, SettleEntries(entries))
    case Sequence(indent, items) => Sequence(indent, SettleItems(items))
  }

  function SettleEntries(entries: Entries): Entries {
    match entries
    case NoEntries => NoEntries
    case Entries(key, content, rest) => Entries(key, SettleContent(content), SettleEntries(rest))
  }

  function SettleItems(items: Items): Items {
    match items
    case NoItems => NoItems
    case Items(item, rest) => Items(SettleItem(item), SettleItems(rest))
  }

  function SettleItem(item: Item): Item {
    match item.more
    case None => Item(item.key, SettleContent(item.content), None)
    case Some(block) =>
      if item.content.Nothing? then Item(item.key, Nested(Settle(block)), None)
      else Item(item.key, SettleContent(item.content), Some(Settle(block)))
  }

  function SettleContent(content: Content): Content {
    if content.Nested? then Nested(Settle(content.block)) else content
  }

  lemma {:induction false} SettledPrints(block: Block, rest: Tokens)
    ensures PrintBlock(Settle(block), rest) == PrintBlock(block, rest)
    decreases block
  {
    match block
    case Mapping(indent, entries) => SettledEntriesPrint(entries, indent, rest);
    case Sequence(indent, items) => SettledItemsPrint(items, indent, rest);
  }

  lemma {:induction false} SettledEntriesPrint(entries: Entries, indent: nat, rest: Tokens)
    ensures PrintEntries(SettleEntries(entries), indent, rest) == PrintEntries(entries, indent, rest)
    decreases entries
  {
    if entries.Entries? {
      SettledEntriesPrint(entries.rest, indent, rest);
      SettledContentPrints(entries.content, PrintEntries(entries.rest, indent, rest));
    }
  }

  lemma {:induction false} SettledItemsPrint(items: Items, indent: nat, rest: Tokens)
    ensures PrintItems(SettleItems(items), indent, rest) == PrintItems(items, indent, rest)
    decreases items
  {
    if items.Items? {
      var others, item := PrintItems(items.rest, indent, rest), items.item;
      SettledItemsPrint(items.rest, indent, rest);
      if item.more.Some? { SettledPrints(item.more.value, others); }
      SettledContentPrints(item.content, PrintMore(item.more, others));
    }
  }

  lemma {:induction false} SettledContentPrints(content: Content, rest: Tokens)
    ensures PrintContent(SettleContent(content), rest) == PrintContent(content, rest)
    decreases content
  {
    if content.Nested? { SettledPrints(content.block, rest); }
  }

  predicate AllTrees(items: seq<Value>) {
    forall i :: 0 <= i < |items| ==> Tree(items[i])
  }

  predicate AllFieldTrees(fields: seq<Field>) {
    forall i :: 0 <= i < |fields| ==> Tree(fields[i].value)
  }

  lemma {:induction false} AssignNew(fields: seq<Field>, key: Str, value: Value)
    requires key != PROTO && forall i :: 0 <= i < |fields| ==> fields[i].key != key
    ensures Assign(fields, key, value) == fields + [Field(key, value)]
  {
    if fields != [] { AssignNew(fields[1..], key, value); }
  }

  lemma {:induction false} AssignAllNew(fields: seq<Field>, more: seq<Field>)
    requires DistinctKeys(fields + more)
    ensures AssignAll(fields, more) == fields + more
    decreases |more|
  {
    if more != [] {
      assert (fields + more)[|fields|] == more[0];
      forall i | 0 <= i < |fields| ensures fields[i].key != more[0].key {
        assert (fields + more)[i] == fields[i];
      }
      AssignNew(fields, more[0].key, more[0].value);
      assert more[0] == Field(more[0].key, more[0].value);
      assert (fields + [more[0]]) + more[1..] == fields + more;
      AssignAllNew(fields + [more[0]], more[1..]);
    } else {
      assert fields + more == fields;
    }
  }

  lemma {:induction false} LayoutDenotes(value: Value, indent: nat, style: Style)
    requires style.step >= 1 && !style.flush && Tree(value) && (value.Object? || value.List?)
    ensures var block := Settle(LayoutBlock(value, indent, style));
            Wellformed(block) && block.indent == indent && Denote(block) == ReadAs(value, style.dash)
    decreases value, 0
  {
    if value.Object? {
      EntriesDenote(value.fields, [], indent, style);
      assert [] + ReadFields(value.fields, style.dash) == ReadFields(value.fields, style.dash);
    } else {
      ItemsDenote(value.items, [], indent, style);
      assert [] + ReadItems(value.items, style.dash) == ReadItems(value.items, style.dash);
    }
  }

  lemma {:induction false} ContentDenotes(value: Value, indent: nat, style: Style)
    requires style.step >= 1 && !style.flush && Tree(value)
    ensures var content := SettleContent(LayoutContent(value, indent, style));
            && WellformedContent(content, indent) && DenoteContent(content) == ReadAs(value, style.dash)
            && (content.Nested? ==> content.block.indent == indent + style.step)
            && (content.Nothing? <==> value == Null)
    decreases value, 1
  {
    if value.Object? || value.List? { LayoutDenotes(value, indent + style.step, style); }
  }

  // Distinctness of keys does not depend on the values.
  lemma SameKeysDistinct(a: seq<Field>, b: seq<Field>)
    requires DistinctKeys(a) && |a| == |b| && forall i :: 0 <= i < |a| ==> b[i].key == a[i].key
    ensures DistinctKeys(b)
  {
  }

  lemma {:induction false} EntriesDenote(fields: seq<Field>, before: seq<Field>, indent: nat, style: Style)
    requires style.step >= 1 && !style.flush && AllFieldTrees(fields) && DistinctKeys(before + fields)
    ensures var entries := SettleEntries(LayoutEntries(fields, indent, style));
            WellformedEntries(entries, indent) && DenoteEntries(entries, before) == before + ReadFields(fields, style.dash)
    decreases fields, 0
  {
    if fields == [] {
      assert before + [] == before;
    } else {
      var first := Field(fields[0].key, ReadAs(fields[0].value, style.dash));
      var rest := ReadFields(fields[1..], style.dash);
      assert (before + fields)[|before|] == fields[0];
      ContentDenotes(fields[0].value, indent, style);
      forall i | 0 <= i < |before| ensures before[i].key != first.key {
        assert (before + fields)[i] == before[i];
      }
      AssignNew(before, first.key, first.value);
      SameKeysDistinct(before + fields, (before + [first]) + fields[1..]);
      EntriesDenote(fields[1..], before + [first], indent, style);
      Associates(before, [first], rest);
    }
  }

  lemma {:induction false} ItemsDenote(items: seq<Value>, before: seq<Value>, indent: nat, style: Style)
    requires style.step >= 1 && !style.flush && AllTrees(items)
    ensures var laid := SettleItems(LayoutItems(items, indent, style));
            WellformedItems(laid, indent) && DenoteItems(laid, before) == before + ReadItems(items, style.dash)
    decreases items, 0
  {
    if items == [] {
      assert before + [] == before;
    } else {
      var first, rest := ReadListItem(items[0], style.dash), ReadItems(items[1..], style.dash);
      ItemDenotes(items[0], indent, style);
      ItemsDenote(items[1..], before + [first], indent, style);
      Associates(before, [first], rest);
    }
  }

  lemma {:induction false} ItemDenotes(value: Value, indent: nat, style: Style)
    requires style.step >= 1 && !style.flush && Tree(value)
    ensures var item := SettleItem(LayoutItem(value, indent, style));
            WellformedItem(item, indent) && DenoteItem(item) == [ReadListItem(value, style.dash)]
    decreases value, 2
  {
    if !OnDashLine(value, style) {
      ContentDenotes(value, indent, style);
    } else if NullFirst(value) {
      NullFirstDenotes(value, indent, style);
    } else {
      CompactItemDenotes(value, indent, style);
    }
  }

  lemma {:induction false} NullFirstDenotes(value: Value, indent: nat, style: Style)
    requires style.step >= 1 && !style.flush && Tree(value) && OnDashLine(value, style) && NullFirst(value)
    ensures var item := SettleItem(LayoutItem(value, indent, style));
            WellformedItem(item, indent) && DenoteItem(item) == [ReadListItem(value, style.dash)]
    decreases value, 1
  {
    var fields, inner := value.fields, indent + style.step;
    var rest := fields[1..];
    assert [] + rest == rest;
    EntriesDenote(rest, [], inner, style);
    var entries, read := LayoutEntries(rest, inner, style), ReadFields(rest, style.dash);
    assert [] + read == read && entries.Entries?;
    var block := Mapping(inner, SettleEntries(entries));
    assert Settle(Mapping(inner, entries)) == block && Denote(block) == Object(read);
    var item := SettleItem(LayoutItem(value, indent, style));
    assert LayoutContent(fields[0].value, inner, style) == Nothing;
    assert item == Item(Some(fields[0].key), Nested(block), None);
    AssignNew([], fields[0].key, Object(read));
    assert Assign([], fields[0].key, Object(read)) == [Field(fields[0].key, Object(read))];
    assert DenoteItem(item) == [Object(Assign([], fields[0].key, Denote(block)))];
  }

  lemma {:induction false} CompactItemDenotes(value: Value, indent: nat, style: Style)
    requires style.step >= 1 && !style.flush && Tree(value) && OnDashLine(value, style) && !NullFirst(value)
    ensures var item := SettleItem(LayoutItem(value, indent, style));
            WellformedItem(item, indent) && DenoteItem(item) == [ReadListItem(value, style.dash)]
    decreases value, 1
  {
    var fields, inner := value.fields, indent + style.step;
    var rest, read := fields[1..], ReadFields(fields, style.dash);
    var item := SettleItem(LayoutItem(value, indent, style));
    ContentDenotes(fields[0].value, inner, style);
    AssignNew([], fields[0].key, read[0].value);
    assert Assign([], fields[0].key, read[0].value) == [read[0]];
    if |fields| > 1 {
      assert [] + rest == rest;
      EntriesDenote(rest, [], inner, style);
      assert [] + ReadFields(rest, style.dash) == ReadFields(rest, style.dash);
      SameKeysDistinct(fields, read);
      AssignAllNew([read[0]], ReadFields(rest, style.dash));
      var entries := LayoutEntries(rest, inner, style);
      assert entries.Entries? && SettleEntries(entries).Entries?;
      assert item.more == Some(Settle(Mapping(inner, entries))) == Some(Mapping(inner, SettleEntries(entries)));
      FirstLine(item.more.value, End);
      if item.content.Nested? && Absorbs(item.content.block, First(PrintBlock(item.more.value, End))) {
        AbsorbsIndent(item.content.block, First(PrintBlock(item.more.value, End)));
      }
    } else {
      assert read == [read[0]];
    }
  }

  // What is read of a printed tree.
  lemma PrintedReadsAs(value: Value, indent: nat, style: Style)
    requires style.step >= 1 && !style.flush && Tree(value) && (value.Object? || value.List?)
    ensures ParseYaml(PrintValue(value, indent, style)) == Ok(ReadAs(value, style.dash))
  {
    var block := Settle(LayoutBlock(value, indent, style));
    LayoutDenotes(value, indent, style);
    SettledPrints(LayoutBlock(value, indent, style), End);
    if Absorbs(block, None) { AbsorbsIndent(block, None); }
    BlockComplete(block, End);
  }

  // ---------------------------------------------------------------- first keys on the dash's line

  // Some list item, at any depth, is an object whose first key has no value and that has more keys.
  predicate HasNullFirstItem(value: Value)
    decreases value, 0
  {
    match value
    case Object(fields) => FieldsHaveNullFirst(fields)
    case List(items) => ItemsHaveNullFirst(items)
    case _ => false
  }

  predicate FieldsHaveNullFirst(fields: seq<Field>)
    decreases fields, 0
  {
    fields != [] && (HasNullFirstItem(fields[0].value) || FieldsHaveNullFirst(fields[1..]))
  }

  predicate ItemsHaveNullFirst(items: seq<Value>)
    decreases items, 0
  {
    items != [] && (NullFirst(items[0]) || HasNullFirstItem(items[0]) || ItemsHaveNullFirst(items[1..]))
  }

  lemma {:induction false} ReadsItselfIff(value: Value, dash: Dash)
    ensures ReadAs(value, dash) == value <==> !(dash == Always && HasNullFirstItem(value))
    decreases value, 0
  {
    match value
    case Object(fields) => FieldsReadThemselvesIff(fields, dash);
    case List(items) => ItemsReadThemselvesIff(items, dash);
    case _ =>
  }

  lemma {:induction false} FieldsReadThemselvesIff(fields: seq<Field>, dash: Dash)
    ensures ReadFields(fields, dash) == fields <==> !(dash == Always && FieldsHaveNullFirst(fields))
    decreases fields, 0
  {
    if fields != [] {
      ReadsItselfIff(fields[0].value, dash);
      FieldsReadThemselvesIff(fields[1..], dash);
      var read := ReadFields(fields, dash);
      assert read[0] == Field(fields[0].key, ReadAs(fields[0].value, dash)) && read[1..] == ReadFields(fields[1..], dash);
      assert fields == [fields[0]] + fields[1..] && read == [read[0]] + read[1..];
    }
  }

  lemma {:induction false} ItemsReadThemselvesIff(items: seq<Value>, dash: Dash)
    ensures ReadItems(items, dash) == items <==> !(dash == Always && ItemsHaveNullFirst(items))
    decreases items, 0
  {
    if items != [] {
      ReadsItselfIff(items[0], dash);
      ItemsReadThemselvesIff(items[1..], dash);
      var read := ReadItems(items, dash);
      assert read[0] == ReadListItem(items[0], dash) && read[1..] == ReadItems(items[1..], dash);
      assert items == [items[0]] + items[1..] && read == [read[0]] + read[1..];
    }
  }

  /** Parsing undoes printing for every tree, at any indent and step, whether first keys go below the
      dash or on its line; when they always do, exactly if no list item is an object with further keys
      whose first has no value. */
  lemma YamlRoundTrip(value: Value, indent: nat, style: Style)
    requires style.step >= 1 && !style.flush && Tree(value) && (value.Object? || value.List?)
    ensures ParseYaml(PrintValue(value, indent, style)) == Ok(value)
      <==> !(style.dash == Always && HasNullFirstItem(value))
  {
    PrintedReadsAs(value, indent, style);
    ReadsItselfIff(value, style.dash);
  }

  /** `- k:` above a deeper `j: v` makes v a field of k's value, not of the item. */
  lemma DashKeyTakesSibling(k: Str, j: Str, v: Str, indent: nat, deeper: nat)
    requires indent < deeper && k != PROTO && j != PROTO
    ensures ParseYaml(Line(Token(indent, true, Some(k), None, false), Line(Token(deeper, false, Some(j), Some(v), false), End)))
            == Ok(List([Object([Field(k, Object([Field(j, Leaf(v, false))]))])]))
  {
    var tail := Line(Token(deeper, false, Some(j), Some(v), false), End);
    var inner := Entries(j, Scalar(v, false), NoEntries);
    assert ParseEntries(End, deeper) == Ok(Parsed(NoEntries, End)) && ParseItems(End, indent) == Ok(Parsed(NoItems, End));
    assert ParseEntries(tail, deeper) == Ok(Parsed(inner, End));
    var item, nested := Item(Some(k), Nested(Mapping(deeper, inner)), None), Object([Field(j, Leaf(v, false))]);
    assert ParseContent(Token(indent, true, Some(k), None, false), tail) == Ok(Parsed(item.content, End));
    assert ParseItem(Line(Token(indent, true, Some(k), None, false), tail)) == Ok(Parsed(item, End));
    assert Assign([], j, Leaf(v, false)) == nested.fields && Assign([], k, nested) == [Field(k, nested)];
    assert DenoteEntries(inner, []) == DenoteEntries(NoEntries, nested.fields) == nested.fields;
    assert DenoteContent(item.content) == Denote(Mapping(deeper, inner)) == nested;
    assert DenoteItem(item) == [Object([Field(k, nested)])];
    assert [] + DenoteItem(item) == DenoteItem(item) == DenoteItems(NoItems, DenoteItem(item));
    var ts, items := Line(Token(indent, true, Some(k), None, false), tail), Items(item, NoItems);
    assert ParseItems(ts, indent) == Ok(Parsed(items, End)) && DenoteItems(items, []) == DenoteItem(item);
    assert ParseBlock(ts) == Ok(Parsed(Sequence(indent, items), End));
  }

  // ---------------------------------------------------------------- lists at the indent of their key

  // Some field, at any depth, has a list as its value.
  predicate HasListField(value: Value)
    decreases value, 0
  {
    match value
    case Object(fields) => FieldsHaveList(fields)
    case List(items) => ItemsHaveListField(items)
    case _ => false
  }

  predicate FieldsHaveList(fields: seq<Field>)
    decreases fields, 0
  {
    fields != [] && (fields[0].value.List? || HasListField(fields[0].value) || FieldsHaveList(fields[1..]))
  }

  predicate ItemsHaveListField(items: seq<Value>)
    decreases items, 0
  {
    items != [] && (HasListField(items[0]) || ItemsHaveListField(items[1..]))
  }

  // Without such a field the layout is the one that is not flush.
  lemma {:induction false} SameLayout(value: Value, indent: nat, style: Style)
    requires !HasListField(value)
    ensures LayoutBlock(value, indent, style) == LayoutBlock(value, indent, style.(flush := false))
    ensures LayoutContent(value, indent, style) == LayoutContent(value, indent, style.(flush := false))
    decreases value, 1
  {
    SameBlockLayout(value, indent, style);
    SameBlockLayout(value, indent + style.step, style);
  }

  lemma {:induction false} SameBlockLayout(value: Value, indent: nat, style: Style)
    requires !HasListField(value)
    ensures LayoutBlock(value, indent, style) == LayoutBlock(value, indent, style.(flush := false))
    decreases value, 0
  {
    match value
    case Object(fields) => SameEntriesLayout(fields, indent, style);
    case List(items) => SameItemsLayout(items, indent, style);
    case _ =>
  }

  lemma {:induction false} SameEntriesLayout(fields: seq<Field>, indent: nat, style: Style)
    requires !FieldsHaveList(fields)
    ensures LayoutEntries(fields, indent, style) == LayoutEntries(fields, indent, style.(flush := false))
    decreases fields, 0
  {
    if fields != [] {
      SameLayout(fields[0].value, indent, style);
      SameEntriesLayout(fields[1..], indent, style);
    }
  }

  lemma {:induction false} SameItemsLayout(items: seq<Value>, indent: nat, style: Style)
    requires !ItemsHaveListField(items)
    ensures LayoutItems(items, indent, style) == LayoutItems(items, indent, style.(flush := false))
    decreases items, 0
  {
    if items != [] {
      SameItemLayout(items[0], indent, style);
      SameItemsLayout(items[1..], indent, style);
    }
  }

  lemma {:induction false} SameItemLayout(value: Value, indent: nat, style: Style)
    requires !HasListField(value)
    ensures LayoutItem(value, indent, style) == LayoutItem(value, indent, style.(flush := false))
    decreases value, 2
  {
    SameLayout(value, indent, style);
    if OnDashLine(value, style) {
      var fields, inner := value.fields, indent + style.step;
      SameLayout(fields[0].value, inner, style);
      SameEntriesLayout(fields[1..], inner, style);
    }
  }

  // A dash is left that no block around this indent takes.
  predicate StuckAt(ts: Tokens, indent: nat) {
    ts.Line? && ts.head.indent >= indent && (ts.head.indent == indent ==> ts.head.sequence)
  }

  lemma SettledHead(indent: nat, sequence: bool, key: Option<Str>, content: Content)
    ensures HeadToken(indent, sequence, key, SettleContent(content)) == HeadToken(indent, sequence, key, content)
  {
  }

  // The value is read back, and nothing after it taken.
  lemma GoodContentParses(indent: nat, sequence: bool, key: Option<Str>, value: Value, style: Style, rest: Tokens)
    requires style.step >= 1 && Tree(value) && !HasListField(value)
    requires First(rest).Some? ==> First(rest).value.indent <= indent
    ensures var content := LayoutContent(value, indent, style);
            ParseContent(HeadToken(indent, sequence, key, content), PrintContent(content, rest))
            == Ok(Parsed(SettleContent(content), rest))
  {
    SameLayout(value, indent, style);
    ContentDenotes(value, indent, style.(flush := false));
    GoodLayoutParses(indent, sequence, key, LayoutContent(value, indent, style), rest);
  }

  lemma GoodLayoutParses(indent: nat, sequence: bool, key: Option<Str>, content: Content, rest: Tokens)
    requires WellformedContent(SettleContent(content), indent)
    requires First(rest).Some? ==> First(rest).value.indent <= indent
    ensures ParseContent(HeadToken(indent, sequence, key, content), PrintContent(content, rest))
         == Ok(Parsed(SettleContent(content), rest))
  {
    var settled := SettleContent(content);
    SettledHead(indent, sequence, key, content);
    SettledContentPrints(content, rest);
    if ContentAbsorbs(settled, indent, First(rest)) { ContentAbsorbsIndent(settled, indent, First(rest)); }
    ContentComplete(HeadToken(indent, sequence, key, settled), settled, rest);
  }

  // What holds such a field is laid out as a block.
  lemma ListFieldNests(value: Value, indent: nat, style: Style)
    requires HasListField(value)
    ensures LayoutContent(value, indent, style) == Nested(LayoutBlock(value, indent + style.step, style))
  {
  }

  // A flush list starts with a dash at the indent of its key.
  lemma FlushListStarts(value: Value, indent: nat, style: Style, rest: Tokens)
    requires style.flush && value.List? && value.items != []
    ensures var content := LayoutField(value, indent, style);
            && content.Nested? && PrintContent(content, rest).Line?
            && PrintContent(content, rest).head.indent == indent && PrintContent(content, rest).head.sequence
  {
    var items := LayoutItems(value.items, indent, style);
    assert LayoutBlock(value, indent, style) == Sequence(indent, items);
    assert items.Items?;
    assert PrintBlock(Sequence(indent, items), rest) == PrintItems(items, indent, rest);
  }

  lemma {:induction false} BlockStuck(value: Value, indent: nat, style: Style, rest: Tokens)
    requires style.step >= 1 && style.dash == Below && style.flush && Tree(value) && HasListField(value)
    ensures var ts := PrintBlock(LayoutBlock(value, indent, style), rest);
            && ts.Line? && ts.head.indent == indent
            && (ParseBlock(ts).Ok? ==> StuckAt(ParseBlock(ts).value.rest, indent))
    decreases value, 0
  {
    if value.Object? { EntriesStuck(value.fields, indent, style, rest); } else { ItemsStuck(value.items, indent, style, rest); }
  }

  lemma {:induction false} ContentStuck(token: Token, value: Value, style: Style, rest: Tokens)
    requires style.step >= 1 && style.dash == Below && style.flush && Tree(value) && HasListField(value)
    requires token.value.None?
    ensures var r := ParseContent(token, PrintContent(LayoutContent(value, token.indent, style), rest));
            r.Ok? ==> r.value.rest.Line? && r.value.rest.head.indent > token.indent
    decreases value, 1
  {
    BlockStuck(value, token.indent + style.step, style, rest);
  }

  lemma {:induction false} EntriesStuck(fields: seq<Field>, indent: nat, style: Style, rest: Tokens)
    requires style.step >= 1 && style.dash == Below && style.flush && AllFieldTrees(fields) && FieldsHaveList(fields)
    ensures var ts := PrintEntries(LayoutEntries(fields, indent, style), indent, rest);
            && ts.Line? && ts.head.indent == indent && !ts.head.sequence
            && (ParseEntries(ts, indent).Ok? ==> StuckAt(ParseEntries(ts, indent).value.rest, indent))
    decreases fields, 0
  {
    var value, others := fields[0].value, PrintEntries(LayoutEntries(fields[1..], indent, style), indent, rest);
    var content := LayoutField(value, indent, style);
    var token := HeadToken(indent, false, Some(fields[0].key), content);
    assert Tree(fields[0].value);
    if value.List? {
      var dash := PrintContent(content, others);
      FlushListStarts(value, indent, style, others);
      assert ParseContent(token, dash) == Ok(Parsed(Nothing, dash));
      assert ParseEntries(dash, indent) == Ok(Parsed(NoEntries, dash));
    } else if HasListField(value) {
      ListFieldNests(value, indent, style);
      assert content == LayoutContent(value, indent, style);
      ContentStuck(token, value, style, others);
    } else {
      EntriesStuck(fields[1..], indent, style, rest);
      GoodContentParses(indent, false, Some(fields[0].key), value, style, others);
      assert content == LayoutContent(value, indent, style);
    }
  }

  lemma {:induction false} ItemsStuck(items: seq<Value>, indent: nat, style: Style, rest: Tokens)
    requires style.step >= 1 && style.dash == Below && style.flush && AllTrees(items) && ItemsHaveListField(items)
    ensures var ts := PrintItems(LayoutItems(items, indent, style), indent, rest);
            && ts.Line? && ts.head.indent == indent && ts.head.sequence
            && (ParseItems(ts, indent).Ok? ==>
                  ParseItems(ts, indent).value.rest.Line? && ParseItems(ts, indent).value.rest.head.indent > indent)
    decreases items, 0
  {
    var value, others := items[0], PrintItems(LayoutItems(items[1..], indent, style), indent, rest);
    var content := LayoutContent(value, indent, style);
    var token := HeadToken(indent, true, None, content);
    assert Tree(items[0]) && !OnDashLine(value, style);
    if HasListField(value) {
      ListFieldNests(value, indent, style);
      ContentStuck(token, value, style, others);
    } else {
      ItemsStuck(items[1..], indent, style, rest);
      GoodContentParses(indent, true, None, value, style, others);
      assert !Deeper(First(others), indent);
    }
  }

  /** Printed with lists at the indent of their keys and objects below their dashes, a tree reads back
      exactly if no field has a list as its value, and is refused otherwise. */
  lemma FlushListsAreRefused(value: Value, indent: nat, step: nat)
    requires step >= 1 && Tree(value) && (value.Object? || value.List?)
    ensures var r := ParseYaml(PrintValue(value, indent, Style(step, Below, true)));
            && (r == Ok(value) <==> !HasListField(value)) && (r.Err? <==> HasListField(value))
  {
    var style := Style(step, Below, true);
    if HasListField(value) {
      BlockStuck(value, indent, style, End);
    } else {
      SameLayout(value, indent, style);
      YamlRoundTrip(value, indent, style.(flush := false));
    }
  }

  /** A sequence at the indent of the document's first key is rejected. */
  lemma SequenceAtKeyIndentIsRejected(k: Str, indent: nat, item: Token, rest: Tokens)
    requires item.indent == indent && item.sequence
    ensures ParseYaml(Line(Token(indent, false, Some(k), None, false), Line(item, rest))) == Err(InconsistentIndentation)
  {
    var below := Line(item, rest);
    var head := Token(indent, false, Some(k), None, false);
    assert ParseEntries(below, indent) == Ok(Parsed(NoEntries, below));
    assert ParseContent(head, below) == Ok(Parsed(Nothing, below));
    assert ParseEntries(Line(head, below), indent) == Ok(Parsed(Entries(k, Nothing, NoEntries), below));
  }

  /** Below a key without a value on a dash's line such a list is not refused: it becomes another
      member of the item, named value. */
  lemma FlushListUnderDashKey(k: Str, b: Str, c: Str, indent: nat, deeper: nat)
    requires indent < deeper && k != PROTO && b != PROTO
    ensures var ts := Line(Token(indent, true, Some(k), None, false),
                           Line(Token(deeper, false, Some(b), None, false), Line(Token(deeper, true, None, Some(c), false), End)));
            ParseYaml(ts)
            == Ok(List([Object(Assign([Field(k, Object([Field(b, Null)]))], VALUE, List([Leaf(c, false)])))]))
  {
    var entries := Entries(b, Nothing, NoEntries);
    var items := Items(Item(None, Scalar(c, false), None), NoItems);
    var nested, list := Mapping(deeper, entries), Sequence(deeper, items);
    var item := Item(Some(k), Nested(nested), Some(list));
    var block := Sequence(indent, Items(item, NoItems));
    assert DenoteEntries(entries, []) == DenoteEntries(NoEntries, [Field(b, Null)]) == [Field(b, Null)];
    assert DenoteItem(items.item) == [Leaf(c, false)];
    assert DenoteItems(items, []) == DenoteItems(NoItems, [] + [Leaf(c, false)]) == [Leaf(c, false)];
    assert Denote(nested) == Object([Field(b, Null)]) && Denote(list) == List([Leaf(c, false)]);
    assert Assign([], k, Denote(nested)) == [Field(k, Denote(nested))];
    var merged := Object(Assign([Field(k, Denote(nested))], VALUE, Denote(list)));
    assert DenoteItem(item) == [merged];
    assert DenoteItems(block.items, []) == DenoteItems(NoItems, [] + [merged]) == [merged];
    var rest := Line(Token(deeper, true, None, Some(c), false), End);
    assert ParseItems(End, deeper) == Ok(Parsed(NoItems, End)) && ParseItems(End, indent) == Ok(Parsed(NoItems, End));
    assert ParseItem(rest) == Ok(Parsed(items.item, End));
    assert ParseItems(rest, deeper) == Ok(Parsed(items, End));
    assert ParseBlock(rest) == Ok(Parsed(list, End));
    var middle := Line(Token(deeper, false, Some(b), None, false), rest);
    assert ParseEntries(rest, deeper) == Ok(Parsed(NoEntries, rest));
    assert ParseContent(middle.head, rest) == Ok(Parsed(Nothing, rest));
    assert ParseEntries(middle, deeper) == Ok(Parsed(entries, rest));
    assert ParseBlock(middle) == Ok(Parsed(nested, rest));
    var ts := Line(Token(indent, true, Some(k), None, false), middle);
    assert ParseContent(ts.head, middle) == Ok(Parsed(Nested(nested), rest));
    assert ParseItem(ts) == Ok(Parsed(item, End));
    assert ParseItems(ts, indent) == Ok(Parsed(Items(item, NoItems), End));
    assert ParseBlock(ts) == Ok(Parsed(block, End));
  }

  // ---------------------------------------------------------------- the parser of the source, over an array of lines

  function From(tokens: seq<Token>, index: nat): Tokens
    requires index <= |tokens|
    decreases |tokens| - index
  {
    if index == |tokens| then End else Line(tokens[index], From(tokens, index + 1))
  }

  // A value and the index of the line after its own.
  datatype Reading = Read(value: Value, next: nat)

  // The line at `next` and those after it are what is left.
  predicate LeftAt(tokens: seq<Token>, next: nat, rest: Tokens) {
    next <= |tokens| && From(tokens, next) == rest
  }

  // parseBlock
  method ReadBlock(tokens: seq<Token>, start: nat, indent: nat) returns (r: Result<Reading, YamlError>)
    requires start < |tokens| && tokens[start].indent == indent
    ensures match ParseBlock(From(tokens, start))
            case Err(e) => r == Err(e)
            case Ok(Parsed(block, rest)) =>
              r.Ok? && r.value.value == Denote(block) && start < r.value.next && LeftAt(tokens, r.value.next, rest)
    decreases |tokens| - start, 3
  {
    if tokens[start].sequence {
      r := ReadSequence(tokens, start, indent);
    } else {
      r := ReadMapping(tokens, start, indent);
    }
  }

  // The items read before, followed by those parsed.
  function FinishItems(before: seq<Value>, r: Result<Parsed<Items>, YamlError>): Result<Parsed<seq<Value>>, YamlError> {
    match r
    case Err(e) => Err(e)
    case Ok(Parsed(items, rest)) => Ok(Parsed(DenoteItems(items, before), rest))
  }

  function FinishEntries(before: seq<Field>, r: Result<Parsed<Entries>, YamlError>): Result<Parsed<seq<Field>>, YamlError> {
    match r
    case Err(e) => Err(e)
    case Ok(Parsed(entries, rest)) => Ok(Parsed(DenoteEntries(entries, before), rest))
  }

  method ReadSequence(tokens: seq<Token>, start: nat, indent: nat) returns (r: Result<Reading, YamlError>)
    requires start < |tokens| && tokens[start].indent == indent && tokens[start].sequence
    ensures match ParseBlock(From(tokens, start))
            case Err(e) => r == Err(e)
            case Ok(Parsed(block, rest)) =>
              r.Ok? && r.value.value == Denote(block) && start < r.value.next && LeftAt(tokens, r.value.next, rest)
    decreases |tokens| - start, 2
  {
    var result: seq<Value> := [];
    var index := start;
    while index < |tokens| && tokens[index].indent == indent && tokens[index].sequence
      invariant start <= index <= |tokens| && (index == start ==> tokens[start].sequence)
      invariant FinishItems([], ParseItems(From(tokens, start), indent))
                == FinishItems(result, ParseItems(From(tokens, index), indent))
    {
      var item := ReadItem(tokens, index);
      if item.Err? { return Err(item.error); }
      var (values, next) := item.value;
      result, index := result + values, next;
    }
    r := Ok(Read(List(result), index));
  }

  method ReadMapping(tokens: seq<Token>, start: nat, indent: nat) returns (r: Result<Reading, YamlError>)
    requires start < |tokens| && tokens[start].indent == indent && !tokens[start].sequence
    ensures match ParseBlock(From(tokens, start))
            case Err(e) => r == Err(e)
            case Ok(Parsed(block, rest)) =>
              r.Ok? && r.value.value == Denote(block) && start < r.value.next && LeftAt(tokens, r.value.next, rest)
    decreases |tokens| - start, 2
  {
    var result: seq<Field> := [];
    var index := start;
    while index < |tokens| && tokens[index].indent == indent && !tokens[index].sequence
      invariant start <= index <= |tokens| && (index == start ==> !tokens[start].sequence)
      invariant FinishEntries([], ParseEntries(From(tokens, start), indent))
                == FinishEntries(result, ParseEntries(From(tokens, index), indent))
    {
      var token := tokens[index];
      if token.key.None? { return Err(ExpectedKey); }
      var content := ReadContent(tokens, index);
      if content.Err? { return Err(content.error); }
      result := Assign(result, token.key.value, content.value.value);
      index := content.value.next;
    }
    r := Ok(Read(Object(result), index));
  }

  // What the line at `index` holds: its own value, or the deeper block below it.
  method ReadContent(tokens: seq<Token>, index: nat) returns (r: Result<Reading, YamlError>)
    requires index < |tokens|
    ensures match ParseContent(tokens[index], From(tokens, index + 1))
            case Err(e) => r == Err(e)
            case Ok(Parsed(content, rest)) =>
              r.Ok? && r.value.value == DenoteContent(content) && index < r.value.next && LeftAt(tokens, r.value.next, rest)
    decreases |tokens| - index, 0
  {
    var token := tokens[index];
    if token.value.Some? {
      r := Ok(Read(Leaf(token.value.value, token.literal), index + 1));
    } else if index + 1 < |tokens| && tokens[index + 1].indent > token.indent {
      r := ReadBlock(tokens, index + 1, tokens[index + 1].indent);
    } else {
      r := Ok(Read(Null, index + 1));
    }
  }

  // What the item at `index` adds to its list, and the index of the line after it.
  method ReadItem(tokens: seq<Token>, index: nat) returns (r: Result<(seq<Value>, nat), YamlError>)
    requires index < |tokens|
    ensures match ParseItem(From(tokens, index))
            case Err(e) => r == Err(e)
            case Ok(Parsed(item, rest)) =>
              r.Ok? && r.value.0 == DenoteItem(item) && index < r.value.1 && LeftAt(tokens, r.value.1, rest)
    decreases |tokens| - index, 1
  {
    var token := tokens[index];
    var content := ReadContent(tokens, index);
    if content.Err? { return Err(content.error); }
    var next := content.value.next;
    var values := [content.value.value];
    if token.key.Some? { values := [Object(Assign([], token.key.value, content.value.value))]; }
    if (token.key.Some? || token.value.Some?) && next < |tokens| && tokens[next].indent > token.indent {
      var nested := ReadBlock(tokens, next, tokens[next].indent);
      if nested.Err? { return Err(nested.error); }
      if token.key.Some? {
        values := [Object(Merge(values[0].fields, nested.value.value))];
      } else {
        values := values + [nested.value.value];
      }
      next := nested.value.next;
    }
    r := Ok((values, next));
  }

  // parseYAML, from its lines
  method ReadYaml(tokens: seq<Token>) returns (r: Result<Value, YamlError>)
    ensures r == ParseYaml(From(tokens, 0))
  {
    if |tokens| == 0 { return Ok(Object([])); }
    var parsed := ReadBlock(tokens, 0, tokens[0].indent);
    if parsed.Err? { return Err(parsed.error); }
    if parsed.value.next != |tokens| { return Err(InconsistentIndentation); }
    r := Ok(parsed.value.value);
  }
}
