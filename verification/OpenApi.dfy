/**
 Extraction from an OpenAPI document: crawler/ingestion/openapi-candidate.ts.
 A hash stands for the text that is hashed.
 */
module OpenApi {
  import opened Prelude
  import opened Text
  import opened Canonical

  // ---------------------------------------------------------------- sorted arrays of distinct strings

  function InsertText(x: Str, l: List<Str>): List<Str> {
    if l.Nil? then Cons(x, Nil)
    else if x == l.head then l
    else if Less(x, l.head) then Cons(x, l)
    else Cons(l.head, InsertText(x, l.tail))
  }

  function Members(l: List<Str>): set<Str> {
    if l.Nil? then {} else {l.head} + Members(l.tail)
  }

  predicate Rising(l: List<Str>) {
    l.Cons? && l.tail.Cons? ==> Less(l.head, l.tail.head) && Rising(l.tail)
  }

  lemma {:induction false} InsertTextMembers(x: Str, l: List<Str>)
    ensures Members(InsertText(x, l)) == {x} + Members(l)
  {
    if l.Cons? && x != l.head && !Less(x, l.head) { InsertTextMembers(x, l.tail); }
  }

  lemma {:induction false} InsertTextRising(x: Str, l: List<Str>)
    requires Rising(l)
    ensures Rising(InsertText(x, l))
  {
    if l.Cons? && x != l.head && !Less(x, l.head) {
      LessIsTotal(x, l.head);
      InsertTextRising(x, l.tail);
    }
  }

  lemma {:induction false} BelowAll(l: List<Str>, x: Str)
    requires Rising(l) && (l.Cons? ==> Less(x, l.head))
    ensures x !in Members(l)
  {
    if l.Cons? {
      LessIsStrict(x, l.head);
      if l.tail.Cons? { LessIsTransitive(x, l.head, l.tail.head); }
      BelowAll(l.tail, x);
    }
  }

  /** There is one rising list of given members. */
  lemma {:induction false} RisingIsUnique(a: List<Str>, b: List<Str>)
    requires Rising(a) && Rising(b) && Members(a) == Members(b)
    ensures a == b
  {
    if a.Cons? || b.Cons? {
      assert a.Cons? ==> a.head in Members(a);
      assert b.Cons? ==> b.head in Members(b);
      assert a.Cons? && b.Cons?;
      LessIsTotal(a.head, b.head);
      if Less(a.head, b.head) { BelowAll(b, a.head); }
      if Less(b.head, a.head) { BelowAll(a, b.head); }
      BelowAll(a.tail, a.head);
      BelowAll(b.tail, b.head);
      assert Members(a.tail) == Members(a) - {a.head} && Members(b.tail) == Members(b) - {b.head};
      RisingIsUnique(a.tail, b.tail);
    }
  }

  // ---------------------------------------------------------------- reading values

  // objectValue(value)
  function ObjectValue(value: Option<Json>): Option<Fields> {
    if value.Some? && value.value.Object? then Some(value.value.fields) else None
  }

  // text(value)
  function TextValue(value: Option<Json>): Str {
    if value.Some? && value.value.String? then Trim(value.value.s) else []
  }

  function FieldsOf(value: Option<Json>): Fields {
    if ObjectValue(value).Some? then ObjectValue(value).value else Nil
  }

  // The trimmed strings of an array that are not blank, added to `before`.
  function AddStrings(items: List<Json>, before: List<Str>): List<Str> {
    if items.Nil? then before
    else
      var item := TextValue(Some(items.head));
      AddStrings(items.tail, if item != [] then InsertText(item, before) else before)
  }

  // stringArray(value)
  function StringArray(value: Option<Json>): List<Str> {
    if value.Some? && value.value.Array? then AddStrings(value.value.items, Nil) else Nil
  }

  // The references in a value, wherever they are.
  function Refs(value: Json): set<Str> {
    match value
    case Array(items) => ItemRefs(items)
    case Object(fields) => OwnRef(fields) + FieldRefs(fields)
    case _ => {}
  }

  function ItemRefs(items: List<Json>): set<Str> {
    if items.Nil? then {} else Refs(items.head) + ItemRefs(items.tail)
  }

  function FieldRefs(fields: Fields): set<Str> {
    if fields.Nil? then {} else Refs(fields.head.value) + FieldRefs(fields.tail)
  }

  const REF := Ascii("$ref")

  function OwnRef(fields: Fields): set<Str> {
    var ref := TextValue(Lookup(fields, REF));
    if ref != [] then {ref} else {}
  }

  // schemaRefs: visits the values in the order they are in and keeps a sorted array.
  function VisitRefs(value: Json, before: List<Str>): List<Str> {
    match value
    case Array(items) => VisitItemRefs(items, before)
    case Object(fields) =>
      var ref := TextValue(Lookup(fields, REF));
      VisitFieldRefs(fields, if ref != [] then InsertText(ref, before) else before)
    case _ => before
  }

  function VisitItemRefs(items: List<Json>, before: List<Str>): List<Str> {
    if items.Nil? then before else VisitItemRefs(items.tail, VisitRefs(items.head, before))
  }

  function VisitFieldRefs(fields: Fields, before: List<Str>): List<Str> {
    if fields.Nil? then before else VisitFieldRefs(fields.tail, VisitRefs(fields.head.value, before))
  }

  function VisitOptional(value: Option<Json>, before: List<Str>): List<Str> {
    if value.Some? then VisitRefs(value.value, before) else before
  }

  lemma {:induction false} VisitCollects(value: Json, before: List<Str>)
    requires Rising(before)
    ensures Rising(VisitRefs(value, before)) && Members(VisitRefs(value, before)) == Members(before) + Refs(value)
    decreases value
  {
    match value
    case Array(items) => VisitItemsCollects(items, before);
    case Object(fields) =>
      var ref := TextValue(Lookup(fields, REF));
      if ref != [] {
        InsertTextMembers(ref, before);
        InsertTextRising(ref, before);
      }
      VisitFieldsCollects(fields, if ref != [] then InsertText(ref, before) else before);
    case _ =>
  }

  lemma {:induction false} VisitItemsCollects(items: List<Json>, before: List<Str>)
    requires Rising(before)
    ensures Rising(VisitItemRefs(items, before)) && Members(VisitItemRefs(items, before)) == Members(before) + ItemRefs(items)
    decreases items
  {
    if items.Cons? {
      VisitCollects(items.head, before);
      VisitItemsCollects(items.tail, VisitRefs(items.head, before));
    }
  }

  lemma {:induction false} VisitFieldsCollects(fields: Fields, before: List<Str>)
    requires Rising(before)
    ensures Rising(VisitFieldRefs(fields, before)) && Members(VisitFieldRefs(fields, before)) == Members(before) + FieldRefs(fields)
    decreases fields
  {
    if fields.Cons? {
      VisitCollects(fields.head.value, before);
      VisitFieldsCollects(fields.tail, VisitRefs(fields.head.value, before));
    }
  }

  // ---------------------------------------------------------------- values up to key order

  // The fields of the normal form of an object.
  function NormalObjectFields(fields: Fields): Fields {
    Enumerated(Sort(NormalFields(fields)))
  }

  function NormalOption(value: Option<Json>): Option<Json> {
    if value.Some? then Some(Normal(value.value)) else None
  }

  function NormalItems(items: List<Json>): List<Json> {
    if items.Nil? then Nil else Cons(Normal(items.head), NormalItems(items.tail))
  }

  lemma {:induction false} NormalArray(items: List<Json>)
    ensures FiniteItems(CanonicalItems(items)) == NormalItems(items)
    ensures Normal(Array(items)) == Array(NormalItems(items))
  {
    if items.Cons? { NormalArray(items.tail); }
  }

  lemma {:induction false} NormalInsert(field: Field, fields: Fields)
    ensures NormalFields(Insert(field, fields)) == Insert(Field(field.key, Normal(field.value)), NormalFields(fields))
  {
    if fields.Cons? { NormalInsert(field, fields.tail); }
  }

  lemma {:induction false} NormalSort(fields: Fields)
    ensures NormalFields(Sort(fields)) == Sort(NormalFields(fields))
  {
    if fields.Cons? {
      NormalSort(fields.tail);
      NormalInsert(fields.head, Sort(fields.tail));
    }
  }

  lemma LookupNormalObject(fields: Fields, key: Str)
    requires ProperFields(fields)
    ensures Lookup(NormalObjectFields(fields), key) == NormalOption(Lookup(fields, key))
  {
    ProperIsDistinct(fields);
    LookupEnumeratedSort(NormalFields(fields), key);
    LookupNormal(fields, key);
  }

  lemma NormalObjectDistinct(fields: Fields)
    requires ProperFields(fields)
    ensures Distinct(NormalObjectFields(fields))
  {
    ProperIsDistinct(fields);
    SortSorted(NormalFields(fields));
    SortedDistinct(Sort(NormalFields(fields)));
    EnumeratedDistinct(Sort(NormalFields(fields)));
  }

  /** Sorting the entries of an object gives the same keys in the same order whatever order they were in. */
  lemma SortNormalObject(fields: Fields)
    requires ProperFields(fields)
    ensures Sort(NormalObjectFields(fields)) == NormalFields(Sort(fields))
  {
    ProperIsDistinct(fields);
    NormalObjectDistinct(fields);
    forall key ensures Lookup(NormalObjectFields(fields), key) == Lookup(NormalFields(fields), key) {
      LookupEnumeratedSort(NormalFields(fields), key);
    }
    SortIsUnique(NormalObjectFields(fields), NormalFields(fields));
    NormalSort(fields);
  }

  lemma SortProper(fields: Fields)
    requires ProperFields(fields)
    ensures ProperFields(Sort(fields))
  {
    ProperIsDistinct(fields);
    SortSorted(fields);
    SortedDistinct(Sort(fields));
    forall key | Lookup(Sort(fields), key).Some? ensures Proper(Lookup(Sort(fields), key).value) {
      LookupSort(fields, key);
      ProperLookup(fields, key);
    }
    DistinctIsProper(Sort(fields));
  }

  predicate ProperOption(value: Option<Json>) {
    value.Some? ==> Proper(value.value)
  }

  lemma LookupProper(fields: Fields, key: Str)
    requires ProperFields(fields)
    ensures ProperOption(Lookup(fields, key))
  {
    if Lookup(fields, key).Some? { ProperLookup(fields, key); }
  }

  lemma ReadersIgnoreKeyOrder(value: Option<Json>)
    ensures TextValue(NormalOption(value)) == TextValue(value)
    ensures ObjectValue(NormalOption(value)).Some? <==> ObjectValue(value).Some?
    ensures ObjectValue(value).Some? ==> ObjectValue(NormalOption(value)).value == NormalObjectFields(ObjectValue(value).value)
  {
    if ObjectValue(value).Some? { NormalObject(value.value.fields); }
  }

  lemma {:induction false} StringsIgnoreKeyOrder(items: List<Json>, before: List<Str>)
    ensures AddStrings(NormalItems(items), before) == AddStrings(items, before)
  {
    if items.Cons? {
      ReadersIgnoreKeyOrder(Some(items.head));
      var item := TextValue(Some(items.head));
      StringsIgnoreKeyOrder(items.tail, if item != [] then InsertText(item, before) else before);
    }
  }

  lemma StringArrayIgnoresKeyOrder(value: Option<Json>)
    ensures StringArray(NormalOption(value)) == StringArray(value)
  {
    if value.Some? && value.value.Array? {
      NormalArray(value.value.items);
      StringsIgnoreKeyOrder(value.value.items, Nil);
    }
  }

  predicate RefAt(fields: Fields, key: Str, ref: Str) {
    Lookup(fields, key).Some? && ref in Refs(Lookup(fields, key).value)
  }

  lemma {:induction false} FieldRefsByKey(fields: Fields, ref: Str)
    requires Distinct(fields)
    ensures ref in FieldRefs(fields) <==> exists key :: RefAt(fields, key, ref)
  {
    if fields.Cons? {
      FieldRefsByKey(fields.tail, ref);
      if ref in Refs(fields.head.value) { assert RefAt(fields, fields.head.key, ref); }
      if key :| RefAt(fields.tail, key, ref) { assert RefAt(fields, key, ref); }
      if key :| RefAt(fields, key, ref) { assert key == fields.head.key || RefAt(fields.tail, key, ref); }
    }
  }

  lemma {:induction false} RefsIgnoreKeyOrder(value: Json)
    requires Proper(value)
    ensures Refs(Normal(value)) == Refs(value)
    decreases value
  {
    match value
    case Array(items) =>
      NormalArray(items);
      ItemRefsIgnoreKeyOrder(items);
    case Object(fields) =>
      NormalObject(fields);
      LookupNormalObject(fields, REF);
      ReadersIgnoreKeyOrder(Lookup(fields, REF));
      FieldRefsIgnoreKeyOrder(fields);
    case _ =>
  }

  lemma {:induction false} ItemRefsIgnoreKeyOrder(items: List<Json>)
    requires ProperItems(items)
    ensures ItemRefs(NormalItems(items)) == ItemRefs(items)
    decreases items
  {
    if items.Cons? {
      RefsIgnoreKeyOrder(items.head);
      ItemRefsIgnoreKeyOrder(items.tail);
    }
  }

  lemma {:induction false} FieldRefsIgnoreKeyOrder(fields: Fields)
    requires ProperFields(fields)
    ensures FieldRefs(NormalObjectFields(fields)) == FieldRefs(fields)
    decreases fields, 1
  {
    var normal := NormalObjectFields(fields);
    ProperIsDistinct(fields);
    NormalObjectDistinct(fields);
    forall key ensures Lookup(normal, key) == NormalOption(Lookup(fields, key)) { LookupNormalObject(fields, key); }
    forall key | Lookup(fields, key).Some?
      ensures Refs(Normal(Lookup(fields, key).value)) == Refs(Lookup(fields, key).value)
    {
      RefsAtKey(fields, key);
    }
    forall ref ensures ref in FieldRefs(normal) <==> ref in FieldRefs(fields) {
      FieldRefsByKey(fields, ref);
      FieldRefsByKey(normal, ref);
      forall key ensures RefAt(normal, key, ref) <==> RefAt(fields, key, ref) {}
    }
  }

  lemma {:induction false} RefsAtKey(fields: Fields, key: Str)
    requires ProperFields(fields) && Lookup(fields, key).Some?
    ensures Refs(Normal(Lookup(fields, key).value)) == Refs(Lookup(fields, key).value)
    decreases fields, 0
  {
    if fields.head.key == key { RefsIgnoreKeyOrder(fields.head.value); } else { RefsAtKey(fields.tail, key); }
  }

  lemma VisitIgnoresKeyOrder(value: Option<Json>, before: List<Str>)
    requires ProperOption(value) && Rising(before)
    ensures VisitOptional(NormalOption(value), before) == VisitOptional(value, before) && Rising(VisitOptional(value, before))
  {
    if value.Some? {
      VisitCollects(value.value, before);
      VisitCollects(Normal(value.value), before);
      RefsIgnoreKeyOrder(value.value);
      RisingIsUnique(VisitRefs(Normal(value.value), before), VisitRefs(value.value, before));
    }
  }

  // ---------------------------------------------------------------- what is extracted

  function Upper(s: Str): Str {
    seq(|s|, i requires 0 <= i < |s| => if 97 <= s[i] <= 122 then s[i] - 32 else s[i])
  }

  const METHODS: set<Str> := {
    Ascii("get"), Ascii("post"), Ascii("put"), Ascii("patch"),
    Ascii("delete"), Ascii("head"), Ascii("options"), Ascii("trace") }

  const SLASH: Unit := 47
  const OPENAPI := Ascii("openapi")
  const SWAGGER := Ascii("swagger")
  const PATHS := Ascii("paths")
  const COMPONENTS := Ascii("components")
  const SCHEMAS := Ascii("schemas")
  const DEFINITIONS := Ascii("definitions")
  const OPERATION_ID := Ascii("operationId")
  const TAGS := Ascii("tags")
  const SUMMARY := Ascii("summary")
  const DESCRIPTION := Ascii("description")
  const SECURITY := Ascii("security")
  const PARAMETERS := Ascii("parameters")
  const REQUEST_BODY := Ascii("requestBody")
  const RESPONSES := Ascii("responses")
  const CONTENT := Ascii("content")
  const EXAMPLE := Ascii("example")
  const EXAMPLES := Ascii("examples")
  const VALUE := Ascii("value")
  const DEFAULT := Ascii("default")

  // An operation object that is extracted, with its lower-case method and its path.
  datatype Visit = Visit(path: Str, verb: Str, fields: Fields)

  // A logical id is named by what it is a hash of.
  datatype Operation = Operation(
    logicalId: (Str, Str), key: Str, operationId: Str, verb: Str, path: Str, tags: List<Str>,
    summary: Str, description: Str, security: List<Json>, requestRefs: List<Str>, responseRefs: List<Str>,
    contentHash: Str, ordinal: nat)

  datatype Schema = Schema(logicalId: (Str, Str), key: Str, document: Fields, contentHash: Str)

  datatype Use = InRequest | InResponse(status: Str)

  datatype Example = Example(operation: (Str, Str), use: Use, mediaType: Str, name: Str, value: Json, contentHash: Str)

  datatype Diagnostic = DuplicateOperationId(key: Str, id: Str) | SchemaSkipped(key: Str)

  datatype ErrorEntry = ErrorEntry(operation: Option<(Str, Str)>, key: Str, status: Str, description: Str, aliases: List<Str>)

  datatype Candidate = Candidate(
    version: Str, contract: Json, contentHash: Str, operations: seq<Operation>, schemas: seq<Schema>,
    examples: seq<Example>, errors: seq<ErrorEntry>, diagnostics: seq<Diagnostic>)

  datatype BuildError = NotAnObject | NoVersionOrPaths

  datatype Draft = Draft(visit: Visit, id: Str)

  // The operations below one path, in key order, before those of later paths.
  function VisitMethods(path: Str, entries: Fields, later: List<Visit>): List<Visit> {
    if entries.Nil? then later
    else
      var visits := VisitMethods(path, entries.tail, later);
      if Lower(entries.head.key) in METHODS && entries.head.value.Object?
      then Cons(Visit(path, Lower(entries.head.key), entries.head.value.fields), visits)
      else visits
  }

  function VisitPaths(entries: Fields): List<Visit> {
    if entries.Nil? then Nil
    else
      var later := VisitPaths(entries.tail);
      if StartsWith(entries.head.key, [SLASH]) && entries.head.value.Object?
      then VisitMethods(entries.head.key, Sort(entries.head.value.fields), later)
      else later
  }

  // The operations of a document in the order they are extracted.
  function Visits(root: Fields): List<Visit> {
    VisitPaths(Sort(FieldsOf(Lookup(root, PATHS))))
  }

  function KeyOf(visit: Visit): Str {
    Upper(visit.verb) + [SPACE] + visit.path
  }

  function RawId(visit: Visit): Str {
    TextValue(Lookup(visit.fields, OPERATION_ID))
  }

  function SecurityOf(root: Fields, fields: Fields): List<Json> {
    var own, general := Lookup(fields, SECURITY), Lookup(root, SECURITY);
    if own.Some? && own.value.Array? then own.value.items
    else if general.Some? && general.value.Array? then general.value.items
    else Nil
  }

  function MakeOperation(root: Fields, contract: Str, visit: Visit, id: Str, ordinal: nat): Operation {
    var fields := visit.fields;
    Operation(
      (contract, KeyOf(visit)), KeyOf(visit), id, Upper(visit.verb), visit.path,
      StringArray(Lookup(fields, TAGS)), TextValue(Lookup(fields, SUMMARY)), TextValue(Lookup(fields, DESCRIPTION)),
      SecurityOf(root, fields),
      VisitOptional(Lookup(fields, REQUEST_BODY), VisitOptional(Lookup(fields, PARAMETERS), Nil)),
      VisitOptional(Lookup(fields, RESPONSES), Nil), CanonicalText(Object(fields)), ordinal)
  }

  // The id an operation keeps, and the ids kept when it is done.
  function KeptId(visit: Visit, seen: set<Str>): Str {
    if RawId(visit) in seen then [] else RawId(visit)
  }

  function SeenAfter(visit: Visit, seen: set<Str>): set<Str> {
    if RawId(visit) == [] then seen else seen + {RawId(visit)}
  }

  // The visits and the ids they keep.
  function Drafts(visits: List<Visit>, seen: set<Str>): seq<Draft> {
    if visits.Nil? then []
    else [Draft(visits.head, KeptId(visits.head, seen))] + Drafts(visits.tail, SeenAfter(visits.head, seen))
  }

  function Finish(root: Fields, contract: Str, drafts: seq<Draft>): seq<Operation> {
    seq(|drafts|, k requires 0 <= k < |drafts| => MakeOperation(root, contract, drafts[k].visit, drafts[k].id, k))
  }

  function OperationsOf(root: Fields, contract: Str, visits: List<Visit>): seq<Operation> {
    Finish(root, contract, Drafts(visits, {}))
  }

  function DuplicateOf(visit: Visit, seen: set<Str>): seq<Diagnostic> {
    if RawId(visit) != [] && RawId(visit) in seen then [DuplicateOperationId(KeyOf(visit), RawId(visit))] else []
  }

  function DuplicatesOf(visits: List<Visit>, seen: set<Str>): seq<Diagnostic> {
    if visits.Nil? then []
    else DuplicateOf(visits.head, seen) + DuplicatesOf(visits.tail, SeenAfter(visits.head, seen))
  }

  // An example given by itself or wrapped in an object with a value.
  function Unwrapped(value: Json): Json {
    if value.Object? && Lookup(value.fields, VALUE).Some? then Lookup(value.fields, VALUE).value else value
  }

  function NamedExamples(operation: (Str, Str), use: Use, mediaType: Str, entries: Fields): seq<Example> {
    if entries.Nil? then []
    else
      var value := Unwrapped(entries.head.value);
      [Example(operation, use, mediaType, entries.head.key, value, CanonicalText(value))]
      + NamedExamples(operation, use, mediaType, entries.tail)
  }

  function DefaultExample(operation: (Str, Str), use: Use, mediaType: Str, value: Option<Json>): seq<Example> {
    if value.Some? then [Example(operation, use, mediaType, DEFAULT, value.value, CanonicalText(value.value))] else []
  }

  function MediaExamples(operation: (Str, Str), use: Use, mediaType: Str, media: Fields): seq<Example> {
    DefaultExample(operation, use, mediaType, Lookup(media, EXAMPLE))
    + NamedExamples(operation, use, mediaType, Sort(FieldsOf(Lookup(media, EXAMPLES))))
  }

  function ContentExamples(operation: (Str, Str), use: Use, entries: Fields): seq<Example> {
    if entries.Nil? then []
    else
      (if entries.head.value.Object? then MediaExamples(operation, use, entries.head.key, entries.head.value.fields) else [])
      + ContentExamples(operation, use, entries.tail)
  }

  // examplesFromContent, for the content of a request body or a response
  function ExamplesIn(operation: (Str, Str), use: Use, holder: Option<Json>): seq<Example> {
    ContentExamples(operation, use, Sort(FieldsOf(Lookup(FieldsOf(holder), CONTENT))))
  }

  function ResponseExamples(operation: (Str, Str), entries: Fields): seq<Example> {
    if entries.Nil? then []
    else ExamplesIn(operation, InResponse(entries.head.key), Some(entries.head.value)) + ResponseExamples(operation, entries.tail)
  }

  function OperationExamples(contract: Str, visit: Visit): seq<Example> {
    var operation := (contract, KeyOf(visit));
    ExamplesIn(operation, InRequest, Lookup(visit.fields, REQUEST_BODY))
    + ResponseExamples(operation, Sort(FieldsOf(Lookup(visit.fields, RESPONSES))))
  }

  function ExamplesOf(contract: Str, visits: List<Visit>): seq<Example> {
    if visits.Nil? then [] else OperationExamples(contract, visits.head) + ExamplesOf(contract, visits.tail)
  }

  // components.schemas, or definitions if there is none
  function SchemaRoot(root: Fields): Fields {
    var schemas := ObjectValue(Lookup(FieldsOf(Lookup(root, COMPONENTS)), SCHEMAS));
    if schemas.Some? then schemas.value else FieldsOf(Lookup(root, DEFINITIONS))
  }

  function SchemaAt(contract: Str, entry: Field): seq<Schema> {
    if entry.value.Object?
    then [Schema((contract, entry.key), entry.key, entry.value.fields, CanonicalText(entry.value))]
    else []
  }

  function SkippedAt(entry: Field): seq<Diagnostic> {
    if entry.value.Object? then [] else [SchemaSkipped(entry.key)]
  }

  function SchemasOf(contract: Str, entries: Fields): seq<Schema> {
    if entries.Nil? then [] else SchemaAt(contract, entries.head) + SchemasOf(contract, entries.tail)
  }

  function SkippedOf(entries: Fields): seq<Diagnostic> {
    if entries.Nil? then [] else SkippedAt(entries.head) + SkippedOf(entries.tail)
  }

  // /^[45](?:\d\d|XX)$/i
  predicate IsErrorStatus(status: Str) {
    && |status| == 3 && (status[0] == 52 || status[0] == 53)
    && ((IsDigit(status[1]) && IsDigit(status[2])) || Upper(status[1..]) == Ascii("XX"))
  }

  // new Map(operations.map((operation) => [operation.operationKey, operation])).get(key)
  function OperationByKey(operations: seq<Operation>, key: Str): Option<Operation> {
    if operations == [] then None
    else
      var last := operations[|operations| - 1];
      if last.key == key then Some(last) else OperationByKey(operations[..|operations| - 1], key)
  }

  function AddNonBlank(value: Str, before: List<Str>): List<Str> {
    if Trim(value) == [] then before else InsertText(Trim(value), before)
  }

  function MakeError(operations: seq<Operation>, key: Str, status: Str, response: Json): ErrorEntry {
    var operation := OperationByKey(operations, key);
    var named := AddNonBlank(Upper(status), Nil);
    ErrorEntry(
      if operation.Some? then Some(operation.value.logicalId) else None, key, Upper(status),
      TextValue(Lookup(FieldsOf(Some(response)), DESCRIPTION)),
      if operation.Some? then AddNonBlank(operation.value.key, AddNonBlank(operation.value.operationId, named)) else named)
  }

  function StatusErrors(operations: seq<Operation>, key: Str, entries: Fields): seq<ErrorEntry> {
    if entries.Nil? then []
    else
      (if IsErrorStatus(entries.head.key) then [MakeError(operations, key, entries.head.key, entries.head.value)] else [])
      + StatusErrors(operations, key, entries.tail)
  }

  function MethodErrors(operations: seq<Operation>, path: Str, entries: Fields): seq<ErrorEntry> {
    if entries.Nil? then []
    else
      var verb := Lower(entries.head.key);
      (if verb in METHODS
       then StatusErrors(operations, Upper(verb) + [SPACE] + path,
                         Sort(FieldsOf(Lookup(FieldsOf(Some(entries.head.value)), RESPONSES))))
       else [])
      + MethodErrors(operations, path, entries.tail)
  }

  // contractErrorEntries
  function PathErrors(operations: seq<Operation>, entries: Fields): seq<ErrorEntry> {
    if entries.Nil? then []
    else
      (if entries.head.value.Object? then MethodErrors(operations, entries.head.key, Sort(entries.head.value.fields)) else [])
      + PathErrors(operations, entries.tail)
  }

  function Version(root: Fields): Str {
    var openapi := TextValue(Lookup(root, OPENAPI));
    if openapi != [] then openapi else TextValue(Lookup(root, SWAGGER))
  }

  function CandidateOf(parsed: Json): Result<Candidate, BuildError> {
    if !parsed.Object? then Err(NotAnObject)
    else if Version(parsed.fields) == [] || ObjectValue(Lookup(parsed.fields, PATHS)).None? then Err(NoVersionOrPaths)
    else
      var root := parsed.fields;
      var contract := CanonicalText(Normal(parsed));
      var visits, schemas := Visits(root), Sort(SchemaRoot(root));
      var operations := OperationsOf(root, contract, visits);
      Ok(Candidate(
        Version(root), Normal(parsed), contract, operations, SchemasOf(contract, schemas), ExamplesOf(contract, visits),
        PathErrors(operations, Sort(FieldsOf(Lookup(root, PATHS)))), DuplicatesOf(visits, {}) + SkippedOf(schemas)))
  }

  // ---------------------------------------------------------------- the loops of the source

  method ExtractOperations(root: Fields, contract: Str)
    returns (operations: seq<Operation>, duplicates: seq<Diagnostic>, examples: seq<Example>)
    ensures operations == OperationsOf(root, contract, Visits(root))
    ensures duplicates == DuplicatesOf(Visits(root), {}) && examples == ExamplesOf(contract, Visits(root))
  {
    operations, duplicates, examples := [], [], [];
    var ids: set<Str> := {};
    ghost var drafts: seq<Draft> := [];
    var paths := Sort(FieldsOf(Lookup(root, PATHS)));
    while paths.Cons?
      invariant operations == Finish(root, contract, drafts)
      invariant Extracted(contract, Visits(root), VisitPaths(paths), drafts, duplicates, examples, ids)
      decreases paths
    {
      var path := paths.head;
      ghost var later := VisitPaths(paths.tail);
      if StartsWith(path.key, [SLASH]) && path.value.Object? {
        var entries := Sort(path.value.fields);
        while entries.Cons?
          invariant operations == Finish(root, contract, drafts)
          invariant Extracted(contract, Visits(root), VisitMethods(path.key, entries, later), drafts, duplicates, examples, ids)
          decreases entries
        {
          var verb := Lower(entries.head.key);
          if verb in METHODS && entries.head.value.Object? {
            var visit := Visit(path.key, verb, entries.head.value.fields);
            ExtractedOneMore(contract, Visits(root), visit, VisitMethods(path.key, entries.tail, later),
                             drafts, duplicates, examples, ids);
            FinishOneMore(root, contract, drafts, Draft(visit, KeptId(visit, ids)));
            drafts := drafts + [Draft(visit, KeptId(visit, ids))];
            operations, duplicates, examples, ids := ExtractOne(root, contract, visit, operations, duplicates, examples, ids);
          }
          entries := entries.tail;
        }
      }
      paths := paths.tail;
    }
  }

  method ExtractOne(
    root: Fields, contract: Str, visit: Visit,
    operations: seq<Operation>, duplicates: seq<Diagnostic>, examples: seq<Example>, ids: set<Str>)
    returns (operations': seq<Operation>, duplicates': seq<Diagnostic>, examples': seq<Example>, ids': set<Str>)
    ensures operations' == operations + [MakeOperation(root, contract, visit, KeptId(visit, ids), |operations|)]
    ensures duplicates' == duplicates + DuplicateOf(visit, ids)
    ensures examples' == examples + OperationExamples(contract, visit) && ids' == SeenAfter(visit, ids)
  {
    var id := RawId(visit);
    duplicates', ids' := duplicates, ids;
    if id != [] && id in ids {
      duplicates' := duplicates' + [DuplicateOperationId(KeyOf(visit), id)];
      id := [];
    } else if id != [] {
      ids' := ids' + {id};
    }
    operations' := operations + [MakeOperation(root, contract, visit, id, |operations|)];
    examples' := examples + OperationExamples(contract, visit);
  }

  // What has been extracted, and what the visits still to come will add, make up the whole.
  ghost predicate Extracted(
    contract: Str, all: List<Visit>, rest: List<Visit>,
    drafts: seq<Draft>, duplicates: seq<Diagnostic>, examples: seq<Example>, ids: set<Str>)
  {
    && drafts + Drafts(rest, ids) == Drafts(all, {})
    && duplicates + DuplicatesOf(rest, ids) == DuplicatesOf(all, {})
    && examples + ExamplesOf(contract, rest) == ExamplesOf(contract, all)
  }

  lemma ExtractedOneMore(
    contract: Str, all: List<Visit>, visit: Visit, rest: List<Visit>,
    drafts: seq<Draft>, duplicates: seq<Diagnostic>, examples: seq<Example>, ids: set<Str>)
    requires Extracted(contract, all, Cons(visit, rest), drafts, duplicates, examples, ids)
    ensures Extracted(contract, all, rest, drafts + [Draft(visit, KeptId(visit, ids))],
                      duplicates + DuplicateOf(visit, ids), examples + OperationExamples(contract, visit), SeenAfter(visit, ids))
  {
    var seen := SeenAfter(visit, ids);
    Associates(drafts, [Draft(visit, KeptId(visit, ids))], Drafts(rest, seen));
    Associates(duplicates, DuplicateOf(visit, ids), DuplicatesOf(rest, seen));
    Associates(examples, OperationExamples(contract, visit), ExamplesOf(contract, rest));
  }

  lemma FinishOneMore(root: Fields, contract: Str, drafts: seq<Draft>, draft: Draft)
    ensures Finish(root, contract, drafts + [draft])
            == Finish(root, contract, drafts) + [MakeOperation(root, contract, draft.visit, draft.id, |drafts|)]
  {
    var more, made := drafts + [draft], MakeOperation(root, contract, draft.visit, draft.id, |drafts|);
    var before, after := Finish(root, contract, drafts), Finish(root, contract, more);
    assert |after| == |before + [made]|;
    forall k | 0 <= k < |after| ensures after[k] == (before + [made])[k] {
      assert k < |drafts| ==> more[k] == drafts[k];
    }
  }

  method ExtractSchemas(contract: Str, schemaRoot: Fields) returns (schemas: seq<Schema>, skipped: seq<Diagnostic>)
    ensures schemas == SchemasOf(contract, Sort(schemaRoot)) && skipped == SkippedOf(Sort(schemaRoot))
  {
    schemas, skipped := [], [];
    var entries := Sort(schemaRoot);
    while entries.Cons?
      invariant schemas + SchemasOf(contract, entries) == SchemasOf(contract, Sort(schemaRoot))
      invariant skipped + SkippedOf(entries) == SkippedOf(Sort(schemaRoot))
      decreases entries
    {
      var entry, rest := entries.head, entries.tail;
      Associates(schemas, SchemaAt(contract, entry), SchemasOf(contract, rest));
      Associates(skipped, SkippedAt(entry), SkippedOf(rest));
      schemas, skipped := schemas + SchemaAt(contract, entry), skipped + SkippedAt(entry);
      entries := rest;
    }
  }

  // buildOpenAPICandidate, from the parsed value
  method BuildCandidate(parsed: Json) returns (r: Result<Candidate, BuildError>)
    ensures r == CandidateOf(parsed)
  {
    if !parsed.Object? { return Err(NotAnObject); }
    var root := parsed.fields;
    var paths := ObjectValue(Lookup(root, PATHS));
    if Version(root) == [] || paths.None? { return Err(NoVersionOrPaths); }
    var contract := CanonicalText(Normal(parsed));
    var operations, duplicates, examples := ExtractOperations(root, contract);
    var schemas, skipped := ExtractSchemas(contract, SchemaRoot(root));
    r := Ok(Candidate(Version(root), Normal(parsed), contract, operations, schemas, examples,
                      PathErrors(operations, Sort(paths.value)), duplicates + skipped));
  }

  // ---------------------------------------------------------------- extraction ignores key order

  function NormalVisit(visit: Visit): Visit {
    visit.(fields := NormalObjectFields(visit.fields))
  }

  function NormalVisits(visits: List<Visit>): List<Visit> {
    if visits.Nil? then Nil else Cons(NormalVisit(visits.head), NormalVisits(visits.tail))
  }

  predicate ProperVisits(visits: List<Visit>) {
    visits.Cons? ==> ProperFields(visits.head.fields) && ProperVisits(visits.tail)
  }

  function NormalOperation(operation: Operation): Operation {
    operation.(security := NormalItems(operation.security))
  }

  function NormalOperations(operations: seq<Operation>): seq<Operation> {
    seq(|operations|, i requires 0 <= i < |operations| => NormalOperation(operations[i]))
  }

  function NormalSchema(schema: Schema): Schema {
    schema.(document := NormalObjectFields(schema.document))
  }

  function NormalSchemas(schemas: seq<Schema>): seq<Schema> {
    seq(|schemas|, i requires 0 <= i < |schemas| => NormalSchema(schemas[i]))
  }

  function NormalExample(example: Example): Example {
    example.(value := Normal(example.value))
  }

  function NormalExamples(examples: seq<Example>): seq<Example> {
    seq(|examples|, i requires 0 <= i < |examples| => NormalExample(examples[i]))
  }

  // The candidate with the values it retains put in one key order.
  function NormalCandidate(r: Result<Candidate, BuildError>): Result<Candidate, BuildError> {
    match r
    case Err(e) => Err(e)
    case Ok(c) =>
      Ok(c.(operations := NormalOperations(c.operations), schemas := NormalSchemas(c.schemas), examples := NormalExamples(c.examples)))
  }

  lemma NormalExamplesConcat(a: seq<Example>, b: seq<Example>)
    ensures NormalExamples(a + b) == NormalExamples(a) + NormalExamples(b)
  {
  }

  lemma NormalSchemasConcat(a: seq<Schema>, b: seq<Schema>)
    ensures NormalSchemas(a + b) == NormalSchemas(a) + NormalSchemas(b)
  {
  }

  // A member of an object, read through normal forms.
  lemma MemberNormal(value: Option<Json>, key: Str)
    requires ProperOption(value)
    ensures Lookup(FieldsOf(NormalOption(value)), key) == NormalOption(Lookup(FieldsOf(value), key))
    ensures ProperOption(Lookup(FieldsOf(value), key))
  {
    ReadersIgnoreKeyOrder(value);
    if ObjectValue(value).Some? {
      LookupNormalObject(value.value.fields, key);
      LookupProper(value.value.fields, key);
    }
  }

  // The sorted entries of an object, read through normal forms.
  lemma EntriesNormal(value: Option<Json>)
    requires ProperOption(value)
    ensures Sort(FieldsOf(NormalOption(value))) == NormalFields(Sort(FieldsOf(value))) && ProperFields(Sort(FieldsOf(value)))
  {
    ReadersIgnoreKeyOrder(value);
    if ObjectValue(value).Some? {
      SortNormalObject(value.value.fields);
      SortProper(value.value.fields);
    }
  }

  lemma TextNormal(value: Json)
    requires Proper(value)
    ensures CanonicalText(Normal(value)) == CanonicalText(value)
  {
    CanonicalTextIsStable(value);
  }

  // The head of normal fields.
  lemma HeadNormal(fields: Fields)
    requires ProperFields(fields) && fields.Cons?
    ensures NormalFields(fields) == Cons(Field(fields.head.key, Normal(fields.head.value)), NormalFields(fields.tail))
    ensures Normal(fields.head.value).Object? <==> fields.head.value.Object?
    ensures fields.head.value.Object? ==> Normal(fields.head.value) == Object(NormalObjectFields(fields.head.value.fields))
  {
    if fields.head.value.Object? { NormalObject(fields.head.value.fields); }
  }

  lemma {:induction false} VisitMethodsNormal(path: Str, entries: Fields, later: List<Visit>)
    requires ProperFields(entries) && ProperVisits(later)
    ensures VisitMethods(path, NormalFields(entries), NormalVisits(later)) == NormalVisits(VisitMethods(path, entries, later))
    ensures ProperVisits(VisitMethods(path, entries, later))
  {
    if entries.Cons? {
      VisitMethodsNormal(path, entries.tail, later);
      HeadNormal(entries);
    }
  }

  lemma {:induction false} VisitPathsNormal(entries: Fields)
    requires ProperFields(entries)
    ensures VisitPaths(NormalFields(entries)) == NormalVisits(VisitPaths(entries)) && ProperVisits(VisitPaths(entries))
  {
    if entries.Cons? {
      VisitPathsNormal(entries.tail);
      HeadNormal(entries);
      if entries.head.value.Object? {
        EntriesNormal(Some(entries.head.value));
        VisitMethodsNormal(entries.head.key, Sort(entries.head.value.fields), VisitPaths(entries.tail));
      }
    }
  }

  lemma MakeOperationNormal(root: Fields, contract: Str, visit: Visit, id: Str, ordinal: nat)
    requires ProperFields(root) && ProperFields(visit.fields)
    ensures MakeOperation(NormalObjectFields(root), contract, NormalVisit(visit), id, ordinal)
            == NormalOperation(MakeOperation(root, contract, visit, id, ordinal))
  {
    var fields := visit.fields;
    LookupNormalObject(root, SECURITY);
    LookupNormalObject(fields, SECURITY);
    SecurityNormal(Lookup(fields, SECURITY));
    SecurityNormal(Lookup(root, SECURITY));
    LookupNormalObject(fields, TAGS);
    StringArrayIgnoresKeyOrder(Lookup(fields, TAGS));
    TextsNormal(fields);
    RefsNormal(fields);
    NormalObject(fields);
    TextNormal(Object(fields));
  }

  lemma SecurityNormal(value: Option<Json>)
    ensures value.Some? && value.value.Array? ==> NormalOption(value) == Some(Array(NormalItems(value.value.items)))
    ensures NormalOption(value).Some? && NormalOption(value).value.Array? ==> value.Some? && value.value.Array?
  {
    if value.Some? && value.value.Array? { NormalArray(value.value.items); }
  }

  lemma TextsNormal(fields: Fields)
    requires ProperFields(fields)
    ensures forall key :: TextValue(Lookup(NormalObjectFields(fields), key)) == TextValue(Lookup(fields, key))
  {
    forall key ensures TextValue(Lookup(NormalObjectFields(fields), key)) == TextValue(Lookup(fields, key)) {
      LookupNormalObject(fields, key);
      ReadersIgnoreKeyOrder(Lookup(fields, key));
    }
  }

  lemma RefsNormal(fields: Fields)
    requires ProperFields(fields)
    ensures var normal := NormalObjectFields(fields);
            && VisitOptional(Lookup(normal, REQUEST_BODY), VisitOptional(Lookup(normal, PARAMETERS), Nil))
               == VisitOptional(Lookup(fields, REQUEST_BODY), VisitOptional(Lookup(fields, PARAMETERS), Nil))
            && VisitOptional(Lookup(normal, RESPONSES), Nil) == VisitOptional(Lookup(fields, RESPONSES), Nil)
  {
    RefsOfMemberNormal(fields, PARAMETERS, Nil);
    RefsOfMemberNormal(fields, REQUEST_BODY, VisitOptional(Lookup(fields, PARAMETERS), Nil));
    RefsOfMemberNormal(fields, RESPONSES, Nil);
  }

  lemma RefsOfMemberNormal(fields: Fields, key: Str, before: List<Str>)
    requires ProperFields(fields) && Rising(before)
    ensures VisitOptional(Lookup(NormalObjectFields(fields), key), before) == VisitOptional(Lookup(fields, key), before)
    ensures Rising(VisitOptional(Lookup(fields, key), before))
  {
    LookupNormalObject(fields, key);
    LookupProper(fields, key);
    VisitIgnoresKeyOrder(Lookup(fields, key), before);
  }

  function NormalDrafts(drafts: seq<Draft>): seq<Draft> {
    seq(|drafts|, k requires 0 <= k < |drafts| => Draft(NormalVisit(drafts[k].visit), drafts[k].id))
  }

  predicate ProperDrafts(drafts: seq<Draft>) {
    forall k :: 0 <= k < |drafts| ==> ProperFields(drafts[k].visit.fields)
  }

  lemma RawIdNormal(visit: Visit)
    requires ProperFields(visit.fields)
    ensures RawId(NormalVisit(visit)) == RawId(visit)
  {
    TextsNormal(visit.fields);
  }

  lemma NormalDraftsCons(draft: Draft, drafts: seq<Draft>)
    ensures NormalDrafts([draft] + drafts) == [Draft(NormalVisit(draft.visit), draft.id)] + NormalDrafts(drafts)
  {
  }

  lemma {:induction false} DraftsNormal(visits: List<Visit>, seen: set<Str>)
    requires ProperVisits(visits)
    ensures Drafts(NormalVisits(visits), seen) == NormalDrafts(Drafts(visits, seen)) && ProperDrafts(Drafts(visits, seen))
    ensures DuplicatesOf(NormalVisits(visits), seen) == DuplicatesOf(visits, seen)
  {
    if visits.Cons? {
      RawIdNormal(visits.head);
      NormalDraftsCons(Draft(visits.head, KeptId(visits.head, seen)), Drafts(visits.tail, SeenAfter(visits.head, seen)));
      DraftsNormal(visits.tail, SeenAfter(visits.head, seen));
    }
  }

  lemma FinishNormal(root: Fields, contract: Str, drafts: seq<Draft>)
    requires ProperFields(root) && ProperDrafts(drafts)
    ensures Finish(NormalObjectFields(root), contract, NormalDrafts(drafts)) == NormalOperations(Finish(root, contract, drafts))
  {
    forall k | 0 <= k < |drafts|
      ensures Finish(NormalObjectFields(root), contract, NormalDrafts(drafts))[k]
           == NormalOperation(Finish(root, contract, drafts)[k])
    {
      MakeOperationNormal(root, contract, drafts[k].visit, drafts[k].id, k);
    }
  }

  lemma OperationsNormal(root: Fields, contract: Str, visits: List<Visit>)
    requires ProperFields(root) && ProperVisits(visits)
    ensures OperationsOf(NormalObjectFields(root), contract, NormalVisits(visits))
            == NormalOperations(OperationsOf(root, contract, visits))
    ensures DuplicatesOf(NormalVisits(visits), {}) == DuplicatesOf(visits, {})
  {
    DraftsNormal(visits, {});
    FinishNormal(root, contract, Drafts(visits, {}));
  }

  lemma UnwrappedNormal(value: Json)
    requires Proper(value)
    ensures Unwrapped(Normal(value)) == Normal(Unwrapped(value)) && Proper(Unwrapped(value))
  {
    if value.Object? {
      NormalObject(value.fields);
      LookupNormalObject(value.fields, VALUE);
      LookupProper(value.fields, VALUE);
    }
  }

  lemma {:induction false} NamedExamplesNormal(operation: (Str, Str), use: Use, mediaType: Str, entries: Fields)
    requires ProperFields(entries)
    ensures NamedExamples(operation, use, mediaType, NormalFields(entries))
            == NormalExamples(NamedExamples(operation, use, mediaType, entries))
  {
    if entries.Cons? {
      NamedExamplesNormal(operation, use, mediaType, entries.tail);
      UnwrappedNormal(entries.head.value);
      TextNormal(Unwrapped(entries.head.value));
    }
  }

  lemma MediaExamplesNormal(operation: (Str, Str), use: Use, mediaType: Str, media: Fields)
    requires ProperFields(media)
    ensures MediaExamples(operation, use, mediaType, NormalObjectFields(media))
            == NormalExamples(MediaExamples(operation, use, mediaType, media))
  {
    var value, named := Lookup(media, EXAMPLE), Lookup(media, EXAMPLES);
    LookupNormalObject(media, EXAMPLE);
    LookupProper(media, EXAMPLE);
    if value.Some? { TextNormal(value.value); }
    LookupNormalObject(media, EXAMPLES);
    LookupProper(media, EXAMPLES);
    EntriesNormal(named);
    NamedExamplesNormal(operation, use, mediaType, Sort(FieldsOf(named)));
    NormalExamplesConcat(DefaultExample(operation, use, mediaType, value),
                         NamedExamples(operation, use, mediaType, Sort(FieldsOf(named))));
  }

  lemma {:induction false} ContentExamplesNormal(operation: (Str, Str), use: Use, entries: Fields)
    requires ProperFields(entries)
    ensures ContentExamples(operation, use, NormalFields(entries)) == NormalExamples(ContentExamples(operation, use, entries))
  {
    if entries.Cons? {
      var value := entries.head.value;
      ContentExamplesNormal(operation, use, entries.tail);
      HeadNormal(entries);
      if value.Object? {
        MediaExamplesNormal(operation, use, entries.head.key, value.fields);
        NormalExamplesConcat(MediaExamples(operation, use, entries.head.key, value.fields),
                             ContentExamples(operation, use, entries.tail));
      } else {
        assert [] + NormalExamples(ContentExamples(operation, use, entries.tail))
            == NormalExamples([] + ContentExamples(operation, use, entries.tail));
      }
    }
  }

  lemma ExamplesInNormal(operation: (Str, Str), use: Use, holder: Option<Json>)
    requires ProperOption(holder)
    ensures ExamplesIn(operation, use, NormalOption(holder)) == NormalExamples(ExamplesIn(operation, use, holder))
  {
    MemberNormal(holder, CONTENT);
    EntriesNormal(Lookup(FieldsOf(holder), CONTENT));
    ContentExamplesNormal(operation, use, Sort(FieldsOf(Lookup(FieldsOf(holder), CONTENT))));
  }

  lemma {:induction false} ResponseExamplesNormal(operation: (Str, Str), entries: Fields)
    requires ProperFields(entries)
    ensures ResponseExamples(operation, NormalFields(entries)) == NormalExamples(ResponseExamples(operation, entries))
  {
    if entries.Cons? {
      var use := InResponse(entries.head.key);
      ResponseExamplesNormal(operation, entries.tail);
      ExamplesInNormal(operation, use, Some(entries.head.value));
      NormalExamplesConcat(ExamplesIn(operation, use, Some(entries.head.value)), ResponseExamples(operation, entries.tail));
    }
  }

  lemma OperationExamplesNormal(contract: Str, visit: Visit)
    requires ProperFields(visit.fields)
    ensures OperationExamples(contract, NormalVisit(visit)) == NormalExamples(OperationExamples(contract, visit))
  {
    var operation, fields := (contract, KeyOf(visit)), visit.fields;
    LookupNormalObject(fields, REQUEST_BODY);
    LookupProper(fields, REQUEST_BODY);
    ExamplesInNormal(operation, InRequest, Lookup(fields, REQUEST_BODY));
    LookupNormalObject(fields, RESPONSES);
    LookupProper(fields, RESPONSES);
    EntriesNormal(Lookup(fields, RESPONSES));
    ResponseExamplesNormal(operation, Sort(FieldsOf(Lookup(fields, RESPONSES))));
    NormalExamplesConcat(ExamplesIn(operation, InRequest, Lookup(fields, REQUEST_BODY)),
                         ResponseExamples(operation, Sort(FieldsOf(Lookup(fields, RESPONSES)))));
  }

  lemma {:induction false} ExamplesNormal(contract: Str, visits: List<Visit>)
    requires ProperVisits(visits)
    ensures ExamplesOf(contract, NormalVisits(visits)) == NormalExamples(ExamplesOf(contract, visits))
  {
    if visits.Cons? {
      ExamplesNormal(contract, visits.tail);
      OperationExamplesNormal(contract, visits.head);
      NormalExamplesConcat(OperationExamples(contract, visits.head), ExamplesOf(contract, visits.tail));
    }
  }

  lemma SchemaRootNormal(root: Fields)
    requires ProperFields(root)
    ensures Sort(SchemaRoot(NormalObjectFields(root))) == NormalFields(Sort(SchemaRoot(root)))
    ensures ProperFields(Sort(SchemaRoot(root)))
  {
    var components := Lookup(root, COMPONENTS);
    LookupNormalObject(root, COMPONENTS);
    LookupProper(root, COMPONENTS);
    MemberNormal(components, SCHEMAS);
    var schemas := Lookup(FieldsOf(components), SCHEMAS);
    ReadersIgnoreKeyOrder(schemas);
    EntriesNormal(schemas);
    LookupNormalObject(root, DEFINITIONS);
    LookupProper(root, DEFINITIONS);
    EntriesNormal(Lookup(root, DEFINITIONS));
  }

  lemma {:induction false} SchemasNormal(contract: Str, entries: Fields)
    requires ProperFields(entries)
    ensures SchemasOf(contract, NormalFields(entries)) == NormalSchemas(SchemasOf(contract, entries))
    ensures SkippedOf(NormalFields(entries)) == SkippedOf(entries)
  {
    if entries.Cons? {
      SchemasNormal(contract, entries.tail);
      HeadNormal(entries);
      TextNormal(entries.head.value);
      NormalSchemasConcat(SchemaAt(contract, entries.head), SchemasOf(contract, entries.tail));
    }
  }

  lemma {:induction false} OperationByKeyNormal(operations: seq<Operation>, key: Str)
    ensures var normal, plain := OperationByKey(NormalOperations(operations), key), OperationByKey(operations, key);
            if plain.None? then normal.None? else normal == Some(NormalOperation(plain.value))
  {
    if operations != [] {
      var front := operations[..|operations| - 1];
      assert NormalOperations(operations)[..|operations| - 1] == NormalOperations(front);
      OperationByKeyNormal(front, key);
    }
  }

  lemma {:induction false} StatusErrorsNormal(operations: seq<Operation>, key: Str, entries: Fields)
    requires ProperFields(entries)
    ensures StatusErrors(NormalOperations(operations), key, NormalFields(entries)) == StatusErrors(operations, key, entries)
  {
    if entries.Cons? {
      StatusErrorsNormal(operations, key, entries.tail);
      OperationByKeyNormal(operations, key);
      MemberNormal(Some(entries.head.value), DESCRIPTION);
      ReadersIgnoreKeyOrder(Lookup(FieldsOf(Some(entries.head.value)), DESCRIPTION));
    }
  }

  lemma {:induction false} MethodErrorsNormal(operations: seq<Operation>, path: Str, entries: Fields)
    requires ProperFields(entries)
    ensures MethodErrors(NormalOperations(operations), path, NormalFields(entries)) == MethodErrors(operations, path, entries)
  {
    if entries.Cons? {
      MethodErrorsNormal(operations, path, entries.tail);
      MemberNormal(Some(entries.head.value), RESPONSES);
      var responses := Lookup(FieldsOf(Some(entries.head.value)), RESPONSES);
      EntriesNormal(responses);
      StatusErrorsNormal(operations, Upper(Lower(entries.head.key)) + [SPACE] + path, Sort(FieldsOf(responses)));
    }
  }

  lemma {:induction false} PathErrorsNormal(operations: seq<Operation>, entries: Fields)
    requires ProperFields(entries)
    ensures PathErrors(NormalOperations(operations), NormalFields(entries)) == PathErrors(operations, entries)
  {
    if entries.Cons? {
      PathErrorsNormal(operations, entries.tail);
      HeadNormal(entries);
      if entries.head.value.Object? {
        EntriesNormal(Some(entries.head.value));
        MethodErrorsNormal(operations, entries.head.key, Sort(entries.head.value.fields));
      }
    }
  }

  lemma {:induction false} FiniteTwice(value: Json)
    ensures Finite(Finite(value)) == Finite(value)
    decreases value
  {
    match value
    case Array(items) => FiniteItemsTwice(items);
    case Object(fields) => FiniteFieldsTwice(fields);
    case _ =>
  }

  lemma {:induction false} FiniteItemsTwice(items: List<Json>)
    ensures FiniteItems(FiniteItems(items)) == FiniteItems(items)
    decreases items
  {
    if items.Cons? {
      FiniteTwice(items.head);
      FiniteItemsTwice(items.tail);
    }
  }

  lemma {:induction false} FiniteFieldsTwice(fields: Fields)
    ensures FiniteFields(FiniteFields(fields)) == FiniteFields(fields)
    decreases fields
  {
    if fields.Cons? {
      FiniteTwice(fields.head.value);
      FiniteFieldsTwice(fields.tail);
    }
  }

  lemma NormalTwice(value: Json)
    requires Proper(value)
    ensures Normal(Normal(value)) == Normal(value)
  {
    CanonicalTwice(value);
    FiniteCommutes(CanonicalValue(value));
    FiniteTwice(CanonicalValue(value));
  }

  lemma CandidateOfNormal(parsed: Json)
    requires Proper(parsed)
    ensures CandidateOf(Normal(parsed)) == NormalCandidate(CandidateOf(parsed))
  {
    if parsed.Object? {
      var root := parsed.fields;
      NormalObject(root);
      TextsNormal(root);
      LookupNormalObject(root, PATHS);
      LookupProper(root, PATHS);
      ReadersIgnoreKeyOrder(Lookup(root, PATHS));
      if CandidateOf(parsed).Ok? { ExtractionNormal(parsed); }
    }
  }

  lemma ExtractionNormal(parsed: Json)
    requires Proper(parsed) && CandidateOf(parsed).Ok? && CandidateOf(Normal(parsed)).Ok?
    ensures CandidateOf(Normal(parsed)) == NormalCandidate(CandidateOf(parsed))
  {
    var root := parsed.fields;
    var contract := CanonicalText(Normal(parsed));
    NormalObject(root);
    NormalTwice(parsed);
    TextsNormal(root);
    LookupNormalObject(root, PATHS);
    LookupProper(root, PATHS);
    EntriesNormal(Lookup(root, PATHS));
    var entries, visits := Sort(FieldsOf(Lookup(root, PATHS))), Visits(root);
    VisitPathsNormal(entries);
    OperationsNormal(root, contract, visits);
    PathErrorsNormal(OperationsOf(root, contract, visits), entries);
    ExamplesNormal(contract, visits);
    SchemaRootNormal(root);
    SchemasNormal(contract, Sort(SchemaRoot(root)));
  }

  /** Two documents with the same canonical text give the same candidate, or are refused for the same
      reason: only the key order inside the values it retains may differ. */
  lemma KeyOrderDoesNotMatter(a: Json, b: Json)
    requires Proper(a) && Proper(b) && CanonicalText(a) == CanonicalText(b)
    ensures NormalCandidate(CandidateOf(a)) == NormalCandidate(CandidateOf(b))
  {
    CanonicalTextIdentifies(a, b);
    SameIsNormalEqual(a, b);
    CandidateOfNormal(a);
    CandidateOfNormal(b);
  }

  // ---------------------------------------------------------------- operation ids

  function Nth(visits: List<Visit>, k: nat): Option<Visit> {
    if visits.Nil? then None else if k == 0 then Some(visits.head) else Nth(visits.tail, k - 1)
  }

  // Visit k has this id.
  predicate HasId(visits: List<Visit>, k: nat, id: Str) {
    Nth(visits, k).Some? && RawId(Nth(visits, k).value) == id
  }

  predicate UsedBefore(visits: List<Visit>, k: nat, id: Str) {
    exists j: nat :: j < k && HasId(visits, j, id)
  }

  lemma UsedBeforeTail(visits: List<Visit>, k: nat, id: Str)
    requires visits.Cons?
    ensures UsedBefore(visits, k + 1, id) <==> RawId(visits.head) == id || UsedBefore(visits.tail, k, id)
  {
    if RawId(visits.head) == id { assert HasId(visits, 0, id); }
    if j: nat :| j < k && HasId(visits.tail, j, id) { assert HasId(visits, j + 1, id); }
    if j: nat :| j < k + 1 && HasId(visits, j, id) { assert j == 0 || HasId(visits.tail, j - 1, id); }
  }

  // The ids kept before visit k.
  function SeenAt(visits: List<Visit>, seen: set<Str>, k: nat): set<Str> {
    if k == 0 || visits.Nil? then seen else SeenAt(visits.tail, SeenAfter(visits.head, seen), k - 1)
  }

  lemma {:induction false} SeenAtMembers(visits: List<Visit>, seen: set<Str>, k: nat, id: Str)
    requires id != [] && Nth(visits, k).Some?
    ensures id in SeenAt(visits, seen, k) <==> id in seen || UsedBefore(visits, k, id)
  {
    if k > 0 {
      SeenAtMembers(visits.tail, SeenAfter(visits.head, seen), k - 1, id);
      UsedBeforeTail(visits, k - 1, id);
    }
  }

  lemma {:induction false} DraftAt(visits: List<Visit>, seen: set<Str>, k: nat)
    requires Nth(visits, k).Some?
    ensures var drafts, visit := Drafts(visits, seen), Nth(visits, k).value;
            k < |drafts| && drafts[k] == Draft(visit, KeptId(visit, SeenAt(visits, seen, k)))
  {
    if k > 0 { DraftAt(visits.tail, SeenAfter(visits.head, seen), k - 1); }
  }

  /** Operations are numbered in the order of their path and method, and each keeps its operationId
      exactly if no earlier one has the same. */
  lemma OperationIdsKeptOnce(root: Fields, contract: Str, k: nat)
    requires Nth(Visits(root), k).Some?
    ensures var operations, visit := OperationsOf(root, contract, Visits(root)), Nth(Visits(root), k).value;
            && k < |operations| && operations[k].ordinal == k && operations[k].key == KeyOf(visit)
            && operations[k].operationId == if UsedBefore(Visits(root), k, RawId(visit)) then [] else RawId(visit)
  {
    DraftAt(Visits(root), {}, k);
    var visit := Nth(Visits(root), k).value;
    if RawId(visit) != [] { SeenAtMembers(Visits(root), {}, k, RawId(visit)); }
  }

  lemma {:induction false} DuplicateListed(visits: List<Visit>, seen: set<Str>, key: Str, id: Str)
    requires [] !in seen && id != []
    ensures DuplicateOperationId(key, id) in DuplicatesOf(visits, seen) <==> SomeDuplicate(visits, seen, key, id)
  {
    if visits.Cons? {
      var seen' := SeenAfter(visits.head, seen);
      DuplicateListed(visits.tail, seen', key, id);
      SomeDuplicateTail(visits, seen, key, id);
    }
  }

  ghost predicate SomeDuplicate(visits: List<Visit>, seen: set<Str>, key: Str, id: Str) {
    exists k: nat :: IsDuplicate(visits, seen, k, key, id)
  }

  lemma IsDuplicateTail(visits: List<Visit>, seen: set<Str>, k: nat, key: Str, id: Str)
    requires visits.Cons? && id != []
    ensures IsDuplicate(visits, seen, k + 1, key, id) <==> IsDuplicate(visits.tail, SeenAfter(visits.head, seen), k, key, id)
  {
    UsedBeforeTail(visits, k, id);
  }

  lemma SomeDuplicateTail(visits: List<Visit>, seen: set<Str>, key: Str, id: Str)
    requires visits.Cons? && id != []
    ensures SomeDuplicate(visits, seen, key, id)
      <==> IsDuplicate(visits, seen, 0, key, id) || SomeDuplicate(visits.tail, SeenAfter(visits.head, seen), key, id)
  {
    var seen' := SeenAfter(visits.head, seen);
    if k: nat :| IsDuplicate(visits.tail, seen', k, key, id) { IsDuplicateTail(visits, seen, k, key, id); }
    if k: nat :| IsDuplicate(visits, seen, k, key, id) {
      if k > 0 { IsDuplicateTail(visits, seen, k - 1, key, id); }
    }
  }

  // Visit k repeats an id.
  predicate IsDuplicate(visits: List<Visit>, seen: set<Str>, k: nat, key: Str, id: Str) {
    HasId(visits, k, id) && KeyOf(Nth(visits, k).value) == key && (id in seen || UsedBefore(visits, k, id))
  }

  /** Every operationId that is left out has a diagnostic, and nothing else has. */
  lemma DuplicatesAreReported(root: Fields, key: Str, id: Str)
    ensures DuplicateOperationId(key, id) in DuplicatesOf(Visits(root), {})
      <==> id != [] && exists k: nat :: IsDuplicate(Visits(root), {}, k, key, id)
  {
    if id != [] {
      DuplicateListed(Visits(root), {}, key, id);
      assert SomeDuplicate(Visits(root), {}, key, id) <==> exists k: nat :: IsDuplicate(Visits(root), {}, k, key, id);
    } else {
      DuplicatesHaveIds(Visits(root), {}, key);
    }
  }

  lemma {:induction false} DuplicatesHaveIds(visits: List<Visit>, seen: set<Str>, key: Str)
    ensures DuplicateOperationId(key, []) !in DuplicatesOf(visits, seen)
  {
    if visits.Cons? { DuplicatesHaveIds(visits.tail, SeenAfter(visits.head, seen), key); }
  }
}
