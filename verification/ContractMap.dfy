/** The knowledge map of a contract: contractMapBody of crawler/ingestion/openapi-candidate.ts. */
module ContractMap {
  import opened Prelude
  import opened Text
  import opened Canonical
  import opened OpenApi

  const URL := Ascii("url")
  const TYPE := Ascii("type")
  const SCHEME := Ascii("scheme")
  const BEARER_FORMAT := Ascii("bearerFormat")
  const SERVERS := Ascii("servers")
  const WEBHOOKS := Ascii("webhooks")
  const SECURITY_SCHEMES := Ascii("securitySchemes")
  const GENERAL := Ascii("General")

  datatype OperationEntry = OperationEntry(operation: (Str, Str), title: Str, summary: Str, aliases: List<Str>)

  datatype Capability = Capability(tag: Str, children: seq<OperationEntry>)

  // `known` when the contract defines the scheme; its description is made of `details`.
  datatype SecurityEntry = SecurityEntry(name: Str, known: bool, details: List<Str>, aliases: List<Str>)

  datatype SchemaEntry = SchemaEntry(schema: (Str, Str), title: Str, description: Str, kind: Str)

  datatype WebhookEntry = WebhookEntry(name: Str, description: Str)

  datatype MapBody = MapBody(
    servers: List<Str>, authentication: seq<SecurityEntry>, capabilities: seq<Capability>, operations: seq<OperationEntry>,
    schemas: seq<SchemaEntry>, errors: seq<ErrorEntry>, pagination: seq<OperationEntry>, webhooks: seq<WebhookEntry>)

  // ---------------------------------------------------------------- entries

  // uniqueMapStrings
  function UniqueStrings(values: seq<Str>): List<Str> {
    if values == [] then Nil else AddNonBlank(values[|values| - 1], UniqueStrings(values[..|values| - 1]))
  }

  function FromList(l: List<Str>): seq<Str> {
    if l.Nil? then [] else [l.head] + FromList(l.tail)
  }

  function DefaultSummary(operation: Operation): Str {
    operation.verb + Ascii(" operation at ") + operation.path + Ascii(".")
  }

  // operationMapEntry
  function EntryOf(operation: Operation): OperationEntry {
    OperationEntry(
      operation.logicalId,
      if operation.operationId != [] then operation.operationId else operation.key,
      if operation.summary != [] then operation.summary
      else if operation.description != [] then operation.description else DefaultSummary(operation),
      UniqueStrings([operation.operationId, operation.key, operation.verb, operation.path] + FromList(operation.tags)))
  }

  function EntriesOf(operations: seq<Operation>): seq<OperationEntry> {
    seq(|operations|, i requires 0 <= i < |operations| => EntryOf(operations[i]))
  }

  // The tags an operation is grouped under.
  function TagsOf(operation: Operation): List<Str> {
    if operation.tags.Cons? then operation.tags else Cons(GENERAL, Nil)
  }

  // The entries under a tag, in the order of the operations.
  function Under(operations: seq<Operation>, tag: Str): seq<OperationEntry> {
    if operations == [] then []
    else
      var last := operations[|operations| - 1];
      Under(operations[..|operations| - 1], tag) + (if tag in Members(TagsOf(last)) then [EntryOf(last)] else [])
  }

  function AddAll(values: List<Str>, before: List<Str>): List<Str> {
    if values.Nil? then before else AddAll(values.tail, InsertText(values.head, before))
  }

  // All tags in use, sorted.
  function AllTags(operations: seq<Operation>): List<Str> {
    if operations == [] then Nil
    else AddAll(TagsOf(operations[|operations| - 1]), AllTags(operations[..|operations| - 1]))
  }

  function CapabilitiesFor(operations: seq<Operation>, tags: List<Str>): seq<Capability> {
    if tags.Nil? then [] else [Capability(tags.head, Under(operations, tags.head))] + CapabilitiesFor(operations, tags.tail)
  }

  // The names of an object's members that are not blank, added to `before`.
  function AddKeys(fields: Fields, before: List<Str>): List<Str> {
    if fields.Nil? then before else AddKeys(fields.tail, AddNonBlank(fields.head.key, before))
  }

  function AddRequirements(requirements: List<Json>, before: List<Str>): List<Str> {
    if requirements.Nil? then before
    else AddRequirements(requirements.tail, AddKeys(FieldsOf(Some(requirements.head)), before))
  }

  // The security schemes that operations refer to, added to `before`.
  function AddReferenced(operations: seq<Operation>, before: List<Str>): List<Str> {
    if operations == [] then before else AddReferenced(operations[1..], AddRequirements(operations[0].security, before))
  }

  function SchemesOf(root: Fields): Fields {
    FieldsOf(Lookup(FieldsOf(Lookup(root, COMPONENTS)), SECURITY_SCHEMES))
  }

  function SecurityEntryOf(schemes: Fields, name: Str): SecurityEntry {
    var scheme := ObjectValue(Lookup(schemes, name));
    var fields := FieldsOf(Lookup(schemes, name));
    var kind, detail := TextValue(Lookup(fields, TYPE)), TextValue(Lookup(fields, SCHEME));
    SecurityEntry(name, scheme.Some?, UniqueStrings([kind, detail, TextValue(Lookup(fields, BEARER_FORMAT))]),
                  UniqueStrings([name, kind, detail]))
  }

  function SecurityEntriesOf(schemes: Fields, names: List<Str>): seq<SecurityEntry> {
    if names.Nil? then [] else [SecurityEntryOf(schemes, names.head)] + SecurityEntriesOf(schemes, names.tail)
  }

  function SchemaEntryOf(schema: Schema): SchemaEntry {
    SchemaEntry(schema.logicalId, schema.key, TextValue(Lookup(schema.document, DESCRIPTION)), TextValue(Lookup(schema.document, TYPE)))
  }

  function SchemaEntriesOf(schemas: seq<Schema>): seq<SchemaEntry> {
    seq(|schemas|, i requires 0 <= i < |schemas| => SchemaEntryOf(schemas[i]))
  }

  function WebhooksOf(entries: Fields): seq<WebhookEntry> {
    if entries.Nil? then []
    else
      [WebhookEntry(entries.head.key, TextValue(Lookup(FieldsOf(Some(entries.head.value)), DESCRIPTION)))]
      + WebhooksOf(entries.tail)
  }

  function AddServers(servers: List<Json>, before: List<Str>): List<Str> {
    if servers.Nil? then before
    else AddServers(servers.tail, AddNonBlank(TextValue(Lookup(FieldsOf(Some(servers.head)), URL)), before))
  }

  function ServersOf(root: Fields): List<Str> {
    var servers := Lookup(root, SERVERS);
    if servers.Some? && servers.value.Array? then AddServers(servers.value.items, Nil) else Nil
  }

  // The texts in which paging words are looked for.
  function PagingTexts(operation: Operation): seq<Str> {
    [operation.key, operation.operationId, operation.summary, operation.description]
    + FromList(operation.requestRefs) + FromList(operation.responseRefs)
  }

  function PagingEntries(paginates: seq<Str> -> bool, operations: seq<Operation>): seq<OperationEntry> {
    if operations == [] then []
    else
      var last := operations[|operations| - 1];
      PagingEntries(paginates, operations[..|operations| - 1]) + (if paginates(PagingTexts(last)) then [EntryOf(last)] else [])
  }

  // `paginates` is the search for paging words.
  function MapOf(paginates: seq<Str> -> bool, root: Fields, candidate: Candidate): MapBody {
    var operations := candidate.operations;
    MapBody(
      ServersOf(root),
      SecurityEntriesOf(SchemesOf(root), AddReferenced(operations, AddKeys(SchemesOf(root), Nil))),
      CapabilitiesFor(operations, AllTags(operations)), EntriesOf(operations), SchemaEntriesOf(candidate.schemas),
      candidate.errors, PagingEntries(paginates, operations), WebhooksOf(Sort(FieldsOf(Lookup(root, WEBHOOKS)))))
  }

  // ---------------------------------------------------------------- grouping by tag

  // byTag.get(tag) ?? []
  function Grouped(byTag: map<Str, seq<OperationEntry>>, tag: Str): seq<OperationEntry> {
    if tag in byTag then byTag[tag] else []
  }

  lemma {:induction false} AddAllMembers(values: List<Str>, before: List<Str>)
    requires Rising(before)
    ensures Rising(AddAll(values, before)) && Members(AddAll(values, before)) == Members(before) + Members(values)
    decreases values
  {
    if values.Cons? {
      InsertTextMembers(values.head, before);
      InsertTextRising(values.head, before);
      AddAllMembers(values.tail, InsertText(values.head, before));
    }
  }

  lemma {:induction false} AllTagsRising(operations: seq<Operation>)
    ensures Rising(AllTags(operations))
  {
    if operations != [] {
      AllTagsRising(operations[..|operations| - 1]);
      AddAllMembers(TagsOf(operations[|operations| - 1]), AllTags(operations[..|operations| - 1]));
    }
  }

  // The entry has been put under these tags, and under no other.
  ghost predicate PutUnder(
    byTag: map<Str, seq<OperationEntry>>, grouped: map<Str, seq<OperationEntry>>, entry: OperationEntry, tags: set<Str>)
  {
    && grouped.Keys == byTag.Keys + tags
    && forall tag :: Grouped(grouped, tag) == if tag in tags then Grouped(byTag, tag) + [entry] else Grouped(byTag, tag)
  }

  lemma PutUnderOneMore(
    byTag: map<Str, seq<OperationEntry>>, grouped: map<Str, seq<OperationEntry>>, entry: OperationEntry, tags: set<Str>, tag: Str)
    requires PutUnder(byTag, grouped, entry, tags) && tag !in tags
    ensures PutUnder(byTag, grouped[tag := Grouped(grouped, tag) + [entry]], entry, tags + {tag})
  {
  }

  // One operation is put under each of its tags, which are distinct.
  method GroupOperation(byTag: map<Str, seq<OperationEntry>>, entry: OperationEntry, tags: List<Str>)
    returns (grouped: map<Str, seq<OperationEntry>>)
    requires Rising(tags)
    ensures PutUnder(byTag, grouped, entry, Members(tags))
  {
    grouped := byTag;
    var rest := tags;
    ghost var done: set<Str> := {};
    while rest.Cons?
      invariant Rising(rest) && done + Members(rest) == Members(tags) && done !! Members(rest)
      invariant PutUnder(byTag, grouped, entry, done)
      decreases rest
    {
      BelowAll(rest.tail, rest.head);
      PutUnderOneMore(byTag, grouped, entry, done, rest.head);
      grouped := grouped[rest.head := Grouped(grouped, rest.head) + [entry]];
      done := done + {rest.head};
      rest := rest.tail;
    }
  }

  // Each tag in use has the entries of its operations.
  ghost predicate GroupsOperations(byTag: map<Str, seq<OperationEntry>>, operations: seq<Operation>) {
    byTag.Keys == Members(AllTags(operations)) && forall tag :: Grouped(byTag, tag) == Under(operations, tag)
  }

  lemma UnderOneMore(operations: seq<Operation>, operation: Operation, tag: Str)
    ensures Under(operations + [operation], tag)
         == if tag in Members(TagsOf(operation)) then Under(operations, tag) + [EntryOf(operation)] else Under(operations, tag)
  {
    assert (operations + [operation])[..|operations + [operation]| - 1] == operations;
  }

  lemma TagsOneMore(operations: seq<Operation>, operation: Operation)
    ensures Members(AllTags(operations + [operation])) == Members(AllTags(operations)) + Members(TagsOf(operation))
  {
    assert (operations + [operation])[..|operations + [operation]| - 1] == operations;
    AllTagsRising(operations);
    AddAllMembers(TagsOf(operation), AllTags(operations));
  }

  lemma GroupsOneMore(
    byTag: map<Str, seq<OperationEntry>>, grouped: map<Str, seq<OperationEntry>>, operations: seq<Operation>, operation: Operation)
    requires GroupsOperations(byTag, operations) && PutUnder(byTag, grouped, EntryOf(operation), Members(TagsOf(operation)))
    ensures GroupsOperations(grouped, operations + [operation])
  {
    TagsOneMore(operations, operation);
    forall tag ensures Grouped(grouped, tag) == Under(operations + [operation], tag) {
      UnderOneMore(operations, operation, tag);
    }
  }

  lemma NothingGrouped()
    ensures GroupsOperations(map[], [])
  {
  }

  method GroupNext(byTag: map<Str, seq<OperationEntry>>, operation: Operation, ghost before: seq<Operation>)
    returns (grouped: map<Str, seq<OperationEntry>>)
    requires Rising(operation.tags) && GroupsOperations(byTag, before)
    ensures GroupsOperations(grouped, before + [operation])
  {
    grouped := GroupOperation(byTag, EntryOf(operation), TagsOf(operation));
    GroupsOneMore(byTag, grouped, before, operation);
  }

  method GroupByTag(operations: seq<Operation>) returns (byTag: map<Str, seq<OperationEntry>>)
    requires forall i :: 0 <= i < |operations| ==> Rising(operations[i].tags)
    ensures GroupsOperations(byTag, operations)
  {
    byTag := map[];
    ghost var before: seq<Operation> := [];
    NothingGrouped();
    for i := 0 to |operations|
      invariant before == operations[..i] && GroupsOperations(byTag, before)
    {
      byTag := GroupNext(byTag, operations[i], before);
      before := before + [operations[i]];
    }
    assert before == operations;
  }

  // The tags sorted, each with its entries.
  method BuildCapabilities(operations: seq<Operation>) returns (capabilities: seq<Capability>)
    requires forall i :: 0 <= i < |operations| ==> Rising(operations[i].tags)
    ensures capabilities == CapabilitiesFor(operations, AllTags(operations))
  {
    var byTag := GroupByTag(operations);
    capabilities := [];
    var tags := AllTags(operations);
    assert [] + CapabilitiesFor(operations, tags) == CapabilitiesFor(operations, tags);
    while tags.Cons?
      invariant capabilities + CapabilitiesFor(operations, tags) == CapabilitiesFor(operations, AllTags(operations))
      decreases tags
    {
      var capability := Capability(tags.head, Grouped(byTag, tags.head));
      Associates(capabilities, [capability], CapabilitiesFor(operations, tags.tail));
      capabilities, tags := capabilities + [capability], tags.tail;
    }
    assert capabilities + [] == capabilities;
  }

  // The tags that extraction gives an operation are sorted and distinct.
  lemma {:induction false} AddedStringsRising(items: List<Json>, before: List<Str>)
    requires Rising(before)
    ensures Rising(AddStrings(items, before))
    decreases items
  {
    if items.Cons? {
      var item := TextValue(Some(items.head));
      if item != [] { InsertTextRising(item, before); }
      AddedStringsRising(items.tail, if item != [] then InsertText(item, before) else before);
    }
  }

  lemma TagsAreRising(root: Fields, contract: Str, visits: List<Visit>)
    ensures forall i :: 0 <= i < |OperationsOf(root, contract, visits)| ==> Rising(OperationsOf(root, contract, visits)[i].tags)
  {
    var drafts := Drafts(visits, {});
    forall i | 0 <= i < |drafts| ensures Rising(OperationsOf(root, contract, visits)[i].tags) {
      var tags := Lookup(drafts[i].visit.fields, TAGS);
      if tags.Some? && tags.value.Array? { AddedStringsRising(tags.value.items, Nil); }
    }
  }

  // ---------------------------------------------------------------- the map ignores key order

  function TrimmedKeys(fields: Fields): set<Str> {
    if fields.Nil? then {}
    else (if Trim(fields.head.key) == [] then {} else {Trim(fields.head.key)}) + TrimmedKeys(fields.tail)
  }

  lemma {:induction false} AddKeysMembers(fields: Fields, before: List<Str>)
    requires Rising(before)
    ensures Rising(AddKeys(fields, before)) && Members(AddKeys(fields, before)) == Members(before) + TrimmedKeys(fields)
    decreases fields
  {
    if fields.Cons? {
      var key := Trim(fields.head.key);
      if key != [] {
        InsertTextMembers(key, before);
        InsertTextRising(key, before);
      }
      AddKeysMembers(fields.tail, AddNonBlank(fields.head.key, before));
    }
  }

  lemma {:induction false} KeysOfInsert(field: Field, fields: Fields)
    ensures TrimmedKeys(Insert(field, fields)) == TrimmedKeys(Cons(field, fields))
  {
    if fields.Cons? && !Less(field.key, fields.head.key) { KeysOfInsert(field, fields.tail); }
  }

  lemma {:induction false} KeysOfSort(fields: Fields)
    ensures TrimmedKeys(Sort(fields)) == TrimmedKeys(fields)
  {
    if fields.Cons? {
      KeysOfSort(fields.tail);
      KeysOfInsert(fields.head, Sort(fields.tail));
    }
  }

  lemma {:induction false} KeysOfSelect(fields: Fields)
    ensures TrimmedKeys(Select(fields, true)) + TrimmedKeys(Select(fields, false)) == TrimmedKeys(fields)
  {
    if fields.Cons? { KeysOfSelect(fields.tail); }
  }

  lemma {:induction false} KeysOfInsertIndex(field: Field, fields: Fields)
    ensures TrimmedKeys(InsertIndex(field, fields)) == TrimmedKeys(Cons(field, fields))
  {
    if fields.Cons? && !IndexLess(field.key, fields.head.key) { KeysOfInsertIndex(field, fields.tail); }
  }

  lemma {:induction false} KeysOfSortIndices(fields: Fields)
    ensures TrimmedKeys(SortIndices(fields)) == TrimmedKeys(fields)
  {
    if fields.Cons? {
      KeysOfSortIndices(fields.tail);
      KeysOfInsertIndex(fields.head, SortIndices(fields.tail));
    }
  }

  lemma {:induction false} KeysOfAppend(a: Fields, b: Fields)
    ensures TrimmedKeys(Append(a, b)) == TrimmedKeys(a) + TrimmedKeys(b)
  {
    if a.Cons? { KeysOfAppend(a.tail, b); }
  }

  lemma {:induction false} KeysOfNormalFields(fields: Fields)
    ensures TrimmedKeys(NormalFields(fields)) == TrimmedKeys(fields)
  {
    if fields.Cons? { KeysOfNormalFields(fields.tail); }
  }

  lemma KeysOfNormal(fields: Fields)
    ensures TrimmedKeys(NormalObjectFields(fields)) == TrimmedKeys(fields)
  {
    var sorted := Sort(NormalFields(fields));
    KeysOfNormalFields(fields);
    KeysOfSort(NormalFields(fields));
    KeysOfSelect(sorted);
    KeysOfSortIndices(Select(sorted, true));
    KeysOfAppend(SortIndices(Select(sorted, true)), Select(sorted, false));
  }

  // Adding the members of an object, in whatever order they are.
  lemma AddKeysNormal(value: Option<Json>, before: List<Str>)
    requires Rising(before)
    ensures AddKeys(FieldsOf(NormalOption(value)), before) == AddKeys(FieldsOf(value), before)
    ensures Rising(AddKeys(FieldsOf(value), before))
  {
    var fields, normal := FieldsOf(value), FieldsOf(NormalOption(value));
    ReadersIgnoreKeyOrder(value);
    if ObjectValue(value).Some? { KeysOfNormal(fields); }
    AddKeysMembers(fields, before);
    AddKeysMembers(normal, before);
    RisingIsUnique(AddKeys(normal, before), AddKeys(fields, before));
  }

  lemma {:induction false} RequirementsNormal(requirements: List<Json>, before: List<Str>)
    requires Rising(before)
    ensures AddRequirements(NormalItems(requirements), before) == AddRequirements(requirements, before)
    ensures Rising(AddRequirements(requirements, before))
    decreases requirements
  {
    if requirements.Cons? {
      AddKeysNormal(Some(requirements.head), before);
      RequirementsNormal(requirements.tail, AddKeys(FieldsOf(Some(requirements.head)), before));
    }
  }

  lemma {:induction false} ReferencedNormal(operations: seq<Operation>, before: List<Str>)
    requires Rising(before)
    ensures AddReferenced(NormalOperations(operations), before) == AddReferenced(operations, before)
  {
    if operations != [] {
      RequirementsNormal(operations[0].security, before);
      assert NormalOperations(operations)[1..] == NormalOperations(operations[1..]);
      ReferencedNormal(operations[1..], AddRequirements(operations[0].security, before));
    }
  }

  // What is read off the operations does not look at their security requirements.
  lemma {:induction false} MapEntriesNormal(paginates: seq<Str> -> bool, operations: seq<Operation>, tag: Str)
    ensures var normal := NormalOperations(operations);
            && Under(normal, tag) == Under(operations, tag) && AllTags(normal) == AllTags(operations)
            && PagingEntries(paginates, normal) == PagingEntries(paginates, operations)
  {
    if operations != [] {
      var front := operations[..|operations| - 1];
      assert NormalOperations(operations)[..|operations| - 1] == NormalOperations(front);
      MapEntriesNormal(paginates, front, tag);
    }
  }

  lemma {:induction false} CapabilitiesNormal(operations: seq<Operation>, tags: List<Str>)
    ensures CapabilitiesFor(NormalOperations(operations), tags) == CapabilitiesFor(operations, tags)
    decreases tags
  {
    if tags.Cons? {
      MapEntriesNormal(_ => false, operations, tags.head);
      CapabilitiesNormal(operations, tags.tail);
    }
  }

  lemma TextOfMemberNormal(value: Option<Json>, key: Str)
    requires ProperOption(value)
    ensures TextValue(Lookup(FieldsOf(NormalOption(value)), key)) == TextValue(Lookup(FieldsOf(value), key))
  {
    MemberNormal(value, key);
    ReadersIgnoreKeyOrder(Lookup(FieldsOf(value), key));
  }

  lemma {:induction false} SecurityEntriesNormal(schemes: Option<Json>, names: List<Str>)
    requires ProperOption(schemes)
    ensures SecurityEntriesOf(FieldsOf(NormalOption(schemes)), names) == SecurityEntriesOf(FieldsOf(schemes), names)
    decreases names
  {
    if names.Cons? {
      var scheme := Lookup(FieldsOf(schemes), names.head);
      MemberNormal(schemes, names.head);
      ReadersIgnoreKeyOrder(scheme);
      TextOfMemberNormal(scheme, TYPE);
      TextOfMemberNormal(scheme, SCHEME);
      TextOfMemberNormal(scheme, BEARER_FORMAT);
      SecurityEntriesNormal(schemes, names.tail);
    }
  }

  predicate ProperSchemas(schemas: seq<Schema>) {
    forall i :: 0 <= i < |schemas| ==> ProperFields(schemas[i].document)
  }

  lemma {:induction false} SchemasAreProper(contract: Str, entries: Fields)
    requires ProperFields(entries)
    ensures ProperSchemas(SchemasOf(contract, entries))
  {
    if entries.Cons? { SchemasAreProper(contract, entries.tail); }
  }

  lemma SchemaEntriesNormal(schemas: seq<Schema>)
    requires ProperSchemas(schemas)
    ensures SchemaEntriesOf(NormalSchemas(schemas)) == SchemaEntriesOf(schemas)
  {
    forall i | 0 <= i < |schemas| ensures SchemaEntryOf(NormalSchemas(schemas)[i]) == SchemaEntryOf(schemas[i]) {
      TextsNormal(schemas[i].document);
    }
  }

  lemma {:induction false} WebhooksNormal(entries: Fields)
    requires ProperFields(entries)
    ensures WebhooksOf(NormalFields(entries)) == WebhooksOf(entries)
  {
    if entries.Cons? {
      TextOfMemberNormal(Some(entries.head.value), DESCRIPTION);
      WebhooksNormal(entries.tail);
    }
  }

  lemma {:induction false} AddServersNormal(servers: List<Json>, before: List<Str>)
    requires ProperItems(servers)
    ensures AddServers(NormalItems(servers), before) == AddServers(servers, before)
    decreases servers
  {
    if servers.Cons? {
      TextOfMemberNormal(Some(servers.head), URL);
      AddServersNormal(servers.tail, AddNonBlank(TextValue(Lookup(FieldsOf(Some(servers.head)), URL)), before));
    }
  }

  lemma ServersNormal(root: Fields)
    requires ProperFields(root)
    ensures ServersOf(NormalObjectFields(root)) == ServersOf(root)
  {
    var servers := Lookup(root, SERVERS);
    LookupNormalObject(root, SERVERS);
    LookupProper(root, SERVERS);
    if servers.Some? && servers.value.Array? {
      NormalArray(servers.value.items);
      AddServersNormal(servers.value.items, Nil);
    }
  }

  lemma AuthenticationNormal(root: Fields, operations: seq<Operation>)
    requires ProperFields(root)
    ensures var normal, names := NormalObjectFields(root), AddReferenced(operations, AddKeys(SchemesOf(root), Nil));
            && AddReferenced(NormalOperations(operations), AddKeys(SchemesOf(normal), Nil)) == names
            && SecurityEntriesOf(SchemesOf(normal), names) == SecurityEntriesOf(SchemesOf(root), names)
  {
    var components := Lookup(root, COMPONENTS);
    LookupNormalObject(root, COMPONENTS);
    LookupProper(root, COMPONENTS);
    MemberNormal(components, SECURITY_SCHEMES);
    var schemes := Lookup(FieldsOf(components), SECURITY_SCHEMES);
    AddKeysNormal(schemes, Nil);
    var known := AddKeys(FieldsOf(schemes), Nil);
    ReferencedNormal(operations, known);
    SecurityEntriesNormal(schemes, AddReferenced(operations, known));
  }

  lemma MapNormal(paginates: seq<Str> -> bool, root: Fields, candidate: Candidate, normal: Candidate)
    requires ProperFields(root) && ProperSchemas(candidate.schemas)
    requires normal.operations == NormalOperations(candidate.operations) && normal.schemas == NormalSchemas(candidate.schemas)
    requires normal.errors == candidate.errors
    ensures MapOf(paginates, NormalObjectFields(root), normal) == MapOf(paginates, root, candidate)
  {
    var operations, webhooks := candidate.operations, Lookup(root, WEBHOOKS);
    ServersNormal(root);
    AuthenticationNormal(root, operations);
    MapEntriesNormal(paginates, operations, []);
    CapabilitiesNormal(operations, AllTags(operations));
    assert EntriesOf(NormalOperations(operations)) == EntriesOf(operations);
    SchemaEntriesNormal(candidate.schemas);
    LookupNormalObject(root, WEBHOOKS);
    LookupProper(root, WEBHOOKS);
    EntriesNormal(webhooks);
    WebhooksNormal(Sort(FieldsOf(webhooks)));
  }

  lemma MapOfNormal(paginates: seq<Str> -> bool, parsed: Json)
    requires Proper(parsed) && CandidateOf(parsed).Ok?
    ensures CandidateOf(Normal(parsed)).Ok? && Normal(parsed).Object?
    ensures MapOf(paginates, Normal(parsed).fields, CandidateOf(Normal(parsed)).value)
         == MapOf(paginates, parsed.fields, CandidateOf(parsed).value)
  {
    var root, candidate := parsed.fields, CandidateOf(parsed).value;
    CandidateOfNormal(parsed);
    NormalObject(root);
    SchemaRootNormal(root);
    SchemasAreProper(CanonicalText(Normal(parsed)), Sort(SchemaRoot(root)));
    MapNormal(paginates, root, candidate, CandidateOf(Normal(parsed)).value);
  }

  /** Two documents with the same canonical text have the same map. */
  lemma KeyOrderDoesNotChangeTheMap(paginates: seq<Str> -> bool, a: Json, b: Json)
    requires Proper(a) && Proper(b) && CanonicalText(a) == CanonicalText(b) && CandidateOf(a).Ok?
    ensures CandidateOf(b).Ok?
    ensures MapOf(paginates, a.fields, CandidateOf(a).value) == MapOf(paginates, b.fields, CandidateOf(b).value)
  {
    KeyOrderDoesNotMatter(a, b);
    CanonicalTextIdentifies(a, b);
    SameIsNormalEqual(a, b);
    MapOfNormal(paginates, a);
    MapOfNormal(paginates, b);
  }
}
