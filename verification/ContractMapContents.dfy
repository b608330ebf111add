/** What the entries of a contract's map say, in terms of the records and the document they are made of. */
module ContractMapContents {
  import opened Prelude
  import opened Text
  import opened Canonical
  import opened OpenApi
  import opened OpenApiContents
  import opened OpenApiRecords
  import opened ContractMap

  // ---------------------------------------------------------------- entries of operations

  predicate IsSummary(summary: Str, operation: Operation) {
    if operation.summary != [] then summary == operation.summary
    else if operation.description != [] then summary == operation.description
    else summary == operation.verb + Ascii(" operation at ") + operation.path + Ascii(".")
  }

  /** An entry has the operation's id or else its key as title, its summary, its description or else a standard
      sentence, and as aliases its names, method, path and tags. */
  ghost predicate IsEntry(entry: OperationEntry, operation: Operation) {
    && entry.operation == operation.logicalId
    && entry.title == (if operation.operationId != [] then operation.operationId else operation.key)
    && IsSummary(entry.summary, operation)
    && IsRisingSet(entry.aliases,
                   iset x | IsAlias(x, operation.operationId) || IsAlias(x, operation.key) || IsAlias(x, operation.verb)
                            || IsAlias(x, operation.path) || IsAliasOfSome(x, operation.tags))
  }

  predicate IsAliasOfSome(x: Str, tags: List<Str>) {
    tags.Cons? && (IsAlias(x, tags.head) || IsAliasOfSome(x, tags.tail))
  }

  predicate HasAlias(values: seq<Str>, x: Str) {
    exists i :: 0 <= i < |values| && IsAlias(x, values[i])
  }

  lemma HasAliasCons(value: Str, values: seq<Str>, x: Str)
    ensures HasAlias([value] + values, x) <==> IsAlias(x, value) || HasAlias(values, x)
  {
    var all := [value] + values;
    if IsAlias(x, value) { assert IsAlias(x, all[0]); }
    if i :| 0 <= i < |values| && IsAlias(x, values[i]) { assert IsAlias(x, all[i + 1]); }
    if i :| 0 <= i < |all| && IsAlias(x, all[i]) { assert i > 0 ==> IsAlias(x, values[i - 1]); }
  }

  lemma {:induction false} UniqueStringsAre(values: seq<Str>, x: Str)
    ensures Rising(UniqueStrings(values))
    ensures x in Members(UniqueStrings(values)) <==> HasAlias(values, x)
  {
    if values != [] {
      var front := values[..|values| - 1];
      UniqueStringsAre(front, x);
      AddNonBlankIs(values[|values| - 1], UniqueStrings(front));
      if i :| 0 <= i < |front| && IsAlias(x, front[i]) { assert IsAlias(x, values[i]); }
      if i :| 0 <= i < |values| && IsAlias(x, values[i]) { assert i < |front| ==> IsAlias(x, front[i]); }
    }
  }

  lemma {:induction false} AliasesOfList(tags: List<Str>, x: Str)
    ensures IsAliasOfSome(x, tags) <==> HasAlias(FromList(tags), x)
  {
    if tags.Cons? {
      AliasesOfList(tags.tail, x);
      HasAliasCons(tags.head, FromList(tags.tail), x);
    }
  }

  lemma AliasesOfEntry(operation: Operation, x: Str)
    ensures HasAlias([operation.operationId, operation.key, operation.verb, operation.path] + FromList(operation.tags), x)
       <==> IsAlias(x, operation.operationId) || IsAlias(x, operation.key) || IsAlias(x, operation.verb)
            || IsAlias(x, operation.path) || IsAliasOfSome(x, operation.tags)
  {
    var tags := FromList(operation.tags);
    AliasesOfList(operation.tags, x);
    HasAliasCons(operation.path, tags, x);
    HasAliasCons(operation.verb, [operation.path] + tags, x);
    HasAliasCons(operation.key, [operation.verb] + ([operation.path] + tags), x);
    HasAliasCons(operation.operationId, [operation.key] + ([operation.verb] + ([operation.path] + tags)), x);
    assert [operation.operationId, operation.key, operation.verb, operation.path] + tags
        == [operation.operationId] + ([operation.key] + ([operation.verb] + ([operation.path] + tags)));
  }

  lemma EntryIs(operation: Operation)
    ensures IsEntry(EntryOf(operation), operation)
  {
    var values := [operation.operationId, operation.key, operation.verb, operation.path] + FromList(operation.tags);
    UniqueStringsAre(values, []);
    forall x
      ensures x in Members(UniqueStrings(values))
         <==> IsAlias(x, operation.operationId) || IsAlias(x, operation.key) || IsAlias(x, operation.verb)
              || IsAlias(x, operation.path) || IsAliasOfSome(x, operation.tags)
    {
      UniqueStringsAre(values, x);
      AliasesOfEntry(operation, x);
    }
  }

  // The entries of the operations with these indices, in their order.
  ghost predicate Picks(entries: seq<OperationEntry>, operations: seq<Operation>, indices: seq<nat>) {
    && |indices| == |entries| && (forall i, j :: 0 <= i < j < |indices| ==> indices[i] < indices[j])
    && forall i :: 0 <= i < |indices| ==> indices[i] < |operations| && IsEntry(entries[i], operations[indices[i]])
  }

  // These are the indices of the operations of this sort.
  ghost predicate AllWith(indices: seq<nat>, operations: seq<Operation>, sort: Operation -> bool) {
    forall k: nat :: k in indices <==> k < |operations| && sort(operations[k])
  }

  lemma PicksOneMore(
    entries: seq<OperationEntry>, operations: seq<Operation>, indices: seq<nat>, sort: Operation -> bool, n: nat)
    returns (more: seq<nat>)
    requires n + 1 == |operations|
    requires Picks(entries, operations[..n], indices) && AllWith(indices, operations[..n], sort)
    ensures Picks(entries + (if sort(operations[n]) then [EntryOf(operations[n])] else []), operations, more)
    ensures AllWith(more, operations, sort)
  {
    EntryIs(operations[n]);
    if sort(operations[n]) {
      more := indices + [n];
      forall i | 0 <= i < |indices| ensures indices[i] < n { assert indices[i] in indices; }
    } else {
      more := indices;
      assert entries + [] == entries;
    }
    forall k: nat ensures k in more <==> k < |operations| && sort(operations[k]) {
      assert k < n ==> operations[..n][k] == operations[k];
    }
  }

  // The operation has the tag, or none and the tag is the general one.
  predicate HasTag(operation: Operation, tag: Str) {
    if operation.tags.Nil? then tag == Ascii("General") else tag in Members(operation.tags)
  }

  function Tagged(tag: Str): Operation -> bool {
    operation => HasTag(operation, tag)
  }

  lemma {:induction false} UnderPicks(operations: seq<Operation>, tag: Str) returns (indices: seq<nat>)
    ensures Picks(ContractMap.Under(operations, tag), operations, indices)
    ensures AllWith(indices, operations, Tagged(tag))
  {
    indices := [];
    if operations != [] {
      var n := |operations| - 1;
      indices := UnderPicks(operations[..n], tag);
      indices := PicksOneMore(ContractMap.Under(operations[..n], tag), operations, indices, Tagged(tag), n);
    }
  }

  predicate InUse(operations: seq<Operation>, tag: Str) {
    exists k :: 0 <= k < |operations| && HasTag(operations[k], tag)
  }

  lemma {:induction false} TagsInUse(operations: seq<Operation>, tag: Str)
    ensures Rising(AllTags(operations))
    ensures tag in Members(AllTags(operations)) <==> InUse(operations, tag)
  {
    AllTagsRising(operations);
    if operations != [] {
      var n := |operations| - 1;
      TagsInUse(operations[..n], tag);
      AllTagsRising(operations[..n]);
      AddAllMembers(TagsOf(operations[n]), AllTags(operations[..n]));
      if k :| 0 <= k < n && HasTag(operations[..n][k], tag) { assert HasTag(operations[k], tag); }
      if k :| 0 <= k < |operations| && HasTag(operations[k], tag) { assert k < n ==> HasTag(operations[..n][k], tag); }
    }
  }

  // The tags of the capabilities.
  function TagsIn(capabilities: seq<Capability>): List<Str> {
    if capabilities == [] then Nil else Cons(capabilities[0].tag, TagsIn(capabilities[1..]))
  }

  lemma {:induction false} CapabilitiesHave(operations: seq<Operation>, tags: List<Str>)
    ensures TagsIn(CapabilitiesFor(operations, tags)) == tags
    ensures forall c :: c in CapabilitiesFor(operations, tags) ==> c.children == ContractMap.Under(operations, c.tag)
    decreases tags
  {
    if tags.Cons? { CapabilitiesHave(operations, tags.tail); }
  }

  /** The capabilities of a map are the tags in use, in rising order, General for operations without tags; under each
      are the entries of the operations that have it, in their order. */
  lemma CapabilitiesAre(paginates: seq<Str> -> bool, root: Fields, candidate: Candidate)
    ensures var capabilities := MapOf(paginates, root, candidate).capabilities;
            && IsRisingSet(TagsIn(capabilities), iset tag | InUse(candidate.operations, tag))
            && forall c :: c in capabilities ==>
                 exists indices :: Picks(c.children, candidate.operations, indices)
                   && AllWith(indices, candidate.operations, Tagged(c.tag))
  {
    var operations := candidate.operations;
    var capabilities := CapabilitiesFor(operations, AllTags(operations));
    CapabilitiesHave(operations, AllTags(operations));
    AllTagsRising(operations);
    forall tag ensures tag in Members(AllTags(operations)) <==> InUse(operations, tag) { TagsInUse(operations, tag); }
    forall c | c in capabilities
      ensures exists indices :: Picks(c.children, operations, indices)
                && AllWith(indices, operations, Tagged(c.tag))
    {
      var indices := UnderPicks(operations, c.tag);
      assert Picks(c.children, operations, indices);
    }
  }

  /** Every operation has its entry, in order. */
  lemma OperationEntriesAre(paginates: seq<Str> -> bool, root: Fields, candidate: Candidate)
    ensures var entries := MapOf(paginates, root, candidate).operations;
            && |entries| == |candidate.operations|
            && forall k :: 0 <= k < |entries| ==> IsEntry(entries[k], candidate.operations[k])
  {
    forall k | 0 <= k < |candidate.operations| ensures IsEntry(EntryOf(candidate.operations[k]), candidate.operations[k]) {
      EntryIs(candidate.operations[k]);
    }
  }

  // The texts of an operation that are searched.
  function SearchedTexts(operation: Operation): seq<Str> {
    [operation.key, operation.operationId, operation.summary, operation.description]
    + FromList(operation.requestRefs) + FromList(operation.responseRefs)
  }

  // An operation in whose texts a paging word is found.
  function Paging(paginates: seq<Str> -> bool): Operation -> bool {
    operation => paginates(SearchedTexts(operation))
  }

  lemma {:induction false} PagingPicks(paginates: seq<Str> -> bool, operations: seq<Operation>) returns (indices: seq<nat>)
    ensures Picks(PagingEntries(paginates, operations), operations, indices)
    ensures AllWith(indices, operations, Paging(paginates))
  {
    indices := [];
    if operations != [] {
      var n := |operations| - 1;
      indices := PagingPicks(paginates, operations[..n]);
      assert PagingTexts(operations[n]) == SearchedTexts(operations[n]);
      indices := PicksOneMore(PagingEntries(paginates, operations[..n]), operations, indices,
                              Paging(paginates), n);
    }
  }

  // ---------------------------------------------------------------- entries read off the document

  /** A scheme is known if the document has an object for it, and is described by what that object says. */
  ghost predicate IsSecurityEntry(entry: SecurityEntry, schemes: Option<Json>, name: Str) {
    var scheme := if schemes.Some? then At(schemes.value, [name]) else None;
    var known := scheme.Some? && scheme.value.Object?;
    && entry.name == name && entry.known == known
    && IsRisingSet(entry.details,
                   iset x | known && (IsAlias(x, TextAt(scheme.value, Ascii("type"))) || IsAlias(x, TextAt(scheme.value, Ascii("scheme")))
                                      || IsAlias(x, TextAt(scheme.value, Ascii("bearerFormat")))))
    && IsRisingSet(entry.aliases,
                   iset x | IsAlias(x, name)
                            || (known && (IsAlias(x, TextAt(scheme.value, Ascii("type"))) || IsAlias(x, TextAt(scheme.value, Ascii("scheme"))))))
  }

  lemma ThreeStrings(a: Str, b: Str, c: Str)
    ensures IsRisingSet(UniqueStrings([a, b, c]), iset x | IsAlias(x, a) || IsAlias(x, b) || IsAlias(x, c))
  {
    var values := [a, b, c];
    UniqueStringsAre(values, []);
    forall x ensures x in Members(UniqueStrings(values)) <==> IsAlias(x, a) || IsAlias(x, b) || IsAlias(x, c) {
      UniqueStringsAre(values, x);
      HasAliasCons(c, [], x);
      HasAliasCons(b, [c], x);
      HasAliasCons(a, [b] + [c], x);
      assert values == [a] + ([b] + [c]) && [c] + [] == [c];
    }
  }

  lemma TrimOfNothing()
    ensures Trim([]) == []
  {
  }

  lemma SecurityEntryIs(schemes: Option<Json>, name: Str)
    ensures IsSecurityEntry(SecurityEntryOf(FieldsOf(schemes), name), schemes, name)
  {
    var fields := FieldsOf(schemes);
    var scheme := Lookup(fields, name);
    assert scheme == if schemes.Some? then At(schemes.value, [name]) else None;
    var kind, detail, format := TextValue(Lookup(FieldsOf(scheme), TYPE)), TextValue(Lookup(FieldsOf(scheme), SCHEME)),
                                TextValue(Lookup(FieldsOf(scheme), BEARER_FORMAT));
    ThreeStrings(kind, detail, format);
    ThreeStrings(name, kind, detail);
    TrimOfNothing();
    if scheme.Some? && scheme.value.Object? {
      TextsAre(scheme.value, TYPE);
      TextsAre(scheme.value, SCHEME);
      TextsAre(scheme.value, BEARER_FORMAT);
    }
  }

  lemma {:induction false} SecurityEntriesAre(schemes: Option<Json>, names: List<Str>)
    ensures var entries := SecurityEntriesOf(FieldsOf(schemes), names);
            && |entries| == |FromList(names)|
            && forall k :: 0 <= k < |entries| ==> IsSecurityEntry(entries[k], schemes, FromList(names)[k])
    decreases names
  {
    if names.Cons? {
      SecurityEntryIs(schemes, names.head);
      SecurityEntriesAre(schemes, names.tail);
    }
  }

  // The object has a key that is this name, but for blanks around it.
  ghost predicate NamesScheme(value: Json, x: Str) {
    exists key :: At(value, [key]).Some? && IsAlias(x, key)
  }

  lemma {:induction false} KeysAre(fields: Fields, before: List<Str>, x: Str)
    requires Rising(before)
    ensures Rising(AddKeys(fields, before))
    ensures x in Members(AddKeys(fields, before)) <==> x in Members(before) || NamesScheme(Object(fields), x)
    decreases fields
  {
    if fields.Cons? {
      var rest, all := Object(fields.tail), Object(fields);
      AddNonBlankIs(fields.head.key, before);
      KeysAre(fields.tail, AddNonBlank(fields.head.key, before), x);
      forall key ensures At(all, [key]).Some? <==> key == fields.head.key || At(rest, [key]).Some? {}
      if IsAlias(x, fields.head.key) { assert At(all, [fields.head.key]).Some?; }
    }
  }

  lemma KeysOfValue(value: Option<Json>, before: List<Str>, x: Str)
    requires Rising(before)
    ensures Rising(AddKeys(FieldsOf(value), before))
    ensures x in Members(AddKeys(FieldsOf(value), before))
       <==> x in Members(before) || (value.Some? && NamesScheme(value.value, x))
  {
    KeysAre(FieldsOf(value), before, x);
    if value.Some? && value.value.Object? { assert value.value == Object(FieldsOf(value)); }
  }

  // A requirement in the list names the scheme.
  ghost predicate SomeNames(requirements: List<Json>, x: Str) {
    requirements.Cons? && (NamesScheme(requirements.head, x) || SomeNames(requirements.tail, x))
  }

  lemma {:induction false} RequirementsAre(requirements: List<Json>, before: List<Str>, x: Str)
    requires Rising(before)
    ensures Rising(AddRequirements(requirements, before))
    ensures x in Members(AddRequirements(requirements, before)) <==> x in Members(before) || SomeNames(requirements, x)
    decreases requirements
  {
    if requirements.Cons? {
      KeysOfValue(Some(requirements.head), before, x);
      RequirementsAre(requirements.tail, AddKeys(FieldsOf(Some(requirements.head)), before), x);
    }
  }

  lemma {:induction false} ReferencedAre(operations: seq<Operation>, before: List<Str>, x: Str)
    requires Rising(before)
    ensures Rising(AddReferenced(operations, before))
    ensures x in Members(AddReferenced(operations, before))
       <==> x in Members(before) || exists k :: 0 <= k < |operations| && SomeNames(operations[k].security, x)
  {
    if operations != [] {
      RequirementsAre(operations[0].security, before, x);
      ReferencedAre(operations[1..], AddRequirements(operations[0].security, before), x);
      if k :| 0 <= k < |operations| && SomeNames(operations[k].security, x) {
        assert k > 0 ==> SomeNames(operations[1..][k - 1].security, x);
      }
      if k :| 0 <= k < |operations[1..]| && SomeNames(operations[1..][k].security, x) {
        assert SomeNames(operations[k + 1].security, x);
      }
    }
  }

  lemma SchemesAre(root: Fields)
    ensures SchemesOf(root) == FieldsOf(At(Object(root), [Ascii("components"), Ascii("securitySchemes")]))
  {
    AtFurther(Object(root), [Ascii("components")], [Ascii("securitySchemes")]);
    assert [Ascii("components")] + [Ascii("securitySchemes")] == [Ascii("components"), Ascii("securitySchemes")];
    AtOne(Object(root), COMPONENTS);
    var components := Lookup(root, COMPONENTS);
    if components.Some? { AtOne(components.value, SECURITY_SCHEMES); }
  }

  /** The authentication of a map has, in rising order, the schemes that the document defines and those that some
      requirement of an operation names, each described by what is defined of it. */
  lemma AuthenticationIs(paginates: seq<Str> -> bool, root: Fields, candidate: Candidate) returns (names: List<Str>)
    ensures var schemes := At(Object(root), [Ascii("components"), Ascii("securitySchemes")]);
            var entries := MapOf(paginates, root, candidate).authentication;
            && IsRisingSet(names,
                           iset x | (schemes.Some? && NamesScheme(schemes.value, x))
                                    || exists k :: 0 <= k < |candidate.operations| && SomeNames(candidate.operations[k].security, x))
            && |entries| == |FromList(names)|
            && forall k :: 0 <= k < |entries| ==> IsSecurityEntry(entries[k], schemes, FromList(names)[k])
  {
    var schemes := At(Object(root), [Ascii("components"), Ascii("securitySchemes")]);
    SchemesAre(root);
    var known := AddKeys(FieldsOf(schemes), Nil);
    names := AddReferenced(candidate.operations, known);
    KeysOfValue(schemes, Nil, []);
    ReferencedAre(candidate.operations, known, []);
    forall x ensures x in Members(names)
                <==> (schemes.Some? && NamesScheme(schemes.value, x))
                     || exists k :: 0 <= k < |candidate.operations| && SomeNames(candidate.operations[k].security, x) {
      KeysOfValue(schemes, Nil, x);
      ReferencedAre(candidate.operations, known, x);
    }
    SecurityEntriesAre(schemes, names);
  }

  /** Every schema has its entry, in order: its key, and the description and type that it has. */
  lemma SchemaEntriesAre(paginates: seq<Str> -> bool, root: Fields, candidate: Candidate)
    ensures var entries := MapOf(paginates, root, candidate).schemas;
            && |entries| == |candidate.schemas|
            && forall k :: 0 <= k < |entries| ==>
                 var schema := candidate.schemas[k];
                 entries[k] == SchemaEntry(schema.logicalId, schema.key, TextAt(Object(schema.document), Ascii("description")),
                                           TextAt(Object(schema.document), Ascii("type")))
  {
    forall k | 0 <= k < |candidate.schemas|
      ensures SchemaEntryOf(candidate.schemas[k]).description == TextAt(Object(candidate.schemas[k].document), Ascii("description"))
           && SchemaEntryOf(candidate.schemas[k]).kind == TextAt(Object(candidate.schemas[k].document), Ascii("type"))
    {
      TextsAre(Object(candidate.schemas[k].document), DESCRIPTION);
      TextsAre(Object(candidate.schemas[k].document), TYPE);
    }
  }

  // Some server in the list has this address.
  predicate SomeServer(servers: List<Json>, x: Str) {
    servers.Cons? && (IsAlias(x, TextAt(servers.head, Ascii("url"))) || SomeServer(servers.tail, x))
  }

  lemma {:induction false} AddServersAre(servers: List<Json>, before: List<Str>, x: Str)
    requires Rising(before)
    ensures Rising(AddServers(servers, before))
    ensures x in Members(AddServers(servers, before)) <==> x in Members(before) || SomeServer(servers, x)
    decreases servers
  {
    if servers.Cons? {
      var url := TextValue(Lookup(FieldsOf(Some(servers.head)), URL));
      if servers.head.Object? { TextsAre(servers.head, URL); }
      AddNonBlankIs(url, before);
      AddServersAre(servers.tail, AddNonBlank(url, before), x);
    }
  }

  // The document lists its servers in an array.
  function ServerList(document: Json): List<Json> {
    var servers := At(document, [Ascii("servers")]);
    if servers.Some? && servers.value.Array? then servers.value.items else Nil
  }

  /** The servers of a map are the addresses of the document's servers, rising and once; its paging entries are those of
      the operations in whose key, id, summary, description or references a paging word is found, in order. */
  lemma ServersAndPagingAre(paginates: seq<Str> -> bool, root: Fields, candidate: Candidate) returns (indices: seq<nat>)
    ensures IsRisingSet(MapOf(paginates, root, candidate).servers, iset x | SomeServer(ServerList(Object(root)), x))
    ensures Picks(MapOf(paginates, root, candidate).pagination, candidate.operations, indices)
    ensures AllWith(indices, candidate.operations, Paging(paginates))
  {
    AtOne(Object(root), SERVERS);
    AddServersAre(ServerList(Object(root)), Nil, []);
    forall x ensures x in Members(ServersOf(root)) <==> SomeServer(ServerList(Object(root)), x) {
      AddServersAre(ServerList(Object(root)), Nil, x);
    }
    indices := PagingPicks(paginates, candidate.operations);
  }

  function WebhookFinder(): (Str, Json) -> seq<Find<WebhookEntry>> {
    (name, value) => [Find([], WebhookEntry(name, TextValue(Lookup(FieldsOf(Some(value)), DESCRIPTION))))]
  }

  lemma {:induction false} WebhooksAreRecords(entries: Fields)
    ensures WebhooksOf(entries) == Records(Gather(entries, WebhookFinder()))
  {
    if entries.Cons? {
      WebhooksAreRecords(entries.tail);
      RecordsGather(entries, WebhookFinder());
      assert WebhookFinder()(entries.head.key, entries.head.value)[1..] == [];
    }
  }

  ghost predicate IsWebhook(document: Json, f: Find<WebhookEntry>) {
    && |f.site| == 1 && At(document, [Ascii("webhooks")]).Some?
    && At(At(document, [Ascii("webhooks")]).value, f.site).Some?
    && f.record == WebhookEntry(f.site[0], TextAt(At(At(document, [Ascii("webhooks")]).value, f.site).value, Ascii("description")))
  }

  /** The webhooks of a map are those of the document, each once and in the order of their names. */
  lemma WebhooksAreLocated(paginates: seq<Str> -> bool, root: Fields, candidate: Candidate) returns (finds: seq<Find<WebhookEntry>>)
    requires ProperFields(root)
    ensures Lists(MapOf(paginates, root, candidate).webhooks, finds)
    ensures forall f :: f in finds <==> IsWebhook(Object(root), f)
  {
    var webhooks := At(Object(root), [Ascii("webhooks")]);
    AtOne(Object(root), WEBHOOKS);
    LookupProper(root, WEBHOOKS);
    EntriesAre(webhooks);
    finds := Gather(Entries(webhooks), WebhookFinder());
    WebhooksAreRecords(Entries(webhooks));
    OrderedGather(Entries(webhooks), WebhookFinder());
    forall f ensures f in finds <==> IsWebhook(Object(root), f) {
      InGather(Entries(webhooks), WebhookFinder(), f);
      SingleSite(f.site);
      if |f.site| == 1 && webhooks.Some? && At(webhooks.value, f.site).Some? {
        TextOfValue(At(webhooks.value, f.site).value, DESCRIPTION);
      }
    }
  }

  lemma TextOfValue(value: Json, key: Str)
    ensures TextValue(Lookup(FieldsOf(Some(value)), key)) == TextAt(value, key)
  {
    if value.Object? { TextsAre(value, key); }
  }
}
