/** The schemas, examples, error entries and diagnostics of a candidate, in terms of what stands where in the document. */
module OpenApiRecords {
  import opened Prelude
  import opened Text
  import opened Canonical
  import opened OpenApi
  import opened OpenApiContents

  // The records are those found, in the order of their places.
  ghost predicate Lists<T>(records: seq<T>, finds: seq<Find<T>>) {
    records == Records(finds) && Ordered(finds)
  }

  /** A document is taken exactly if it is an object with a version and an object of paths. */
  lemma AcceptedIff(parsed: Json)
    ensures CandidateOf(parsed).Ok?
       <==> parsed.Object? && (TextAt(parsed, Ascii("openapi")) != [] || TextAt(parsed, Ascii("swagger")) != [])
            && At(parsed, [Ascii("paths")]).Some? && At(parsed, [Ascii("paths")]).value.Object?
    ensures CandidateOf(parsed) == Err(NotAnObject) <==> !parsed.Object?
    ensures CandidateOf(parsed).Ok? ==>
              var c, openapi := CandidateOf(parsed).value, TextAt(parsed, Ascii("openapi"));
              && c.version == (if openapi != [] then openapi else TextAt(parsed, Ascii("swagger")))
              && c.contract == Normal(parsed) && c.contentHash == CanonicalText(Normal(parsed))
  {
    if parsed.Object? {
      TextsAre(parsed, OPENAPI);
      TextsAre(parsed, SWAGGER);
      assert At(parsed, [Ascii("paths")]) == Lookup(parsed.fields, PATHS);
    }
  }

  // ---------------------------------------------------------------- schemas

  // components.schemas, or definitions if there is no such object
  function SchemaHolder(document: Json): Option<Json> {
    var schemas := At(document, [Ascii("components"), Ascii("schemas")]);
    if schemas.Some? && schemas.value.Object? then schemas else At(document, [Ascii("definitions")])
  }

  ghost predicate IsSchema(document: Json, contract: Str, f: Find<Schema>) {
    && |f.site| == 1 && SchemaHolder(document).Some? && At(SchemaHolder(document).value, f.site).Some?
    && var value := At(SchemaHolder(document).value, f.site).value;
       value.Object? && f.record == Schema((contract, f.site[0]), f.site[0], value.fields, CanonicalText(value))
  }

  ghost predicate IsSkippedSchema(document: Json, key: Str) {
    && SchemaHolder(document).Some? && At(SchemaHolder(document).value, [key]).Some?
    && !At(SchemaHolder(document).value, [key]).value.Object?
  }

  function SchemaFind(contract: Str, key: Str, value: Json): seq<Find<Schema>> {
    if value.Object? then [Find([], Schema((contract, key), key, value.fields, CanonicalText(value)))] else []
  }

  function SchemaFinder(contract: Str): (Str, Json) -> seq<Find<Schema>> {
    (key, value) => SchemaFind(contract, key, value)
  }

  lemma {:induction false} SchemasAreRecords(contract: Str, entries: Fields)
    ensures SchemasOf(contract, entries) == Records(Gather(entries, SchemaFinder(contract)))
  {
    if entries.Cons? {
      SchemasAreRecords(contract, entries.tail);
      RecordsGather(entries, SchemaFinder(contract));
      var here := SchemaFind(contract, entries.head.key, entries.head.value);
      if here != [] { assert here[1..] == []; }
    }
  }

  lemma ComponentsSchemas(root: Fields)
    ensures At(Object(root), [Ascii("components"), Ascii("schemas")]) == Lookup(FieldsOf(Lookup(root, COMPONENTS)), SCHEMAS)
  {
    var document, components := Object(root), Lookup(root, COMPONENTS);
    AtFurther(document, [Ascii("components")], [Ascii("schemas")]);
    assert [Ascii("components")] + [Ascii("schemas")] == [Ascii("components"), Ascii("schemas")];
    assert At(document, [Ascii("components")]) == components;
    assert components.Some? && components.value.Object? ==>
             At(components.value, [Ascii("schemas")]) == Lookup(components.value.fields, SCHEMAS);
  }

  lemma SchemaHolderIs(root: Fields)
    requires ProperFields(root)
    ensures Sort(SchemaRoot(root)) == Entries(SchemaHolder(Object(root))) && ProperOption(SchemaHolder(Object(root)))
  {
    ComponentsSchemas(root);
    ProperAt(Object(root), [Ascii("components"), Ascii("schemas")]);
    ProperAt(Object(root), [Ascii("definitions")]);
    assert At(Object(root), [Ascii("definitions")]) == Lookup(root, DEFINITIONS);
  }

  lemma SingleSite(site: Site)
    ensures site != [] && site[1..] == [] <==> |site| == 1
    ensures |site| == 1 ==> site == [site[0]]
  {
  }

  lemma InSchemaFinds(document: Json, contract: Str, f: Find<Schema>)
    requires ProperOption(SchemaHolder(document))
    ensures f in Gather(Entries(SchemaHolder(document)), SchemaFinder(contract)) <==> IsSchema(document, contract, f)
  {
    EntriesAre(SchemaHolder(document));
    InGather(Entries(SchemaHolder(document)), SchemaFinder(contract), f);
    SingleSite(f.site);
  }

  /** The schemas of a candidate are the objects below components.schemas, or below definitions if there is no
      such object, each once and in the order of their keys. */
  lemma SchemasAreLocated(parsed: Json) returns (finds: seq<Find<Schema>>)
    requires Proper(parsed) && CandidateOf(parsed).Ok?
    ensures Lists(CandidateOf(parsed).value.schemas, finds)
    ensures forall f :: f in finds <==> IsSchema(parsed, CanonicalText(Normal(parsed)), f)
  {
    var contract, entries := CanonicalText(Normal(parsed)), Entries(SchemaHolder(parsed));
    finds := Gather(entries, SchemaFinder(contract));
    SchemaHolderIs(parsed.fields);
    EntriesAre(SchemaHolder(parsed));
    SchemasAreRecords(contract, entries);
    OrderedGather(entries, SchemaFinder(contract));
    forall f ensures f in finds <==> IsSchema(parsed, contract, f) { InSchemaFinds(parsed, contract, f); }
  }

  lemma {:induction false} SkippedAre(entries: Fields, key: Str)
    requires Sorted(entries)
    ensures SchemaSkipped(key) in SkippedOf(entries)
       <==> Lookup(entries, key).Some? && !Lookup(entries, key).value.Object?
    ensures forall d :: d in SkippedOf(entries) ==> d.SchemaSkipped?
  {
    if entries.Cons? {
      SortedTail(entries);
      SkippedAre(entries.tail, key);
    }
  }

  lemma {:induction false} DuplicatesAre(visits: List<Visit>, seen: set<Str>)
    ensures forall d :: d in DuplicatesOf(visits, seen) ==> d.DuplicateOperationId?
  {
    if visits.Cons? { DuplicatesAre(visits.tail, SeenAfter(visits.head, seen)); }
  }

  /** A schema has a diagnostic exactly if it is not an object. */
  lemma SkippedSchemasAreReported(parsed: Json, key: Str)
    requires Proper(parsed) && CandidateOf(parsed).Ok?
    ensures SchemaSkipped(key) in CandidateOf(parsed).value.diagnostics <==> IsSkippedSchema(parsed, key)
  {
    SchemaHolderIs(parsed.fields);
    EntriesAre(SchemaHolder(parsed));
    SkippedAre(Entries(SchemaHolder(parsed)), key);
    DuplicatesAre(Visits(parsed.fields), {});
  }

  /** An operationId has a diagnostic exactly if an earlier operation has it. */
  lemma RepeatedIdsAreReported(parsed: Json, sites: seq<Site>, key: Str, id: Str)
    requires Proper(parsed) && CandidateOf(parsed).Ok? && sites == SitesOf(VisitFinds(parsed.fields))
    ensures At(parsed, [Ascii("paths")]).Some?
    ensures var paths := At(parsed, [Ascii("paths")]).value;
            DuplicateOperationId(key, id) in CandidateOf(parsed).value.diagnostics
            <==> id != [] && exists k :: 0 <= k < |sites| && RepeatsId(paths, sites, k, key, id)
  {
    var root := parsed.fields;
    assert At(parsed, [Ascii("paths")]) == Lookup(root, PATHS);
    var paths := Lookup(root, PATHS).value;
    OnlyDuplicates(root, key, id);
    DuplicatesAreReported(root, key, id);
    DuplicatesIff(root, paths, sites, key, id);
  }

  lemma DuplicatesIff(root: Fields, paths: Json, sites: seq<Site>, key: Str, id: Str)
    requires ProperFields(root) && Lookup(root, PATHS) == Some(paths) && sites == SitesOf(VisitFinds(root))
    ensures (exists k: nat :: IsDuplicate(Visits(root), {}, k, key, id))
       <==> exists k :: 0 <= k < |sites| && RepeatsId(paths, sites, k, key, id)
  {
    forall k: nat ensures IsDuplicate(Visits(root), {}, k, key, id) <==> k < |sites| && RepeatsId(paths, sites, k, key, id) {
      DuplicateIff(root, paths, sites, k, key, id);
    }
  }

  lemma OnlyDuplicates(root: Fields, key: Str, id: Str)
    requires ProperFields(root)
    ensures DuplicateOperationId(key, id) in DuplicatesOf(Visits(root), {}) + SkippedOf(Sort(SchemaRoot(root)))
       <==> DuplicateOperationId(key, id) in DuplicatesOf(Visits(root), {})
  {
    SchemaHolderIs(root);
    EntriesAre(SchemaHolder(Object(root)));
    SkippedAre(Sort(SchemaRoot(root)), key);
  }

  // The operation here has this key and an id that an earlier one has.
  predicate RepeatsId(paths: Json, sites: seq<Site>, k: nat, key: Str, id: Str)
    requires k < |sites|
  {
    |sites[k]| == 2 && Upper(Lower(sites[k][1])) + [32] + sites[k][0] == key && IdAt(paths, sites[k]) == id && IdBefore(paths, sites, k)
  }

  lemma DuplicateIff(root: Fields, paths: Json, sites: seq<Site>, k: nat, key: Str, id: Str)
    requires ProperFields(root) && Lookup(root, PATHS) == Some(paths) && sites == SitesOf(VisitFinds(root))
    ensures IsDuplicate(Visits(root), {}, k, key, id) <==> k < |sites| && RepeatsId(paths, sites, k, key, id)
  {
    VisitsInSequence(root);
    NthInSequence(Visits(root), k);
    if sites != [] { RecordAt(VisitFinds(root), 0); }
    if k < |sites| {
      VisitIsFound(root, paths, k);
      UsedBeforeIff(root, paths, k);
    }
  }

  // ---------------------------------------------------------------- examples

  // An example object with a value stands for that value.
  function Bare(value: Json): Json {
    if At(value, [Ascii("value")]).Some? then At(value, [Ascii("value")]).value else value
  }

  // The example of a media type is named default; those in its examples have their own names.
  ghost predicate IsMediaExample(media: Json, operation: (Str, Str), use: Use, mediaType: Str, f: Find<Example>) {
    && At(media, f.site).Some?
    && var value := At(media, f.site).value;
       || (f.site == [Ascii("example")]
           && f.record == Example(operation, use, mediaType, Ascii("default"), value, CanonicalText(value)))
       || (|f.site| == 2 && f.site[0] == Ascii("examples")
           && f.record == Example(operation, use, mediaType, f.site[1], Bare(value), CanonicalText(Bare(value))))
  }

  // An example below the content of a request body or a response.
  ghost predicate IsContentExample(holder: Json, operation: (Str, Str), use: Use, f: Find<Example>) {
    && |f.site| > 2 && f.site[0] == Ascii("content") && At(holder, f.site[..2]).Some?
    && IsMediaExample(At(holder, f.site[..2]).value, operation, use, f.site[1], Find(f.site[2..], f.record))
  }

  // An example of the request body, or of the response with some status.
  ghost predicate IsOperationExample(value: Json, operation: (Str, Str), f: Find<Example>) {
    || (&& |f.site| > 1 && f.site[0] == Ascii("requestBody") && At(value, f.site[..1]).Some?
        && IsContentExample(At(value, f.site[..1]).value, operation, InRequest, Find(f.site[1..], f.record)))
    || (&& |f.site| > 2 && f.site[0] == Ascii("responses") && At(value, f.site[..2]).Some?
        && IsContentExample(At(value, f.site[..2]).value, operation, InResponse(f.site[1]), Find(f.site[2..], f.record)))
  }

  ghost predicate IsExample(paths: Json, contract: Str, f: Find<Example>) {
    && |f.site| > 2 && IsOperationSite(paths, f.site[..2])
    && IsOperationExample(At(paths, f.site[..2]).value, (contract, Upper(Lower(f.site[1])) + [32] + f.site[0]),
                          Find(f.site[2..], f.record))
  }

  function NamedFinder(operation: (Str, Str), use: Use, mediaType: Str): (Str, Json) -> seq<Find<Example>> {
    (name, value) => [Find([], Example(operation, use, mediaType, name, Unwrapped(value), CanonicalText(Unwrapped(value))))]
  }

  function DirectFind(operation: (Str, Str), use: Use, mediaType: Str, media: Json): seq<Find<Example>> {
    var value := At(media, [EXAMPLE]);
    if value.None? then []
    else [Find([EXAMPLE], Example(operation, use, mediaType, DEFAULT, value.value, CanonicalText(value.value)))]
  }

  function MediaFinds(operation: (Str, Str), use: Use, mediaType: Str, media: Json): seq<Find<Example>> {
    DirectFind(operation, use, mediaType, media)
    + Under(EXAMPLES, Gather(Entries(At(media, [EXAMPLES])), NamedFinder(operation, use, mediaType)))
  }

  function MediaFinder(operation: (Str, Str), use: Use): (Str, Json) -> seq<Find<Example>> {
    (mediaType, media) => MediaFinds(operation, use, mediaType, media)
  }

  function ContentFinds(operation: (Str, Str), use: Use, holder: Json): seq<Find<Example>> {
    Under(CONTENT, Gather(Entries(At(holder, [CONTENT])), MediaFinder(operation, use)))
  }

  function ResponseFinder(operation: (Str, Str)): (Str, Json) -> seq<Find<Example>> {
    (status, response) => ContentFinds(operation, InResponse(status), response)
  }

  function RequestFinds(operation: (Str, Str), value: Json): seq<Find<Example>> {
    var body := At(value, [REQUEST_BODY]);
    if body.None? then [] else Under(REQUEST_BODY, ContentFinds(operation, InRequest, body.value))
  }

  function OperationFinds(operation: (Str, Str), value: Json): seq<Find<Example>> {
    RequestFinds(operation, value) + Under(RESPONSES, Gather(Entries(At(value, [RESPONSES])), ResponseFinder(operation)))
  }

  lemma AtOne(value: Json, key: Str)
    ensures At(value, [key]) == if value.Object? then Lookup(value.fields, key) else None
  {
  }

  lemma BareIs(value: Json)
    ensures Unwrapped(value) == Bare(value)
  {
    AtOne(value, VALUE);
  }

  lemma {:induction false} NamedAreRecords(operation: (Str, Str), use: Use, mediaType: Str, entries: Fields)
    ensures NamedExamples(operation, use, mediaType, entries)
         == Records(Gather(entries, NamedFinder(operation, use, mediaType)))
  {
    if entries.Cons? {
      var finder := NamedFinder(operation, use, mediaType);
      NamedAreRecords(operation, use, mediaType, entries.tail);
      RecordsGather(entries, finder);
      var here := finder(entries.head.key, entries.head.value);
      assert here[1..] == [];
    }
  }

  lemma MediaAreRecords(operation: (Str, Str), use: Use, mediaType: Str, media: Json)
    ensures (if media.Object? then MediaExamples(operation, use, mediaType, media.fields) else [])
         == Records(MediaFinds(operation, use, mediaType, media))
  {
    AtOne(media, EXAMPLE);
    AtOne(media, EXAMPLES);
    var direct, named := DirectFind(operation, use, mediaType, media),
                         Gather(Entries(At(media, [EXAMPLES])), NamedFinder(operation, use, mediaType));
    if direct != [] { assert direct[1..] == []; }
    RecordsConcat(direct, Under(EXAMPLES, named));
    RecordsUnder(EXAMPLES, named);
    if media.Object? {
      NamedAreRecords(operation, use, mediaType, Sort(FieldsOf(Lookup(media.fields, EXAMPLES))));
      assert Entries(At(media, [EXAMPLES])) == Sort(FieldsOf(Lookup(media.fields, EXAMPLES)));
    }
  }

  lemma {:induction false} ContentAreRecords(operation: (Str, Str), use: Use, entries: Fields)
    ensures ContentExamples(operation, use, entries) == Records(Gather(entries, MediaFinder(operation, use)))
  {
    if entries.Cons? {
      ContentAreRecords(operation, use, entries.tail);
      RecordsGather(entries, MediaFinder(operation, use));
      MediaAreRecords(operation, use, entries.head.key, entries.head.value);
    }
  }

  lemma HolderAreRecords(operation: (Str, Str), use: Use, holder: Option<Json>)
    ensures ExamplesIn(operation, use, holder)
         == if holder.Some? then Records(ContentFinds(operation, use, holder.value)) else []
  {
    if holder.Some? {
      AtOne(holder.value, CONTENT);
      var entries := Entries(At(holder.value, [CONTENT]));
      assert entries == Sort(FieldsOf(Lookup(FieldsOf(holder), CONTENT)));
      ContentAreRecords(operation, use, entries);
      RecordsUnder(CONTENT, Gather(entries, MediaFinder(operation, use)));
    }
  }

  lemma {:induction false} ResponsesAreRecords(operation: (Str, Str), entries: Fields)
    ensures ResponseExamples(operation, entries) == Records(Gather(entries, ResponseFinder(operation)))
  {
    if entries.Cons? {
      ResponsesAreRecords(operation, entries.tail);
      RecordsGather(entries, ResponseFinder(operation));
      HolderAreRecords(operation, InResponse(entries.head.key), Some(entries.head.value));
    }
  }

  lemma OperationAreRecords(contract: Str, path: Str, raw: Str, value: Json)
    requires value.Object?
    ensures var visit := Visit(path, Lower(raw), value.fields);
            OperationExamples(contract, visit) == Records(OperationFinds((contract, KeyOf(visit)), value))
  {
    var operation := (contract, KeyOf(Visit(path, Lower(raw), value.fields)));
    AtOne(value, REQUEST_BODY);
    AtOne(value, RESPONSES);
    HolderAreRecords(operation, InRequest, At(value, [REQUEST_BODY]));
    var responses := Gather(Entries(At(value, [RESPONSES])), ResponseFinder(operation));
    ResponsesAreRecords(operation, Sort(FieldsOf(Lookup(value.fields, RESPONSES))));
    assert Entries(At(value, [RESPONSES])) == Sort(FieldsOf(Lookup(value.fields, RESPONSES)));
    RecordsUnder(RESPONSES, responses);
    if At(value, [REQUEST_BODY]).Some? {
      RecordsUnder(REQUEST_BODY, ContentFinds(operation, InRequest, At(value, [REQUEST_BODY]).value));
    }
    RecordsConcat(RequestFinds(operation, value), Under(RESPONSES, responses));
  }

  // ---------------------------------------------------------------- the examples of all operations

  function MethodExampleFinds(contract: Str, path: Str, raw: Str, value: Json): seq<Find<Example>> {
    if Lower(raw) in METHODS && value.Object?
    then OperationFinds((contract, KeyOf(Visit(path, Lower(raw), value.fields))), value)
    else []
  }

  function MethodExampleFinder(contract: Str, path: Str): (Str, Json) -> seq<Find<Example>> {
    (raw, value) => MethodExampleFinds(contract, path, raw, value)
  }

  function PathExampleFinds(contract: Str, path: Str, item: Json): seq<Find<Example>> {
    if StartsWith(path, [SLASH]) then Gather(Entries(Some(item)), MethodExampleFinder(contract, path)) else []
  }

  function PathExampleFinder(contract: Str): (Str, Json) -> seq<Find<Example>> {
    (path, item) => PathExampleFinds(contract, path, item)
  }

  lemma {:induction false} MethodExamplesAreRecords(contract: Str, path: Str, entries: Fields, later: List<Visit>)
    ensures ExamplesOf(contract, VisitMethods(path, entries, later))
         == Records(Gather(entries, MethodExampleFinder(contract, path))) + ExamplesOf(contract, later)
  {
    var finder := MethodExampleFinder(contract, path);
    if entries.Nil? {
      assert [] + ExamplesOf(contract, later) == ExamplesOf(contract, later);
    } else {
      var raw, value := entries.head.key, entries.head.value;
      MethodExamplesAreRecords(contract, path, entries.tail, later);
      RecordsGather(entries, finder);
      if Lower(raw) in METHODS && value.Object? { OperationAreRecords(contract, path, raw, value); }
      Associates(Records(MethodExampleFinds(contract, path, raw, value)), Records(Gather(entries.tail, finder)),
                 ExamplesOf(contract, later));
    }
  }

  lemma {:induction false} PathExamplesAreRecords(contract: Str, entries: Fields)
    ensures ExamplesOf(contract, VisitPaths(entries)) == Records(Gather(entries, PathExampleFinder(contract)))
  {
    if entries.Cons? {
      var path, item := entries.head.key, entries.head.value;
      PathExamplesAreRecords(contract, entries.tail);
      RecordsGather(entries, PathExampleFinder(contract));
      if StartsWith(path, [SLASH]) && item.Object? {
        MethodExamplesAreRecords(contract, path, Sort(item.fields), VisitPaths(entries.tail));
      } else {
        assert PathExampleFinds(contract, path, item) == [];
      }
    }
  }

  // ---------------------------------------------------------------- where examples are found

  lemma InMediaFinds(operation: (Str, Str), use: Use, mediaType: Str, media: Json, f: Find<Example>)
    requires Proper(media)
    ensures f in MediaFinds(operation, use, mediaType, media) <==> IsMediaExample(media, operation, use, mediaType, f)
  {
    var named := At(media, [EXAMPLES]);
    ProperAt(media, [EXAMPLES]);
    EntriesAre(named);
    InUnder(EXAMPLES, Gather(Entries(named), NamedFinder(operation, use, mediaType)), f);
    if f.site != [] {
      InGather(Entries(named), NamedFinder(operation, use, mediaType), Find(f.site[1..], f.record));
      AtFurther(media, [f.site[0]], f.site[1..]);
      assert [f.site[0]] + f.site[1..] == f.site;
    }
    if |f.site| == 2 {
      assert f.site[1..] == [f.site[1]] && f.site[1..][1..] == [];
      if At(media, f.site).Some? { BareIs(At(media, f.site).value); }
    }
    LessThanExamples();
  }

  // The two keys differ, and are in this order.
  lemma LessThanExamples()
    ensures EXAMPLE != EXAMPLES && Less(EXAMPLE, EXAMPLES) && |EXAMPLE| == 7 && |EXAMPLES| == 8
  {
    PrefixLess(EXAMPLE, EXAMPLES);
  }

  lemma {:induction false} PrefixLess(a: Str, b: Str)
    requires |a| < |b| && b[..|a|] == a
    ensures Less(a, b)
  {
    if a != [] {
      assert b[0] == b[..|a|][0];
      assert b[1..][..|a| - 1] == b[..|a|][1..];
      PrefixLess(a[1..], b[1..]);
    }
  }

  lemma InContentFinds(operation: (Str, Str), use: Use, holder: Json, f: Find<Example>)
    requires Proper(holder)
    ensures f in ContentFinds(operation, use, holder) <==> IsContentExample(holder, operation, use, f)
  {
    var content := At(holder, [CONTENT]);
    ProperAt(holder, [CONTENT]);
    EntriesAre(content);
    InUnder(CONTENT, Gather(Entries(content), MediaFinder(operation, use)), f);
    if |f.site| > 1 {
      InGather(Entries(content), MediaFinder(operation, use), Find(f.site[1..], f.record));
      AtFurther(holder, [f.site[0]], [f.site[1]]);
      assert [f.site[0]] + [f.site[1]] == f.site[..2] && f.site[1..][1..] == f.site[2..];
      ProperAt(holder, f.site[..2]);
      if At(holder, f.site[..2]).Some? {
        InMediaFinds(operation, use, f.site[1], At(holder, f.site[..2]).value, Find(f.site[2..], f.record));
      }
    } else if f.site != [] {
      InGather(Entries(content), MediaFinder(operation, use), Find(f.site[1..], f.record));
    }
  }

  lemma InRequestFinds(operation: (Str, Str), value: Json, f: Find<Example>)
    requires Proper(value)
    ensures f in RequestFinds(operation, value)
       <==> f.site != [] && f.site[0] == REQUEST_BODY && At(value, f.site[..1]).Some?
            && IsContentExample(At(value, f.site[..1]).value, operation, InRequest, Find(f.site[1..], f.record))
  {
    var body := At(value, [REQUEST_BODY]);
    ProperAt(value, [REQUEST_BODY]);
    if f.site != [] { assert f.site[..1] == [f.site[0]]; }
    if body.Some? {
      InUnder(REQUEST_BODY, ContentFinds(operation, InRequest, body.value), f);
      if f.site != [] { InContentFinds(operation, InRequest, body.value, Find(f.site[1..], f.record)); }
    }
  }

  lemma InResponseFinds(operation: (Str, Str), value: Json, f: Find<Example>)
    requires Proper(value)
    ensures f in Under(RESPONSES, Gather(Entries(At(value, [RESPONSES])), ResponseFinder(operation)))
       <==> |f.site| > 1 && f.site[0] == RESPONSES && At(value, f.site[..2]).Some?
            && IsContentExample(At(value, f.site[..2]).value, operation, InResponse(f.site[1]), Find(f.site[2..], f.record))
  {
    var responses := At(value, [RESPONSES]);
    ProperAt(value, [RESPONSES]);
    EntriesAre(responses);
    InUnder(RESPONSES, Gather(Entries(responses), ResponseFinder(operation)), f);
    if f.site != [] { InGather(Entries(responses), ResponseFinder(operation), Find(f.site[1..], f.record)); }
    if |f.site| > 1 {
      AtFurther(value, [f.site[0]], [f.site[1]]);
      assert [f.site[0]] + [f.site[1]] == f.site[..2] && f.site[1..][1..] == f.site[2..];
      ProperAt(value, f.site[..2]);
      if At(value, f.site[..2]).Some? {
        InContentFinds(operation, InResponse(f.site[1]), At(value, f.site[..2]).value, Find(f.site[2..], f.record));
      }
    }
  }

  lemma InOperationFinds(operation: (Str, Str), value: Json, f: Find<Example>)
    requires Proper(value)
    ensures f in OperationFinds(operation, value) <==> IsOperationExample(value, operation, f)
  {
    InRequestFinds(operation, value, f);
    InResponseFinds(operation, value, f);
  }

  lemma InPathExamples(contract: Str, path: Str, item: Json, f: Find<Example>)
    requires Proper(item)
    ensures f in PathExampleFinds(contract, path, item)
       <==> && f.site != [] && StartsWith(path, [SLASH]) && IsHttpMethod(Lower(f.site[0]))
            && At(item, f.site[..1]).Some? && At(item, f.site[..1]).value.Object?
            && IsOperationExample(At(item, f.site[..1]).value, (contract, Upper(Lower(f.site[0])) + [32] + path),
                                  Find(f.site[1..], f.record))
  {
    EntriesAre(Some(item));
    InGather(Entries(Some(item)), MethodExampleFinder(contract, path), f);
    if f.site != [] {
      assert f.site[..1] == [f.site[0]];
      MethodsAre(Lower(f.site[0]));
      ProperAt(item, f.site[..1]);
      if At(item, f.site[..1]).Some? {
        InOperationFinds((contract, Upper(Lower(f.site[0])) + [32] + path), At(item, f.site[..1]).value,
                         Find(f.site[1..], f.record));
      }
    }
  }

  lemma InExamples(paths: Json, contract: Str, f: Find<Example>)
    requires Proper(paths)
    ensures f in Gather(Entries(Some(paths)), PathExampleFinder(contract)) <==> IsExample(paths, contract, f)
  {
    EntriesAre(Some(paths));
    InGather(Entries(Some(paths)), PathExampleFinder(contract), f);
    if f.site != [] && At(paths, [f.site[0]]).Some? {
      ProperAt(paths, [f.site[0]]);
      InPathExamples(contract, f.site[0], At(paths, [f.site[0]]).value, Find(f.site[1..], f.record));
      StartsWithSlash(f.site[0]);
    }
    if |f.site| > 1 {
      AtFurther(paths, [f.site[0]], [f.site[1]]);
      assert [f.site[0]] + [f.site[1]] == f.site[..2] && f.site[1..][..1] == [f.site[1]] && f.site[1..][1..] == f.site[2..];
    }
  }

  // ---------------------------------------------------------------- examples are in order

  lemma MediaOrdered(operation: (Str, Str), use: Use, mediaType: Str, media: Json)
    requires Proper(media)
    ensures Ordered(MediaFinds(operation, use, mediaType, media))
  {
    var entries := Entries(At(media, [EXAMPLES]));
    var direct, named := DirectFind(operation, use, mediaType, media), Gather(entries, NamedFinder(operation, use, mediaType));
    ProperAt(media, [EXAMPLES]);
    EntriesAre(At(media, [EXAMPLES]));
    OrderedGather(entries, NamedFinder(operation, use, mediaType));
    OrderedUnder(EXAMPLES, named);
    forall x, y | x in direct && y in Under(EXAMPLES, named) ensures SiteLess(x.site, y.site) {
      InUnder(EXAMPLES, named, y);
      LessThanExamples();
    }
    OrderedConcat(direct, Under(EXAMPLES, named));
  }

  lemma ContentOrdered(operation: (Str, Str), use: Use, holder: Json)
    requires Proper(holder)
    ensures Ordered(ContentFinds(operation, use, holder))
  {
    var content := At(holder, [CONTENT]);
    ProperAt(holder, [CONTENT]);
    EntriesAre(content);
    EntriesProper(content);
    forall key | Lookup(Entries(content), key).Some?
      ensures Ordered(MediaFinds(operation, use, key, Lookup(Entries(content), key).value))
    {
      ProperLookup(Entries(content), key);
      MediaOrdered(operation, use, key, Lookup(Entries(content), key).value);
    }
    OrderedGather(Entries(content), MediaFinder(operation, use));
    OrderedUnder(CONTENT, Gather(Entries(content), MediaFinder(operation, use)));
  }

  lemma RequestBeforeResponses()
    ensures Less(REQUEST_BODY, RESPONSES)
  {
    assert REQUEST_BODY[..2] == RESPONSES[..2];
    assert SmallerAt(REQUEST_BODY, RESPONSES, 2);
    LessIsFirstDifference(REQUEST_BODY, RESPONSES);
  }

  lemma ResponsesOrdered(operation: (Str, Str), value: Json)
    requires Proper(value)
    ensures Ordered(Under(RESPONSES, Gather(Entries(At(value, [RESPONSES])), ResponseFinder(operation))))
  {
    var responses := At(value, [RESPONSES]);
    ProperAt(value, [RESPONSES]);
    EntriesAre(responses);
    EntriesProper(responses);
    forall key | Lookup(Entries(responses), key).Some?
      ensures Ordered(ContentFinds(operation, InResponse(key), Lookup(Entries(responses), key).value))
    {
      ProperLookup(Entries(responses), key);
      ContentOrdered(operation, InResponse(key), Lookup(Entries(responses), key).value);
    }
    OrderedGather(Entries(responses), ResponseFinder(operation));
    OrderedUnder(RESPONSES, Gather(Entries(responses), ResponseFinder(operation)));
  }

  lemma OperationOrdered(operation: (Str, Str), value: Json)
    requires Proper(value)
    ensures Ordered(OperationFinds(operation, value))
  {
    var body := At(value, [REQUEST_BODY]);
    ProperAt(value, [REQUEST_BODY]);
    if body.Some? {
      ContentOrdered(operation, InRequest, body.value);
      OrderedUnder(REQUEST_BODY, ContentFinds(operation, InRequest, body.value));
    }
    ResponsesOrdered(operation, value);
    var responses := Under(RESPONSES, Gather(Entries(At(value, [RESPONSES])), ResponseFinder(operation)));
    forall x, y | x in RequestFinds(operation, value) && y in responses ensures SiteLess(x.site, y.site) {
      InRequestFinds(operation, value, x);
      InResponseFinds(operation, value, y);
      RequestBeforeResponses();
    }
    OrderedConcat(RequestFinds(operation, value), responses);
  }

  lemma PathExamplesOrdered(contract: Str, path: Str, item: Json)
    requires Proper(item)
    ensures Ordered(PathExampleFinds(contract, path, item))
  {
    var entries := Entries(Some(item));
    EntriesAre(Some(item));
    EntriesProper(Some(item));
    forall key | Lookup(entries, key).Some? ensures Ordered(MethodExampleFinds(contract, path, key, Lookup(entries, key).value)) {
      ProperLookup(entries, key);
      if Lower(key) in METHODS && Lookup(entries, key).value.Object? {
        OperationOrdered((contract, KeyOf(Visit(path, Lower(key), Lookup(entries, key).value.fields))), Lookup(entries, key).value);
      }
    }
    OrderedGather(entries, MethodExampleFinder(contract, path));
  }

  lemma ExamplesOrdered(contract: Str, paths: Json)
    requires Proper(paths)
    ensures Ordered(Gather(Entries(Some(paths)), PathExampleFinder(contract)))
  {
    var entries := Entries(Some(paths));
    EntriesAre(Some(paths));
    EntriesProper(Some(paths));
    forall key | Lookup(entries, key).Some? ensures Ordered(PathExampleFinds(contract, key, Lookup(entries, key).value)) {
      ProperLookup(entries, key);
      PathExamplesOrdered(contract, key, Lookup(entries, key).value);
    }
    OrderedGather(entries, PathExampleFinder(contract));
  }

  /** The examples of a candidate are those below the content of the request bodies and responses of its
      operations, each once and in the order of their places, with the name, media type, status and value found there. */
  lemma ExamplesAreLocated(parsed: Json) returns (finds: seq<Find<Example>>)
    requires Proper(parsed) && CandidateOf(parsed).Ok?
    ensures At(parsed, [Ascii("paths")]).Some? && Lists(CandidateOf(parsed).value.examples, finds)
    ensures forall f :: f in finds <==> IsExample(At(parsed, [Ascii("paths")]).value, CanonicalText(Normal(parsed)), f)
  {
    AtOne(parsed, PATHS);
    var paths, contract := Lookup(parsed.fields, PATHS).value, CanonicalText(Normal(parsed));
    finds := Gather(Entries(Some(paths)), PathExampleFinder(contract));
    ProperAt(parsed, [PATHS]);
    PathExamplesAreRecords(contract, Entries(Some(paths)));
    ExamplesOrdered(contract, paths);
    forall f ensures f in finds <==> IsExample(paths, contract, f) { InExamples(paths, contract, f); }
  }

  // ---------------------------------------------------------------- error entries

  // 4 or 5, and two digits or XX in whatever case.
  predicate IsErrorText(status: Str) {
    && |status| == 3 && (status[0] == 52 || status[0] == 53)
    && ((48 <= status[1] <= 57 && 48 <= status[2] <= 57)
        || ((status[1] == 88 || status[1] == 120) && (status[2] == 88 || status[2] == 120)))
  }

  // The last operation with this key.
  predicate IsLastWith(operations: seq<Operation>, key: Str, i: nat) {
    i < |operations| && operations[i].key == key && forall j :: i < j < |operations| ==> operations[j].key != key
  }

  // Trimmed, and not blank.
  predicate IsAlias(x: Str, text: Str) {
    x != [] && x == Trim(text)
  }

  ghost predicate DescribesError(entry: ErrorEntry, operations: seq<Operation>, key: Str, status: Str, response: Json) {
    && entry.key == key && entry.status == Upper(status) && entry.description == TextAt(response, Ascii("description"))
    && ((forall i :: 0 <= i < |operations| ==> operations[i].key != key) ==>
          entry.operation == None && IsRisingSet(entry.aliases, iset x | IsAlias(x, Upper(status))))
    && (forall i: nat :: IsLastWith(operations, key, i) ==>
          && entry.operation == Some(operations[i].logicalId)
          && IsRisingSet(entry.aliases,
                         iset x | IsAlias(x, Upper(status)) || IsAlias(x, operations[i].operationId) || IsAlias(x, key)))
  }

  ghost predicate IsError(paths: Json, operations: seq<Operation>, f: Find<ErrorEntry>) {
    && |f.site| == 4 && IsHttpMethod(Lower(f.site[1])) && f.site[2] == Ascii("responses") && IsErrorText(f.site[3])
    && At(paths, f.site).Some?
    && f.record == MakeError(operations, Upper(Lower(f.site[1])) + [32] + f.site[0], f.site[3], At(paths, f.site).value)
  }

  lemma ErrorTextIff(status: Str)
    ensures IsErrorStatus(status) <==> IsErrorText(status)
  {
    if |status| == 3 {
      var rest := Upper(status[1..]);
      assert rest == Ascii("XX") <==> rest[0] == 88 && rest[1] == 88;
    }
  }

  lemma {:induction false} LastByKey(operations: seq<Operation>, key: Str)
    ensures OperationByKey(operations, key).None? <==> forall i :: 0 <= i < |operations| ==> operations[i].key != key
    ensures forall i: nat :: IsLastWith(operations, key, i) ==> OperationByKey(operations, key) == Some(operations[i])
  {
    if operations != [] {
      var front := operations[..|operations| - 1];
      LastByKey(front, key);
      forall i: nat | IsLastWith(operations, key, i) ensures OperationByKey(operations, key) == Some(operations[i]) {
        if i < |front| { assert IsLastWith(front, key, i); }
      }
    }
  }

  lemma AddNonBlankIs(value: Str, before: List<Str>)
    requires Rising(before)
    ensures Rising(AddNonBlank(value, before))
    ensures forall x :: x in Members(AddNonBlank(value, before)) <==> x in Members(before) || IsAlias(x, value)
  {
    if Trim(value) != [] {
      InsertTextRising(Trim(value), before);
      InsertTextMembers(Trim(value), before);
    }
  }

  lemma MadeErrorDescribes(operations: seq<Operation>, key: Str, status: Str, response: Json)
    ensures DescribesError(MakeError(operations, key, status, response), operations, key, status, response)
  {
    LastByKey(operations, key);
    AddNonBlankIs(Upper(status), Nil);
    var named, operation := AddNonBlank(Upper(status), Nil), OperationByKey(operations, key);
    if operation.Some? {
      AddNonBlankIs(operation.value.operationId, named);
      AddNonBlankIs(operation.value.key, AddNonBlank(operation.value.operationId, named));
    }
    if response.Object? { TextsAre(response, DESCRIPTION); }
  }

  function StatusFinder(operations: seq<Operation>, key: Str): (Str, Json) -> seq<Find<ErrorEntry>> {
    (status, response) =>
      if IsErrorStatus(status) then [Find([], MakeError(operations, key, status, response))] else []
  }

  function MethodErrorFinds(operations: seq<Operation>, path: Str, raw: Str, value: Json): seq<Find<ErrorEntry>> {
    if Lower(raw) !in METHODS then []
    else
      Under(RESPONSES, Gather(Entries(At(value, [RESPONSES])), StatusFinder(operations, Upper(Lower(raw)) + [SPACE] + path)))
  }

  function MethodErrorFinder(operations: seq<Operation>, path: Str): (Str, Json) -> seq<Find<ErrorEntry>> {
    (raw, value) => MethodErrorFinds(operations, path, raw, value)
  }

  function PathErrorFinds(operations: seq<Operation>, path: Str, item: Json): seq<Find<ErrorEntry>> {
    Gather(Entries(Some(item)), MethodErrorFinder(operations, path))
  }

  function PathErrorFinder(operations: seq<Operation>): (Str, Json) -> seq<Find<ErrorEntry>> {
    (path, item) => PathErrorFinds(operations, path, item)
  }

  lemma {:induction false} StatusErrorsAreRecords(operations: seq<Operation>, key: Str, entries: Fields)
    ensures StatusErrors(operations, key, entries) == Records(Gather(entries, StatusFinder(operations, key)))
  {
    if entries.Cons? {
      StatusErrorsAreRecords(operations, key, entries.tail);
      RecordsGather(entries, StatusFinder(operations, key));
      var here := StatusFinder(operations, key)(entries.head.key, entries.head.value);
      if here != [] { assert here[1..] == []; }
    }
  }

  lemma MethodErrorIsRecord(operations: seq<Operation>, path: Str, raw: Str, value: Json)
    ensures (if Lower(raw) in METHODS
             then StatusErrors(operations, Upper(Lower(raw)) + [SPACE] + path,
                               Sort(FieldsOf(Lookup(FieldsOf(Some(value)), RESPONSES))))
             else [])
         == Records(MethodErrorFinds(operations, path, raw, value))
  {
    var key, entries := Upper(Lower(raw)) + [SPACE] + path, Entries(At(value, [RESPONSES]));
    AtOne(value, RESPONSES);
    assert entries == Sort(FieldsOf(Lookup(FieldsOf(Some(value)), RESPONSES)));
    StatusErrorsAreRecords(operations, key, entries);
    RecordsUnder(RESPONSES, Gather(entries, StatusFinder(operations, key)));
  }

  lemma {:induction false} MethodErrorsAreRecords(operations: seq<Operation>, path: Str, entries: Fields)
    ensures MethodErrors(operations, path, entries) == Records(Gather(entries, MethodErrorFinder(operations, path)))
  {
    if entries.Cons? {
      MethodErrorsAreRecords(operations, path, entries.tail);
      RecordsGather(entries, MethodErrorFinder(operations, path));
      MethodErrorIsRecord(operations, path, entries.head.key, entries.head.value);
    }
  }

  lemma {:induction false} PathErrorsAreRecords(operations: seq<Operation>, entries: Fields)
    ensures PathErrors(operations, entries) == Records(Gather(entries, PathErrorFinder(operations)))
  {
    if entries.Cons? {
      PathErrorsAreRecords(operations, entries.tail);
      RecordsGather(entries, PathErrorFinder(operations));
      if entries.head.value.Object? {
        MethodErrorsAreRecords(operations, entries.head.key, Sort(entries.head.value.fields));
      }
    }
  }

  lemma InMethodErrors(operations: seq<Operation>, path: Str, raw: Str, value: Json, f: Find<ErrorEntry>)
    requires Proper(value)
    ensures f in MethodErrorFinds(operations, path, raw, value)
       <==> |f.site| == 2 && IsHttpMethod(Lower(raw)) && f.site[0] == RESPONSES && IsErrorText(f.site[1])
            && At(value, f.site).Some?
            && f.record == MakeError(operations, Upper(Lower(raw)) + [32] + path, f.site[1], At(value, f.site).value)
  {
    var responses, finder := At(value, [RESPONSES]), StatusFinder(operations, Upper(Lower(raw)) + [SPACE] + path);
    MethodsAre(Lower(raw));
    ProperAt(value, [RESPONSES]);
    EntriesAre(responses);
    InUnder(RESPONSES, Gather(Entries(responses), finder), f);
    if f.site != [] { InGather(Entries(responses), finder, Find(f.site[1..], f.record)); }
    if |f.site| == 2 {
      AtFurther(value, [f.site[0]], [f.site[1]]);
      assert [f.site[0]] + [f.site[1]] == f.site && f.site[1..][1..] == [];
      ErrorTextIff(f.site[1]);
    }
    if |f.site| > 2 { assert |f.site[1..][1..]| > 0; }
  }

  lemma InPathErrors(operations: seq<Operation>, path: Str, item: Json, f: Find<ErrorEntry>)
    requires Proper(item)
    ensures f in PathErrorFinds(operations, path, item)
       <==> |f.site| == 3 && IsHttpMethod(Lower(f.site[0])) && f.site[1] == RESPONSES && IsErrorText(f.site[2])
            && At(item, f.site).Some?
            && f.record == MakeError(operations, Upper(Lower(f.site[0])) + [32] + path, f.site[2], At(item, f.site).value)
  {
    EntriesAre(Some(item));
    InGather(Entries(Some(item)), MethodErrorFinder(operations, path), f);
    if f.site != [] {
      AtFurther(item, [f.site[0]], f.site[1..]);
      assert [f.site[0]] + f.site[1..] == f.site;
      ProperAt(item, [f.site[0]]);
      if At(item, [f.site[0]]).Some? {
        InMethodErrors(operations, path, f.site[0], At(item, [f.site[0]]).value, Find(f.site[1..], f.record));
      }
    }
  }

  lemma InErrors(paths: Json, operations: seq<Operation>, f: Find<ErrorEntry>)
    requires Proper(paths)
    ensures f in Gather(Entries(Some(paths)), PathErrorFinder(operations)) <==> IsError(paths, operations, f)
  {
    EntriesAre(Some(paths));
    InGather(Entries(Some(paths)), PathErrorFinder(operations), f);
    if f.site != [] {
      AtFurther(paths, [f.site[0]], f.site[1..]);
      assert [f.site[0]] + f.site[1..] == f.site;
      ProperAt(paths, [f.site[0]]);
      if At(paths, [f.site[0]]).Some? {
        InPathErrors(operations, f.site[0], At(paths, [f.site[0]]).value, Find(f.site[1..], f.record));
      }
    }
  }

  lemma MethodErrorsOrdered(operations: seq<Operation>, path: Str, raw: Str, value: Json)
    requires Proper(value)
    ensures Ordered(MethodErrorFinds(operations, path, raw, value))
  {
    var responses, finder := At(value, [RESPONSES]), StatusFinder(operations, Upper(Lower(raw)) + [SPACE] + path);
    ProperAt(value, [RESPONSES]);
    EntriesAre(responses);
    OrderedGather(Entries(responses), finder);
    OrderedUnder(RESPONSES, Gather(Entries(responses), finder));
  }

  lemma PathErrorsOrdered(operations: seq<Operation>, path: Str, item: Json)
    requires Proper(item)
    ensures Ordered(PathErrorFinds(operations, path, item))
  {
    var entries := Entries(Some(item));
    EntriesAre(Some(item));
    EntriesProper(Some(item));
    forall key | Lookup(entries, key).Some? ensures Ordered(MethodErrorFinds(operations, path, key, Lookup(entries, key).value)) {
      ProperLookup(entries, key);
      MethodErrorsOrdered(operations, path, key, Lookup(entries, key).value);
    }
    OrderedGather(entries, MethodErrorFinder(operations, path));
  }

  lemma ErrorsOrdered(operations: seq<Operation>, paths: Json)
    requires Proper(paths)
    ensures Ordered(Gather(Entries(Some(paths)), PathErrorFinder(operations)))
  {
    var entries := Entries(Some(paths));
    EntriesAre(Some(paths));
    EntriesProper(Some(paths));
    forall key | Lookup(entries, key).Some? ensures Ordered(PathErrorFinds(operations, key, Lookup(entries, key).value)) {
      ProperLookup(entries, key);
      PathErrorsOrdered(operations, key, Lookup(entries, key).value);
    }
    OrderedGather(entries, PathErrorFinder(operations));
  }

  /** The error entries of a candidate are those of the responses with an error status below an HTTP method of any
      path, each once and in the order of their places; each says the status, the description found there, and
      the last operation of that key, if there is one. */
  lemma ErrorsAreLocated(parsed: Json) returns (finds: seq<Find<ErrorEntry>>)
    requires Proper(parsed) && CandidateOf(parsed).Ok?
    ensures At(parsed, [Ascii("paths")]).Some? && Lists(CandidateOf(parsed).value.errors, finds)
    ensures forall site :: (exists f :: f in finds && f.site == site) <==> IsErrorSite(At(parsed, [Ascii("paths")]).value, site)
    ensures forall f :: f in finds ==>
              ErrorIsDescribed(At(parsed, [Ascii("paths")]).value, CandidateOf(parsed).value.operations, f)
  {
    AtOne(parsed, PATHS);
    var paths, operations := Lookup(parsed.fields, PATHS).value, CandidateOf(parsed).value.operations;
    finds := Gather(Entries(Some(paths)), PathErrorFinder(operations));
    ProperAt(parsed, [PATHS]);
    PathErrorsAreRecords(operations, Entries(Some(paths)));
    ErrorsOrdered(operations, paths);
    forall f ensures f in finds <==> IsError(paths, operations, f) { InErrors(paths, operations, f); }
    forall site ensures (exists f :: f in finds && f.site == site) <==> IsErrorSite(paths, site) {
      if IsErrorSite(paths, site) {
        var f := Find(site, MakeError(operations, Upper(Lower(site[1])) + [32] + site[0], site[3], At(paths, site).value));
        assert f in finds && f.site == site;
      }
    }
    forall f | f in finds ensures ErrorIsDescribed(paths, operations, f) {
      MadeErrorDescribes(operations, Upper(Lower(f.site[1])) + [32] + f.site[0], f.site[3], At(paths, f.site).value);
    }
  }

  predicate IsErrorSite(paths: Json, site: Site) {
    && |site| == 4 && IsHttpMethod(Lower(site[1])) && site[2] == Ascii("responses") && IsErrorText(site[3])
    && At(paths, site).Some?
  }

  ghost predicate ErrorIsDescribed(paths: Json, operations: seq<Operation>, f: Find<ErrorEntry>) {
    && IsErrorSite(paths, f.site)
    && DescribesError(f.record, operations, Upper(Lower(f.site[1])) + [32] + f.site[0], f.site[3], At(paths, f.site).value)
  }
}
