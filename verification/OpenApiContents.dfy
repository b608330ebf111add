/** What an extracted candidate holds, in terms of what stands where in the document. */
module OpenApiContents {
  import opened Prelude
  import opened Text
  import opened Canonical
  import opened OpenApi

  // ---------------------------------------------------------------- places in a document

  // The keys that lead from a value to one inside it.
  type Site = seq<Str>

  function At(value: Json, site: Site): Option<Json>
    decreases |site|
  {
    if site == [] then Some(value)
    else if value.Object? && Lookup(value.fields, site[0]).Some? then At(Lookup(value.fields, site[0]).value, site[1..])
    else None
  }

  // The order of places: by the first key in which they differ.
  predicate SiteLess(a: Site, b: Site) {
    b != [] && (a == [] || Less(a[0], b[0]) || (a[0] == b[0] && SiteLess(a[1..], b[1..])))
  }

  // What is extracted, and where it was found.
  datatype Find<T> = Find(site: Site, record: T)

  predicate Ordered<T>(finds: seq<Find<T>>) {
    forall i, j :: 0 <= i < j < |finds| ==> SiteLess(finds[i].site, finds[j].site)
  }

  function Records<T>(finds: seq<Find<T>>): seq<T> {
    if finds == [] then [] else [finds[0].record] + Records(finds[1..])
  }

  // The finds of a value, as finds of the object that has it under this key.
  function Under<T>(key: Str, finds: seq<Find<T>>): seq<Find<T>> {
    seq(|finds|, i requires 0 <= i < |finds| => Find([key] + finds[i].site, finds[i].record))
  }

  // The finds in each of the entries.
  function Gather<T>(entries: Fields, inside: (Str, Json) -> seq<Find<T>>): seq<Find<T>> {
    if entries.Nil? then []
    else Under(entries.head.key, inside(entries.head.key, entries.head.value)) + Gather(entries.tail, inside)
  }

  lemma InUnder<T>(key: Str, finds: seq<Find<T>>, f: Find<T>)
    ensures f in Under(key, finds) <==> f.site != [] && f.site[0] == key && Find(f.site[1..], f.record) in finds
  {
    if f in Under(key, finds) {
      var i :| 0 <= i < |finds| && Under(key, finds)[i] == f;
      assert f.site[1..] == finds[i].site;
    }
    if f.site != [] && f.site[0] == key && Find(f.site[1..], f.record) in finds {
      var i :| 0 <= i < |finds| && finds[i] == Find(f.site[1..], f.record);
      assert [key] + finds[i].site == f.site;
      assert Under(key, finds)[i] == f;
    }
  }

  lemma {:induction false} InGather<T>(entries: Fields, inside: (Str, Json) -> seq<Find<T>>, f: Find<T>)
    requires Sorted(entries)
    ensures f in Gather(entries, inside)
       <==> f.site != [] && Lookup(entries, f.site[0]).Some?
            && Find(f.site[1..], f.record) in inside(f.site[0], Lookup(entries, f.site[0]).value)
  {
    if entries.Cons? {
      SortedTail(entries);
      InUnder(entries.head.key, inside(entries.head.key, entries.head.value), f);
      InGather(entries.tail, inside, f);
    }
  }

  lemma OrderedUnder<T>(key: Str, finds: seq<Find<T>>)
    requires Ordered(finds)
    ensures Ordered(Under(key, finds))
  {
    LessIsStrict(key, key);
    forall i, j | 0 <= i < j < |finds| ensures SiteLess([key] + finds[i].site, [key] + finds[j].site) {
      assert ([key] + finds[i].site)[1..] == finds[i].site && ([key] + finds[j].site)[1..] == finds[j].site;
    }
  }

  lemma OrderedConcat<T>(a: seq<Find<T>>, b: seq<Find<T>>)
    requires Ordered(a) && Ordered(b) && forall x, y :: x in a && y in b ==> SiteLess(x.site, y.site)
    ensures Ordered(a + b)
  {
    forall i, j | 0 <= i < j < |a + b| ensures SiteLess((a + b)[i].site, (a + b)[j].site) {
      if i < |a| <= j { assert a[i] in a && b[j - |a|] in b; }
    }
  }

  lemma {:induction false} AboveFirst(fields: Fields, key: Str)
    requires Sorted(fields) && fields.Cons? && Lookup(fields.tail, key).Some?
    ensures Less(fields.head.key, key)
  {
    if fields.tail.head.key != key {
      AboveFirst(fields.tail, key);
      LessIsTransitive(fields.head.key, fields.tail.head.key, key);
    }
  }

  lemma {:induction false} OrderedGather<T>(entries: Fields, inside: (Str, Json) -> seq<Find<T>>)
    requires Sorted(entries)
    requires forall key :: Lookup(entries, key).Some? ==> Ordered(inside(key, Lookup(entries, key).value))
    ensures Ordered(Gather(entries, inside))
  {
    if entries.Cons? {
      SortedTail(entries);
      var first := inside(entries.head.key, entries.head.value);
      assert Lookup(entries, entries.head.key).Some?;
      forall key | Lookup(entries.tail, key).Some? ensures Ordered(inside(key, Lookup(entries.tail, key).value)) {
        assert Lookup(entries, key) == Lookup(entries.tail, key);
      }
      OrderedUnder(entries.head.key, first);
      OrderedGather(entries.tail, inside);
      forall x, y | x in Under(entries.head.key, first) && y in Gather(entries.tail, inside)
        ensures SiteLess(x.site, y.site)
      {
        InUnder(entries.head.key, first, x);
        InGather(entries.tail, inside, y);
        AboveFirst(entries, y.site[0]);
      }
      OrderedConcat(Under(entries.head.key, first), Gather(entries.tail, inside));
    }
  }

  lemma {:induction false} RecordsConcat<T>(a: seq<Find<T>>, b: seq<Find<T>>)
    ensures Records(a + b) == Records(a) + Records(b)
  {
    if a == [] {
      assert a + b == b;
    } else {
      assert (a + b)[1..] == a[1..] + b;
      RecordsConcat(a[1..], b);
    }
  }

  lemma {:induction false} RecordsUnder<T>(key: Str, finds: seq<Find<T>>)
    ensures Records(Under(key, finds)) == Records(finds)
  {
    if finds != [] {
      assert Under(key, finds)[1..] == Under(key, finds[1..]);
      RecordsUnder(key, finds[1..]);
    }
  }

  lemma RecordsGather<T>(entries: Fields, inside: (Str, Json) -> seq<Find<T>>)
    requires entries.Cons?
    ensures Records(Gather(entries, inside))
         == Records(inside(entries.head.key, entries.head.value)) + Records(Gather(entries.tail, inside))
  {
    var first := inside(entries.head.key, entries.head.value);
    RecordsConcat(Under(entries.head.key, first), Gather(entries.tail, inside));
    RecordsUnder(entries.head.key, first);
  }

  lemma {:induction false} RecordAt<T>(finds: seq<Find<T>>, k: nat)
    requires k < |finds|
    ensures |Records(finds)| == |finds| && Records(finds)[k] == finds[k].record
  {
    if |finds| > 1 { RecordAt(finds[1..], if k > 0 then k - 1 else 0); }
  }

  // The entries of an object, in the order of their keys.
  function Entries(value: Option<Json>): Fields {
    if value.Some? && value.value.Object? then Sort(value.value.fields) else Nil
  }

  lemma EntriesAre(value: Option<Json>)
    requires ProperOption(value)
    ensures Sorted(Entries(value)) && Entries(value) == Sort(FieldsOf(value))
    ensures forall key :: Lookup(Entries(value), key) == if value.Some? then At(value.value, [key]) else None
  {
    if value.Some? && value.value.Object? {
      ProperIsDistinct(value.value.fields);
      SortSorted(value.value.fields);
      forall key ensures Lookup(Entries(value), key) == At(value.value, [key]) { LookupSort(value.value.fields, key); }
    }
  }

  lemma {:induction false} AtFurther(value: Json, site: Site, more: Site)
    ensures At(value, site + more) == if At(value, site).Some? then At(At(value, site).value, more) else None
    decreases |site|
  {
    if site == [] {
      assert site + more == more;
    } else {
      assert (site + more)[1..] == site[1..] + more;
      if value.Object? && Lookup(value.fields, site[0]).Some? {
        AtFurther(Lookup(value.fields, site[0]).value, site[1..], more);
      }
    }
  }

  lemma {:induction false} ProperAt(value: Json, site: Site)
    requires Proper(value)
    ensures ProperOption(At(value, site))
    decreases |site|
  {
    if site != [] && value.Object? && Lookup(value.fields, site[0]).Some? {
      ProperLookup(value.fields, site[0]);
      ProperAt(Lookup(value.fields, site[0]).value, site[1..]);
    }
  }

  // ---------------------------------------------------------------- operations

  predicate IsHttpMethod(verb: Str) {
    || verb == Ascii("get") || verb == Ascii("post") || verb == Ascii("put") || verb == Ascii("patch")
    || verb == Ascii("delete") || verb == Ascii("head") || verb == Ascii("options") || verb == Ascii("trace")
  }

  lemma MethodsAre(verb: Str)
    ensures verb in METHODS <==> IsHttpMethod(verb)
  {
  }

  function VisitAt(path: Str, raw: Str, value: Json): seq<Find<Visit>> {
    if Lower(raw) in METHODS && value.Object? then [Find([], Visit(path, Lower(raw), value.fields))] else []
  }

  function VisitsAt(path: Str, item: Json): seq<Find<Visit>> {
    if StartsWith(path, [SLASH]) then Gather(Entries(Some(item)), (raw, value) => VisitAt(path, raw, value)) else []
  }

  function VisitFinds(root: Fields): seq<Find<Visit>> {
    Gather(Entries(Lookup(root, PATHS)), (path, item) => VisitsAt(path, item))
  }

  function InSequence(visits: List<Visit>): seq<Visit> {
    if visits.Nil? then [] else [visits.head] + InSequence(visits.tail)
  }

  lemma VisitRecord(path: Str, raw: Str, value: Json)
    ensures Records(VisitAt(path, raw, value))
         == if Lower(raw) in METHODS && value.Object? then [Visit(path, Lower(raw), value.fields)] else []
  {
    var here := VisitAt(path, raw, value);
    if here != [] { assert here[1..] == []; }
  }

  lemma {:induction false} MethodsInSequence(path: Str, entries: Fields, later: List<Visit>, inside: (Str, Json) -> seq<Find<Visit>>)
    requires forall raw, value :: inside(raw, value) == VisitAt(path, raw, value)
    ensures InSequence(VisitMethods(path, entries, later)) == Records(Gather(entries, inside)) + InSequence(later)
  {
    if entries.Nil? {
      assert [] + InSequence(later) == InSequence(later);
    } else {
      MethodsInSequence(path, entries.tail, later, inside);
      RecordsGather(entries, inside);
      VisitRecord(path, entries.head.key, entries.head.value);
      Associates(Records(VisitAt(path, entries.head.key, entries.head.value)), Records(Gather(entries.tail, inside)),
                 InSequence(later));
    }
  }

  lemma {:induction false} PathsInSequence(entries: Fields, inside: (Str, Json) -> seq<Find<Visit>>)
    requires ProperFields(entries) && forall path, item :: inside(path, item) == VisitsAt(path, item)
    ensures InSequence(VisitPaths(entries)) == Records(Gather(entries, inside))
  {
    if entries.Cons? {
      var path, item := entries.head.key, entries.head.value;
      PathsInSequence(entries.tail, inside);
      RecordsGather(entries, inside);
      if StartsWith(path, [SLASH]) && item.Object? {
        MethodsInSequence(path, Sort(item.fields), VisitPaths(entries.tail), (raw, value) => VisitAt(path, raw, value));
      } else {
        assert VisitsAt(path, item) == [];
        assert [] + Records(Gather(entries.tail, inside)) == Records(Gather(entries.tail, inside));
      }
    }
  }

  lemma EntriesProper(value: Option<Json>)
    requires ProperOption(value)
    ensures ProperFields(Entries(value))
  {
    if value.Some? && value.value.Object? { SortProper(value.value.fields); }
  }

  lemma VisitsInSequence(root: Fields)
    requires ProperFields(root)
    ensures InSequence(Visits(root)) == Records(VisitFinds(root))
  {
    LookupProper(root, PATHS);
    EntriesAre(Lookup(root, PATHS));
    EntriesProper(Lookup(root, PATHS));
    PathsInSequence(Entries(Lookup(root, PATHS)), (path, item) => VisitsAt(path, item));
  }

  // An operation object under an HTTP method, in whatever case, of a path that starts with a slash.
  predicate IsOperationSite(paths: Json, site: Site) {
    && |site| == 2 && site[0] != [] && site[0][0] == 47 && IsHttpMethod(Lower(site[1]))
    && At(paths, site).Some? && At(paths, site).value.Object?
  }

  lemma InVisitsAt(path: Str, item: Json, f: Find<Visit>)
    requires Proper(item)
    ensures f in VisitsAt(path, item)
       <==> && |f.site| == 1 && StartsWith(path, [SLASH]) && Lower(f.site[0]) in METHODS
            && At(item, f.site).Some? && At(item, f.site).value.Object?
            && f.record == Visit(path, Lower(f.site[0]), At(item, f.site).value.fields)
  {
    EntriesAre(Some(item));
    InGather(Entries(Some(item)), (raw, value) => VisitAt(path, raw, value), f);
    if f.site != [] {
      assert |f.site| == 1 ==> f.site == [f.site[0]];
      assert f.site[1..] == [] <==> |f.site| == 1;
    }
  }

  lemma StartsWithSlash(path: Str)
    ensures StartsWith(path, [SLASH]) <==> path != [] && path[0] == 47
  {
    if path != [] { assert path[..1] == [path[0]]; }
  }

  lemma InVisitFinds(root: Fields, paths: Json, f: Find<Visit>)
    requires ProperFields(root) && Lookup(root, PATHS) == Some(paths)
    ensures f in VisitFinds(root)
       <==> IsOperationSite(paths, f.site) && f.record == Visit(f.site[0], Lower(f.site[1]), At(paths, f.site).value.fields)
  {
    LookupProper(root, PATHS);
    EntriesAre(Lookup(root, PATHS));
    InGather(Entries(Lookup(root, PATHS)), (path, item) => VisitsAt(path, item), f);
    if f.site != [] && At(paths, [f.site[0]]).Some? {
      ProperAt(paths, [f.site[0]]);
      InVisitsAt(f.site[0], At(paths, [f.site[0]]).value, Find(f.site[1..], f.record));
      AtFurther(paths, [f.site[0]], f.site[1..]);
      assert [f.site[0]] + f.site[1..] == f.site;
      StartsWithSlash(f.site[0]);
    }
    if |f.site| > 1 { MethodsAre(Lower(f.site[1])); }
    if IsOperationSite(paths, f.site) {
      assert f.site == [f.site[0]] + [f.site[1]];
      AtFurther(paths, [f.site[0]], [f.site[1]]);
    }
  }

  lemma VisitsAtOrdered(path: Str, item: Json)
    requires Proper(item)
    ensures Ordered(VisitsAt(path, item))
  {
    EntriesAre(Some(item));
    OrderedGather(Entries(Some(item)), (raw, value) => VisitAt(path, raw, value));
  }

  lemma VisitFindsOrdered(root: Fields)
    requires ProperFields(root)
    ensures Ordered(VisitFinds(root))
  {
    var entries := Entries(Lookup(root, PATHS));
    LookupProper(root, PATHS);
    EntriesAre(Lookup(root, PATHS));
    EntriesProper(Lookup(root, PATHS));
    forall key | Lookup(entries, key).Some? ensures Ordered(VisitsAt(key, Lookup(entries, key).value)) {
      ProperLookup(entries, key);
      VisitsAtOrdered(key, Lookup(entries, key).value);
    }
    OrderedGather(entries, (path, item) => VisitsAt(path, item));
  }

  // ---------------------------------------------------------------- what an operation record says

  // A text without the blanks around it, or nothing.
  function TextAt(value: Json, key: Str): Str {
    if At(value, [key]).Some? && At(value, [key]).value.String? then Trim(At(value, [key]).value.s) else []
  }

  // The item is in the array that the value has here.
  predicate Listed(items: List<Json>, item: Json) {
    items.Cons? && (items.head == item || Listed(items.tail, item))
  }

  ghost predicate IsTag(value: Json, tag: Str) {
    && At(value, [Ascii("tags")]).Some? && At(value, [Ascii("tags")]).value.Array? && tag != []
    && exists text :: Listed(At(value, [Ascii("tags")]).value.items, String(text)) && Trim(text) == tag
  }

  // Some object inside the value has this reference.
  predicate Refers(value: Json, ref: Str)
    decreases value, 1
  {
    match value
    case Array(items) => SomeItemRefers(items, ref)
    case Object(fields) => (ref != [] && TextAt(value, Ascii("$ref")) == ref) || SomeFieldRefers(fields, ref)
    case _ => false
  }

  predicate SomeItemRefers(items: List<Json>, ref: Str)
    decreases items, 0
  {
    items.Cons? && (Refers(items.head, ref) || SomeItemRefers(items.tail, ref))
  }

  predicate SomeFieldRefers(fields: Fields, ref: Str)
    decreases fields, 0
  {
    fields.Cons? && (Refers(fields.head.value, ref) || SomeFieldRefers(fields.tail, ref))
  }

  predicate RefersAt(value: Json, key: Str, ref: Str) {
    At(value, [key]).Some? && Refers(At(value, [key]).value, ref)
  }

  // A list that is in strictly rising order and has just these members.
  ghost predicate IsRisingSet(l: List<Str>, members: iset<Str>) {
    Rising(l) && forall x :: x in Members(l) <==> x in members
  }

  // The requirements of the operation, or else those of the document.
  function SecurityAt(document: Json, value: Json): List<Json> {
    var own, general := At(value, [Ascii("security")]), At(document, [Ascii("security")]);
    if own.Some? && own.value.Array? then own.value.items
    else if general.Some? && general.value.Array? then general.value.items
    else Nil
  }

  /** What the record says of an operation, apart from its id and its place in the list. */
  ghost predicate Describes(operation: Operation, document: Json, contract: Str, path: Str, raw: Str, value: Json) {
    && operation.path == path && operation.verb == Upper(Lower(raw)) && operation.key == Upper(Lower(raw)) + [32] + path
    && operation.logicalId == (contract, operation.key)
    && IsRisingSet(operation.tags, iset tag | IsTag(value, tag))
    && operation.summary == TextAt(value, Ascii("summary")) && operation.description == TextAt(value, Ascii("description"))
    && operation.security == SecurityAt(document, value)
    && IsRisingSet(operation.requestRefs,
                   iset ref | RefersAt(value, Ascii("parameters"), ref) || RefersAt(value, Ascii("requestBody"), ref))
    && IsRisingSet(operation.responseRefs, iset ref | RefersAt(value, Ascii("responses"), ref))
    && operation.contentHash == CanonicalText(value)
  }

  lemma {:induction false} RefersIff(value: Json, ref: Str)
    ensures Refers(value, ref) <==> ref in Refs(value)
    decreases value, 1
  {
    match value
    case Array(items) => ItemRefersIff(items, ref);
    case Object(fields) => FieldRefersIff(fields, ref);
    case _ =>
  }

  lemma {:induction false} ItemRefersIff(items: List<Json>, ref: Str)
    ensures SomeItemRefers(items, ref) <==> ref in ItemRefs(items)
    decreases items, 0
  {
    if items.Cons? {
      RefersIff(items.head, ref);
      ItemRefersIff(items.tail, ref);
    }
  }

  lemma {:induction false} FieldRefersIff(fields: Fields, ref: Str)
    ensures SomeFieldRefers(fields, ref) <==> ref in FieldRefs(fields)
    decreases fields, 0
  {
    if fields.Cons? {
      RefersIff(fields.head.value, ref);
      FieldRefersIff(fields.tail, ref);
    }
  }

  lemma {:induction false} AddStringsAre(items: List<Json>, before: List<Str>, x: Str)
    requires Rising(before)
    ensures Rising(AddStrings(items, before))
    ensures x in Members(AddStrings(items, before))
       <==> x in Members(before) || (x != [] && exists text :: Listed(items, String(text)) && Trim(text) == x)
    decreases items
  {
    if items.Cons? {
      var item := TextValue(Some(items.head));
      if item != [] {
        InsertTextMembers(item, before);
        InsertTextRising(item, before);
      }
      AddStringsAre(items.tail, if item != [] then InsertText(item, before) else before, x);
      ListedCons(items, x);
    }
  }

  lemma ListedCons(items: List<Json>, x: Str)
    requires items.Cons?
    ensures (exists text :: Listed(items, String(text)) && Trim(text) == x)
       <==> (items.head.String? && Trim(items.head.s) == x) || exists text :: Listed(items.tail, String(text)) && Trim(text) == x
  {
    if items.head.String? && Trim(items.head.s) == x { assert Listed(items, String(items.head.s)); }
    if text :| Listed(items.tail, String(text)) && Trim(text) == x { assert Listed(items, String(text)); }
  }

  lemma TagsAre(value: Json)
    requires value.Object?
    ensures IsRisingSet(StringArray(Lookup(value.fields, TAGS)), iset tag | IsTag(value, tag))
  {
    var tags := Lookup(value.fields, TAGS);
    assert At(value, [Ascii("tags")]) == tags;
    forall x ensures x in Members(StringArray(tags)) <==> IsTag(value, x) {
      if tags.Some? && tags.value.Array? { AddStringsAre(tags.value.items, Nil, x); }
    }
    if tags.Some? && tags.value.Array? { AddStringsAre(tags.value.items, Nil, []); }
  }

  lemma RefsAre(value: Option<Json>, before: List<Str>, ref: Str)
    requires Rising(before)
    ensures Rising(VisitOptional(value, before))
    ensures ref in Members(VisitOptional(value, before))
       <==> ref in Members(before) || (value.Some? && Refers(value.value, ref))
  {
    if value.Some? {
      VisitCollects(value.value, before);
      RefersIff(value.value, ref);
    }
  }

  lemma RequestRefsAre(value: Json)
    requires value.Object?
    ensures IsRisingSet(VisitOptional(Lookup(value.fields, REQUEST_BODY), VisitOptional(Lookup(value.fields, PARAMETERS), Nil)),
                        iset ref | RefersAt(value, Ascii("parameters"), ref) || RefersAt(value, Ascii("requestBody"), ref))
  {
    var parameters, body := Lookup(value.fields, PARAMETERS), Lookup(value.fields, REQUEST_BODY);
    assert At(value, [Ascii("parameters")]) == parameters && At(value, [Ascii("requestBody")]) == body;
    RefsAre(parameters, Nil, []);
    RefsAre(body, VisitOptional(parameters, Nil), []);
    forall ref
      ensures ref in Members(VisitOptional(body, VisitOptional(parameters, Nil)))
         <==> RefersAt(value, Ascii("parameters"), ref) || RefersAt(value, Ascii("requestBody"), ref)
    {
      RefsAre(parameters, Nil, ref);
      RefsAre(body, VisitOptional(parameters, Nil), ref);
    }
  }

  lemma ResponseRefsAre(value: Json)
    requires value.Object?
    ensures IsRisingSet(VisitOptional(Lookup(value.fields, RESPONSES), Nil), iset ref | RefersAt(value, Ascii("responses"), ref))
  {
    var responses := Lookup(value.fields, RESPONSES);
    assert At(value, [Ascii("responses")]) == responses;
    RefsAre(responses, Nil, []);
    forall ref ensures ref in Members(VisitOptional(responses, Nil)) <==> RefersAt(value, Ascii("responses"), ref) {
      RefsAre(responses, Nil, ref);
    }
  }

  lemma SecurityIs(root: Fields, value: Json)
    requires value.Object?
    ensures SecurityOf(root, value.fields) == SecurityAt(Object(root), value)
  {
    assert At(value, [Ascii("security")]) == Lookup(value.fields, SECURITY);
    assert At(Object(root), [Ascii("security")]) == Lookup(root, SECURITY);
  }

  lemma TextsAre(value: Json, key: Str)
    requires value.Object?
    ensures TextValue(Lookup(value.fields, key)) == TextAt(value, key)
  {
    assert At(value, [key]) == Lookup(value.fields, key);
  }

  lemma MadeOperationDescribes(root: Fields, contract: Str, path: Str, raw: Str, value: Json, id: Str, ordinal: nat)
    requires value.Object?
    ensures Describes(MakeOperation(root, contract, Visit(path, Lower(raw), value.fields), id, ordinal),
                      Object(root), contract, path, raw, value)
  {
    TagsAre(value);
    TextsAre(value, SUMMARY);
    TextsAre(value, DESCRIPTION);
    SecurityIs(root, value);
    RequestRefsAre(value);
    ResponseRefsAre(value);
  }

  // ---------------------------------------------------------------- the operations of a candidate

  function SitesOf<T>(finds: seq<Find<T>>): seq<Site> {
    seq(|finds|, i requires 0 <= i < |finds| => finds[i].site)
  }

  predicate InOrder(sites: seq<Site>) {
    forall i, j :: 0 <= i < j < |sites| ==> SiteLess(sites[i], sites[j])
  }

  lemma {:induction false} NthInSequence(visits: List<Visit>, k: nat)
    ensures Nth(visits, k) == if k < |InSequence(visits)| then Some(InSequence(visits)[k]) else None
  {
    if visits.Cons? && k > 0 { NthInSequence(visits.tail, k - 1); }
  }

  lemma {:induction false} DraftsInSequence(visits: List<Visit>, seen: set<Str>)
    ensures |Drafts(visits, seen)| == |InSequence(visits)|
  {
    if visits.Cons? { DraftsInSequence(visits.tail, SeenAfter(visits.head, seen)); }
  }

  // The id that the operation here has in the document.
  function IdAt(paths: Json, site: Site): Str {
    if At(paths, site).Some? then TextAt(At(paths, site).value, Ascii("operationId")) else []
  }

  predicate IdBefore(paths: Json, sites: seq<Site>, k: nat)
    requires k < |sites|
  {
    exists j :: 0 <= j < k && IdAt(paths, sites[j]) == IdAt(paths, sites[k])
  }

  // Record k is that of the operation here.
  ghost predicate RecordsOperation(operation: Operation, document: Json, paths: Json, contract: Str, sites: seq<Site>, k: nat)
    requires k < |sites|
  {
    && IsOperationSite(paths, sites[k])
    && Describes(operation, document, contract, sites[k][0], sites[k][1], At(paths, sites[k]).value)
    && operation.ordinal == k
    && operation.operationId == if IdBefore(paths, sites, k) then [] else IdAt(paths, sites[k])
  }

  // Visit k is the one found here.
  lemma VisitIsFound(root: Fields, paths: Json, k: nat)
    requires ProperFields(root) && Lookup(root, PATHS) == Some(paths) && k < |VisitFinds(root)|
    ensures var site := VisitFinds(root)[k].site;
            && IsOperationSite(paths, site)
            && Nth(Visits(root), k) == Some(Visit(site[0], Lower(site[1]), At(paths, site).value.fields))
            && RawId(Nth(Visits(root), k).value) == IdAt(paths, site)
  {
    var f := VisitFinds(root)[k];
    VisitsInSequence(root);
    RecordAt(VisitFinds(root), k);
    NthInSequence(Visits(root), k);
    InVisitFinds(root, paths, f);
    TextsAre(At(paths, f.site).value, OPERATION_ID);
  }

  lemma UsedBeforeIff(root: Fields, paths: Json, k: nat)
    requires ProperFields(root) && Lookup(root, PATHS) == Some(paths) && k < |VisitFinds(root)|
    ensures UsedBefore(Visits(root), k, IdAt(paths, VisitFinds(root)[k].site))
       <==> IdBefore(paths, SitesOf(VisitFinds(root)), k)
  {
    var finds, sites, id := VisitFinds(root), SitesOf(VisitFinds(root)), IdAt(paths, VisitFinds(root)[k].site);
    forall j | 0 <= j < k ensures HasId(Visits(root), j, id) <==> IdAt(paths, sites[j]) == id {
      VisitIsFound(root, paths, j);
    }
  }

  lemma OperationIsRecorded(root: Fields, paths: Json, contract: Str, k: nat)
    requires ProperFields(root) && Lookup(root, PATHS) == Some(paths) && k < |VisitFinds(root)|
    ensures var operations := OperationsOf(root, contract, Visits(root));
            k < |operations| && RecordsOperation(operations[k], Object(root), paths, contract, SitesOf(VisitFinds(root)), k)
  {
    var site := VisitFinds(root)[k].site;
    VisitIsFound(root, paths, k);
    UsedBeforeIff(root, paths, k);
    OperationIdsKeptOnce(root, contract, k);
    DraftAt(Visits(root), {}, k);
    var draft := Drafts(Visits(root), {})[k];
    MadeOperationDescribes(root, contract, site[0], site[1], At(paths, site).value, draft.id, k);
  }

  /** The operations of a candidate are those of the document, each once and in the order of path and method:
      an object under an HTTP method of a path that starts with a slash.  Record k says what stands there, and
      keeps the operationId exactly if no earlier one has it. */
  lemma OperationsAreLocated(parsed: Json) returns (sites: seq<Site>)
    requires Proper(parsed) && CandidateOf(parsed).Ok?
    ensures At(parsed, [Ascii("paths")]).Some?
    ensures var c, paths := CandidateOf(parsed).value, At(parsed, [Ascii("paths")]).value;
            && |sites| == |c.operations| && InOrder(sites) && (forall site :: site in sites <==> IsOperationSite(paths, site))
            && forall k :: 0 <= k < |sites| ==>
                 RecordsOperation(c.operations[k], parsed, paths, CanonicalText(Normal(parsed)), sites, k)
    ensures sites == SitesOf(VisitFinds(parsed.fields))
  {
    var root, contract := parsed.fields, CanonicalText(Normal(parsed));
    var paths := Lookup(root, PATHS).value;
    var finds := VisitFinds(root);
    sites := SitesOf(finds);
    assert At(parsed, [Ascii("paths")]) == Lookup(root, PATHS);
    VisitFindsOrdered(root);
    OperationCount(root, contract);
    forall site ensures site in sites <==> IsOperationSite(paths, site) { InSites(root, paths, site); }
    forall k | 0 <= k < |sites|
      ensures RecordsOperation(CandidateOf(parsed).value.operations[k], parsed, paths, contract, sites, k)
    {
      OperationIsRecorded(root, paths, contract, k);
    }
  }

  lemma OperationCount(root: Fields, contract: Str)
    requires ProperFields(root)
    ensures |OperationsOf(root, contract, Visits(root))| == |VisitFinds(root)|
  {
    VisitsInSequence(root);
    DraftsInSequence(Visits(root), {});
    if VisitFinds(root) != [] { RecordAt(VisitFinds(root), 0); }
  }

  lemma InSites(root: Fields, paths: Json, site: Site)
    requires ProperFields(root) && Lookup(root, PATHS) == Some(paths)
    ensures site in SitesOf(VisitFinds(root)) <==> IsOperationSite(paths, site)
  {
    var finds := VisitFinds(root);
    if site in SitesOf(finds) {
      var k :| 0 <= k < |finds| && SitesOf(finds)[k] == site;
      InVisitFinds(root, paths, finds[k]);
    }
    if IsOperationSite(paths, site) {
      var f := Find(site, Visit(site[0], Lower(site[1]), At(paths, site).value.fields));
      InVisitFinds(root, paths, f);
      var k :| 0 <= k < |finds| && finds[k] == f;
      assert SitesOf(finds)[k] == site;
    }
  }
}
