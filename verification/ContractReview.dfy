/** What an attempt of finishContractSetup may write, in terms of the records it was given and has read. */
module ContractReview {
  import opened Prelude
  import opened ContractSetup

  // ---------------------------------------------------------------- the same review

  // What a review shows of a document, apart from its state.
  function Shown(document: Document): (string, string, seq<string>) {
    (document.id, document.hash, document.indicators)
  }

  function AllShown(documents: seq<Document>): seq<(string, string, seq<string>)> {
    seq(|documents|, i requires 0 <= i < |documents| => Shown(documents[i]))
  }

  predicate Clean(documents: seq<Document>) {
    forall i :: 0 <= i < |documents| ==>
      (documents[i].state == Validated || documents[i].state == Published) && documents[i].indicators == []
  }

  /** The review shows the source, run and counts that the input shows, without failures, and the same
      documents in whatever order, all validated or published and without indicators. */
  predicate SameReview(input: Input, review: Review) {
    && review.source.deployment == input.review.source.deployment && review.source.id == input.review.source.id
    && review.source.visibility == input.review.source.visibility
    && !review.source.quarantined && !input.review.source.quarantined
    && review.run == input.review.run
    && review.failed == 0 && input.review.failed == 0 && review.skipped == 0 && input.review.skipped == 0
    && review.documents != [] && Clean(review.documents) && Clean(input.review.documents)
    && multiset(AllShown(review.documents)) == multiset(AllShown(input.review.documents))
  }

  function Images<A, B>(f: A -> B, s: seq<A>): seq<B> {
    if s == [] then [] else [f(s[0])] + Images(f, s[1..])
  }

  lemma {:induction false} ImagesConcat<A, B>(f: A -> B, a: seq<A>, b: seq<A>)
    ensures Images(f, a + b) == Images(f, a) + Images(f, b)
  {
    if a == [] {
      assert a + b == b;
    } else {
      assert (a + b)[1..] == a[1..] + b;
      ImagesConcat(f, a[1..], b);
    }
  }

  lemma ImagesWithout<A, B>(f: A -> B, s: seq<A>, k: nat)
    requires k < |s|
    ensures multiset(Images(f, s)) == multiset{f(s[k])} + multiset(Images(f, s[..k] + s[k + 1..]))
  {
    var before, after := s[..k], s[k + 1..];
    assert s == before + ([s[k]] + after);
    ImagesConcat(f, before, [s[k]] + after);
    ImagesConcat(f, [s[k]], after);
    ImagesConcat(f, before, after);
    assert Images(f, [s[k]]) == [f(s[k])];
  }

  lemma WithoutOne<A>(s: seq<A>, k: nat)
    requires k < |s|
    ensures multiset(s[..k] + s[k + 1..]) == multiset(s) - multiset{s[k]}
  {
    assert s == s[..k] + [s[k]] + s[k + 1..];
  }

  // Equal multisets have equal images.
  lemma {:induction false} SameImages<A, B>(f: A -> B, a: seq<A>, b: seq<A>)
    requires multiset(a) == multiset(b)
    ensures multiset(Images(f, a)) == multiset(Images(f, b))
  {
    if a == [] {
      assert |multiset(b)| == |b|;
    } else {
      assert a[0] in multiset(b);
      var k :| 0 <= k < |b| && b[k] == a[0];
      var rest := b[..k] + b[k + 1..];
      WithoutOne(a, 0);
      WithoutOne(b, k);
      assert a[..0] + a[1..] == a[1..];
      SameImages(f, a[1..], rest);
      ImagesWithout(f, b, k);
    }
  }

  function Dressed(shown: (string, string, seq<string>)): Document {
    Document(shown.0, shown.1, Validated, shown.2)
  }

  lemma {:induction false} ShownOfUnpublished(documents: seq<Document>)
    ensures Images(Shown, Unpublished(documents)) == AllShown(documents)
    ensures Clean(documents) ==> Images(Dressed, AllShown(documents)) == Unpublished(documents)
  {
    if documents != [] {
      ShownOfUnpublished(documents[1..]);
      assert Unpublished(documents)[1..] == Unpublished(documents[1..]);
      assert AllShown(documents)[1..] == AllShown(documents[1..]);
    }
  }

  lemma CleanTogether(a: seq<Document>, b: seq<Document>)
    requires multiset(Unpublished(a)) == multiset(Unpublished(b)) && Clean(a)
    ensures Clean(b)
  {
    forall i | 0 <= i < |b| ensures (b[i].state == Validated || b[i].state == Published) && b[i].indicators == [] {
      assert Unpublished(b)[i] in multiset(Unpublished(a));
      var k :| 0 <= k < |a| && Unpublished(a)[k] == Unpublished(b)[i];
      assert Clean(a) && a[k].indicators == [];
    }
  }

  lemma SameDocuments(a: seq<Document>, b: seq<Document>)
    ensures Clean(a) && Clean(b) && multiset(AllShown(a)) == multiset(AllShown(b))
       <==> Clean(a) && multiset(Unpublished(a)) == multiset(Unpublished(b))
  {
    ShownOfUnpublished(a);
    ShownOfUnpublished(b);
    if multiset(Unpublished(a)) == multiset(Unpublished(b)) {
      SameImages(Shown, Unpublished(a), Unpublished(b));
      if Clean(a) { CleanTogether(a, b); }
    }
    if Clean(a) && Clean(b) && multiset(AllShown(a)) == multiset(AllShown(b)) {
      SameImages(Dressed, AllShown(a), AllShown(b));
    }
  }

  /** The check of the fingerprint and of the review's own state passes for exactly the same review. */
  lemma CheckedIsSame(input: Input, review: Review)
    ensures StillReviewed(input, review) <==> SameReview(input, review)
  {
    SameDocuments(review.documents, input.review.documents);
    assert (forall i :: 0 <= i < |review.documents| ==> SafeDocument(review.documents[i])) <==> Clean(review.documents);
  }

  // ---------------------------------------------------------------- what is written

  // The candidate is a valid one of this active contract, and of the run and source reviewed.
  predicate FitsContract(input: Input, contract: ContractRow) {
    && contract.id == input.candidate.contract && contract.deployment == input.candidate.deployment
    && contract.visibility == input.contract.visibility && contract.active && input.candidate.valid
    && input.candidate.run == input.review.run && input.candidate.deployment == input.review.source.deployment
    && input.candidate.visibility == input.review.source.visibility
    && (input.api.Some? ==>
          && input.api.value.deployment == contract.deployment
          && (input.api.value.visibility == Public ==> input.candidate.visibility == Public))
  }

  // The revision holds the candidate.
  predicate HoldsCandidate(input: Input, revision: Revision) {
    && revision.candidate == input.candidate.id && revision.hash == input.candidate.hash
    && revision.contract == input.candidate.contract && revision.deployment == input.candidate.deployment
    && revision.visibility == input.candidate.visibility
  }

  // Some call has returned a server with this contract, or this review.
  ghost predicate SawContract(channel: Channel, contract: ContractRow) {
    exists call: nat, s :: channel.faults(call) == Delivered && channel.others(call, s).contract == contract
  }

  ghost predicate SawReview(channel: Channel, review: Review) {
    exists call: nat, s :: channel.faults(call) == Delivered && channel.others(call, s).review == review
  }

  ghost predicate SawFittingContract(input: Input, channel: Channel) {
    exists contract :: SawContract(channel, contract) && FitsContract(input, contract)
  }

  ghost predicate SawSameReview(input: Input, channel: Channel) {
    exists contract, review ::
      && SawContract(channel, contract) && FitsContract(input, contract) && contract.revision == input.contract.revision
      && SawReview(channel, review) && SameReview(input, review)
  }

  predicate Names(documents: seq<string>, review: Review) {
    |documents| == |review.documents| && forall i :: 0 <= i < |documents| ==> documents[i] == review.documents[i].id
  }

  // The write was sent for records that were read as they had been reviewed, and says just what they say.
  ghost predicate Justified(input: Input, channel: Channel, w: Write) {
    match w
    case PublishSource(revision, run, documents) =>
      && SawSameReview(input, channel)
      && exists review ::
           && SawReview(channel, review) && SameReview(input, review) && !review.published
           && revision == review.source.revision && run == input.review.run && Names(documents, review)
    case PublishContract(candidate, revision) =>
      SawSameReview(input, channel) && candidate == input.candidate.id && revision == input.contract.revision
    case Attach(pinned, primary, visibility) =>
      && SawFittingContract(input, channel) && input.api.Some? && input.expected.None?
      && primary == input.primary && visibility == input.api.value.visibility
      && exists revision :: HoldsCandidate(input, revision) && revision.id == pinned
    case Change(binding, revision, pinned, primary, visibility) =>
      && SawFittingContract(input, channel) && input.api.Some? && input.expected.Some?
      && binding == input.expected.value.id && revision == input.expected.value.revision && primary == input.primary
      && visibility == (if input.api.value.visibility == Public then Public else input.expected.value.visibility)
      && exists published :: HoldsCandidate(input, published) && published.id == pinned
  }

  ghost predicate AllJustified(input: Input, channel: Channel, log: seq<Commit>, from: nat) {
    from <= |log| && forall i :: from <= i < |log| ==> Justified(input, channel, log[i].write)
  }

  lemma SendJustified(input: Input, channel: Channel, net: Net, w: Write, from: nat)
    requires AllJustified(input, channel, net.log, from) && Justified(input, channel, w)
    ensures AllJustified(input, channel, Send(channel, net, w).0.log, from)
  {
  }

  lemma GetSees(channel: Channel, net: Net)
    ensures Get(channel, net).0.log == net.log
    ensures Get(channel, net).1.Some? ==>
              SawContract(channel, Get(channel, net).1.value.contract) && SawReview(channel, Get(channel, net).1.value.review)
  {
    if channel.faults(net.calls) == Delivered {
      assert channel.others(net.calls, net.server).contract == Arrive(channel, net).server.contract;
    }
  }

  lemma SourceWriteIsJustified(input: Input, channel: Channel, review: Review)
    requires SawSameReview(input, channel) && SawReview(channel, review) && SameReview(input, review) && !review.published
    ensures Justified(input, channel, SourceWrite(review))
  {
    assert Names(SourceWrite(review).documents, review);
  }

  // Publishing the source, unless it is published, and then the contract.
  lemma SendsJustified(input: Input, contract: ContractRow, channel: Channel, net: Net, review: Review, from: nat)
    requires AllJustified(input, channel, net.log, from) && SawReview(channel, review) && SameReview(input, review)
    requires SawContract(channel, contract) && FitsContract(input, contract) && contract.revision == input.contract.revision
    ensures var sourced := if review.published then net else Send(channel, net, SourceWrite(review)).0;
            && AllJustified(input, channel, sourced.log, from)
            && AllJustified(input, channel,
                            Send(channel, sourced, PublishContract(input.candidate.id, contract.revision)).0.log, from)
  {
    assert SawSameReview(input, channel);
    if !review.published {
      SourceWriteIsJustified(input, channel, review);
      SendJustified(input, channel, net, SourceWrite(review), from);
    }
    var sourced := if review.published then net else Send(channel, net, SourceWrite(review)).0;
    SendJustified(input, channel, sourced, PublishContract(input.candidate.id, contract.revision), from);
  }

  lemma PublishJustified(input: Input, contract: ContractRow, channel: Channel, net: Net, from: nat)
    requires AllJustified(input, channel, net.log, from) && SawContract(channel, contract) && FitsContract(input, contract)
    ensures AllJustified(input, channel, Publish(input, contract, channel, net).0.log, from)
  {
    var (reviewed, seen) := Get(channel, net);
    GetSees(channel, net);
    if contract.revision == input.contract.revision && seen.Some? && StillReviewed(input, seen.value.review) {
      CheckedIsSame(input, seen.value.review);
      SendsJustified(input, contract, channel, reviewed, seen.value.review, from);
    }
  }

  lemma AttachJustified(
    input: Input, contract: ContractRow, published: Revision, channel: Channel, net: Net, from: nat)
    requires AllJustified(input, channel, net.log, from) && SawContract(channel, contract) && FitsContract(input, contract)
    requires input.api.Some? && HoldsCandidate(input, published)
    ensures AllJustified(input, channel, AttachPublished(input, input.api.value, contract, published, channel, net).0.log, from)
  {
    var api := input.api.value;
    var checked := CheckApi(input, channel, net).0;
    var (listed, seen) := Get(channel, checked);
    if seen.Some? {
      var existing := FindAttached(seen.value.bindings, contract.id);
      if AsExpected(input, existing) {
        SendJustified(input, channel, listed, BindingWrite(input, api, published, existing), from);
      }
    }
  }

  lemma OpenSees(input: Input, channel: Channel, net: Net)
    ensures Open(input, channel, net).0.log == net.log
    ensures Open(input, channel, net).1.Ok? ==>
              var contract := Open(input, channel, net).1.value.contract;
              SawContract(channel, contract) && FitsContract(input, contract)
  {
    GetSees(channel, net);
  }

  /** Whatever other writers do and whichever calls are lost: an attempt publishes the source only for a review
      it has read that shows the same source, run and clean documents as the input, under that review's revision
      and document ids; it publishes the contract only after such a review, the reviewed candidate at the reviewed
      revision; and it attaches only a revision that holds the candidate, replacing only the expected binding,
      with the visibility that API and binding call for. */
  lemma WritesAreJustified(input: Input, channel: Channel, net: Net)
    ensures AllJustified(input, channel, Finish(input, channel, net).0.log, |net.log|)
  {
    var (checked, same) := CheckApi(input, channel, net);
    var (ready, found) := Open(input, channel, checked);
    OpenSees(input, channel, checked);
    if same.Ok? && found.Ok? {
      var contract := found.value.contract;
      if found.value.published.None? { PublishJustified(input, contract, channel, ready, |net.log|); }
      var (after, published) :=
        if found.value.published.Some? then (ready, Ok(found.value.published.value))
        else Publish(input, contract, channel, ready);
      if published.Ok? && input.api.Some? && PublishedAsReviewed(input, contract, published.value) {
        AttachJustified(input, contract, published.value, channel, after, |net.log|);
      }
    }
  }

  // ---------------------------------------------------------------- when nothing is written

  // The server as it is when the call arrives that follows `calls` reads.
  function ServerAt(channel: Channel, net: Net, calls: nat): Server {
    channel.others(net.calls + calls, if calls == 0 then net.server else ServerAt(channel, net, calls - 1))
  }

  ghost predicate NoneLost(channel: Channel, net: Net, calls: nat) {
    forall k :: net.calls <= k < net.calls + calls ==> channel.faults(k) == Delivered
  }

  // The number of the call that reads the contract; the revisions and the review are read by the two after it.
  function ContractCall(input: Input): nat {
    if input.api.Some? then 1 else 0
  }

  // None of the contract's revisions holds the candidate.
  predicate NotPublished(input: Input, contract: ContractRow, s: Server) {
    forall i :: 0 <= i < |s.revisions| ==>
      !(s.revisions[i].candidate == input.candidate.id && s.revisions[i].hash == input.candidate.hash
        && s.revisions[i].contract == contract.id)
  }

  // The first reads find the API, the contract and the review as they were reviewed.
  predicate FoundAsReviewed(input: Input, channel: Channel, net: Net) {
    var call := ContractCall(input);
    && (input.api.Some? ==> ServerAt(channel, net, 0).api == input.api.value)
    && FitsContract(input, ServerAt(channel, net, call).contract)
    && ServerAt(channel, net, call).contract.revision == input.contract.revision
    && SameReview(input, ServerAt(channel, net, call + 2).review)
  }

  lemma ReadsInOrder(input: Input, channel: Channel, net: Net)
    requires NoneLost(channel, net, ContractCall(input) + 3)
    ensures var call := ContractCall(input);
            && CheckApi(input, channel, net).0.calls == net.calls + call
            && CheckApi(input, channel, net).0.log == net.log
            && (CheckApi(input, channel, net).1 ==
                  if input.api.None? || ServerAt(channel, net, 0).api == input.api.value then Ok(()) else Err(Changed))
            && (call == 1 ==> CheckApi(input, channel, net).0.server == ServerAt(channel, net, 0))
            && (call == 0 ==> CheckApi(input, channel, net).0.server == net.server)
  {
  }

  lemma OpenReads(input: Input, channel: Channel, net: Net, checked: Net)
    requires NoneLost(channel, net, ContractCall(input) + 3) && checked == CheckApi(input, channel, net).0
    requires NotPublished(input, ServerAt(channel, net, ContractCall(input)).contract, ServerAt(channel, net, ContractCall(input) + 1))
    ensures var call, contract := ContractCall(input), ServerAt(channel, net, ContractCall(input)).contract;
            var (ready, found) := Open(input, channel, checked);
            && ready.log == net.log
            && (if FitsContract(input, contract)
                then && found == Ok(Opened(contract, None)) && ready.calls == net.calls + call + 2
                     && channel.faults(ready.calls) == Delivered
                     && channel.others(ready.calls, ready.server) == ServerAt(channel, net, call + 2)
                else found == Err(Changed) && ready.calls == net.calls + call + 1)
  {
    ReadsInOrder(input, channel, net);
    var call := ContractCall(input);
    var contract, s := ServerAt(channel, net, call).contract, ServerAt(channel, net, call + 1);
  }

  lemma PublishReads(input: Input, contract: ContractRow, channel: Channel, net: Net)
    requires channel.faults(net.calls) == Delivered
    ensures var review := channel.others(net.calls, net.server).review;
            var (after, r) := Publish(input, contract, channel, net);
            if contract.revision == input.contract.revision && SameReview(input, review)
            then after.calls > net.calls + 1
            else after.log == net.log && r == Err(Changed) && after.calls <= net.calls + 1
  {
    CheckedIsSame(input, channel.others(net.calls, net.server).review);
  }

  lemma ConcludeCalls(input: Input, contract: ContractRow, published: Revision, channel: Channel, net: Net)
    ensures Conclude(input, contract, published, channel, net).0.calls >= net.calls
  {
  }

  // What the attempt does after it has found API and contract as reviewed and the candidate unpublished.
  lemma UnpublishedReads(input: Input, channel: Channel, net: Net, checked: Net, ready: Net, contract: ContractRow)
    requires CheckApi(input, channel, net) == (checked, Ok(()))
    requires Open(input, channel, checked) == (ready, Ok(Opened(contract, None))) && channel.faults(ready.calls) == Delivered
    ensures var review := channel.others(ready.calls, ready.server).review;
            var (after, r) := Finish(input, channel, net);
            if contract.revision == input.contract.revision && SameReview(input, review)
            then after.calls > ready.calls + 1
            else after.log == ready.log && r == Err(Changed) && after.calls <= ready.calls + 1
  {
    PublishReads(input, contract, channel, ready);
    var (after, published) := Publish(input, contract, channel, ready);
    if published.Ok? { ConcludeCalls(input, contract, published.value, channel, after); }
  }

  /** An attempt whose first reads arrive and that finds the candidate unpublished goes on to write exactly when
      API, contract and review are as they were reviewed; otherwise it commits nothing, ends with the error that
      says so, and makes no further call. */
  lemma ChangedReviewWritesNothing(input: Input, channel: Channel, net: Net)
    requires NoneLost(channel, net, ContractCall(input) + 3)
    requires NotPublished(input, ServerAt(channel, net, ContractCall(input)).contract, ServerAt(channel, net, ContractCall(input) + 1))
    ensures var (after, r) := Finish(input, channel, net);
            if FoundAsReviewed(input, channel, net) then after.calls > net.calls + ContractCall(input) + 3
            else after.log == net.log && r == Err(Changed) && after.calls <= net.calls + ContractCall(input) + 3
  {
    ReadsInOrder(input, channel, net);
    var (checked, same) := CheckApi(input, channel, net);
    if same.Ok? {
      OpenReads(input, channel, net, checked);
      var (ready, found) := Open(input, channel, checked);
      if found.Ok? { UnpublishedReads(input, channel, net, checked, ready, found.value.contract); }
    }
  }

  // ---------------------------------------------------------------- what success means

  // The API's attached binding of the contract pins the revision, as the input asks.
  predicate AttachedTo(input: Input, api: Api, revision: Revision, binding: Binding) {
    && binding.attached && binding.contract == revision.contract && binding.deployment == api.deployment && binding.api == api.id
    && binding.pinned == Some(revision.id) && binding.primary == input.primary
    && binding.visibility == (if api.visibility == Public then Public
                              else if input.expected.Some? then input.expected.value.visibility
                              else api.visibility)
  }

  lemma AttachSucceeds(input: Input, contract: ContractRow, published: Revision, channel: Channel, net: Net)
    requires input.api.Some?
    ensures var (after, r) := AttachPublished(input, input.api.value, contract, published, channel, net);
            r.Ok? ==>
              && r.value == published
              && exists binding :: binding in after.server.bindings && AttachedTo(input, input.api.value, published, binding)
  {
    var (after, r) := AttachPublished(input, input.api.value, contract, published, channel, net);
    if r.Ok? {
      var found := FindAttached(after.server.bindings, contract.id);
      assert found.Some? && AttachedTo(input, input.api.value, published, found.value);
    }
  }

  /** Success is what was asked for: the revision returned holds the candidate, and with an API the server,
      as it was last read, has a binding that attaches it. */
  lemma SuccessIsWhatWasAsked(input: Input, channel: Channel, net: Net)
    ensures var (after, r) := Finish(input, channel, net);
            r.Ok? ==>
              && HoldsCandidate(input, r.value)
              && (input.api.Some? ==>
                    exists binding :: binding in after.server.bindings && AttachedTo(input, input.api.value, r.value, binding))
  {
    var (checked, same) := CheckApi(input, channel, net);
    var (ready, found) := Open(input, channel, checked);
    if same.Ok? && found.Ok? {
      var contract := found.value.contract;
      OpenSees(input, channel, checked);
      var (after, published) :=
        if found.value.published.Some? then (ready, Ok(found.value.published.value))
        else Publish(input, contract, channel, ready);
      if published.Ok? && input.api.Some? {
        AttachSucceeds(input, contract, published.value, channel, after);
      }
    }
  }

  // ---------------------------------------------------------------- when an attempt succeeds

  predicate DistinctIds(documents: seq<Document>) {
    forall i, j :: 0 <= i < j < |documents| ==> documents[i].id != documents[j].id
  }

  // The server is as it was reviewed, nothing is published, and run, candidate and documents may be.
  predicate Publishable(input: Input, s: Server) {
    && s.candidate == input.candidate && s.contract == input.contract && FitsContract(input, s.contract)
    && SameReview(input, s.review) && DistinctIds(s.review.documents) && !s.review.published && s.processed
    && (forall i :: 0 <= i < |s.revisions| ==>
          s.revisions[i].candidate != input.candidate.id && s.revisions[i].hash != input.candidate.hash)
    && (input.candidate.visibility == Public ==> input.contract.visibility == Public)
  }

  // The contract is not bound yet, or is bound as was shown, in a way that the new revision may replace.
  ghost predicate Bindable(input: Input, api: Api, s: Server) {
    && s.api == api
    && match input.expected
       case None =>
         && (forall i :: 0 <= i < |s.bindings| ==> s.bindings[i].contract != s.contract.id)
         && (input.primary ==> forall i :: 0 <= i < |s.bindings| ==> !(s.bindings[i].primary && s.bindings[i].attached))
       case Some(shown) =>
         && shown.deployment == api.deployment && shown.api == api.id
         && (shown.visibility == Public ==> input.candidate.visibility == Public)
         && exists k: nat :: BoundAt(s, shown, input.primary, k)
  }

  // The binding is the only one with its id or contract, and no other is in its way.
  predicate BoundAt(s: Server, shown: Binding, primary: bool, k: nat) {
    && k < |s.bindings| && s.bindings[k] == shown && shown.attached && shown.contract == s.contract.id
    && (forall i :: 0 <= i < |s.bindings| && i != k ==>
          s.bindings[i].id != shown.id && s.bindings[i].contract != s.contract.id)
    && (primary ==> forall i :: 0 <= i < |s.bindings| && i != k ==> !(s.bindings[i].primary && s.bindings[i].attached))
  }

  lemma SourceIsTaken(input: Input, s: Server)
    requires Publishable(input, s) && (input.api.Some? ==> s.api == input.api.value)
    ensures PlanOf(input, s) == Do(SourceWrite(s.review)) && Moves(input, s)
    ensures Advance(input, s).processed
  {
    CheckedIsSame(input, s.review);
    var ids := SourceWrite(s.review).documents;
    assert ids != [];
    forall id | id in ids
      ensures exists i :: 0 <= i < |s.review.documents| && s.review.documents[i].id == id && SafeDocument(s.review.documents[i])
    {
      var i :| 0 <= i < |ids| && ids[i] == id;
      assert s.review.documents[i].id == id && SafeDocument(s.review.documents[i]);
    }
  }

  // With the source published, the contract is.
  lemma ContractIsTaken(input: Input, s: Server)
    requires s.candidate == input.candidate && s.processed && s.review.published && s.candidate.run == s.review.run
    requires s.contract.id == input.candidate.contract && input.candidate.valid
    requires input.candidate.visibility == Public ==> s.contract.visibility == Public
    requires forall i :: 0 <= i < |s.revisions| ==>
               s.revisions[i].candidate != input.candidate.id && s.revisions[i].hash != input.candidate.hash
    requires PlanOf(input, s) == Do(PublishContract(input.candidate.id, s.contract.revision))
    ensures Moves(input, s)
  {
  }

  lemma {:induction false} OnlyOneAttached(bindings: seq<Binding>, contract: string, k: nat)
    requires k < |bindings| && bindings[k].attached && bindings[k].contract == contract
    requires forall i :: 0 <= i < |bindings| && i != k ==> bindings[i].contract != contract
    ensures FindAttached(bindings, contract) == Some(bindings[k])
  {
    if k > 0 { OnlyOneAttached(bindings[1..], contract, k - 1); }
  }

  lemma {:induction false} OnlyOneWithId(bindings: seq<Binding>, k: nat)
    requires k < |bindings| && forall i :: 0 <= i < |bindings| && i != k ==> bindings[i].id != bindings[k].id
    ensures IndexOfBinding(bindings, bindings[k].id) == k
  {
    if k > 0 { OnlyOneWithId(bindings[1..], k - 1); }
  }

  predicate MayBePinned(input: Input, s: Server, published: Revision) {
    && published in s.revisions && published.contract == s.contract.id && published.visibility == input.candidate.visibility
    && s.api.deployment == s.contract.deployment && (s.api.visibility == Public ==> input.candidate.visibility == Public)
    && (input.candidate.visibility == Public ==> s.contract.visibility == Public)
  }

  lemma PinnedIsTaken(input: Input, s: Server, published: Revision, visibility: Visibility)
    requires MayBePinned(input, s, published) && (s.api.visibility == Public ==> visibility == Public)
    requires visibility == Public ==> input.candidate.visibility == Public
    ensures Pinnable(s, published.id, visibility)
  {
    var i :| 0 <= i < |s.revisions| && s.revisions[i] == published;
  }

  lemma AttachIsTaken(input: Input, s: Server, published: Revision)
    requires Bindable(input, s.api, s) && MayBePinned(input, s, published) && input.expected.None?
    ensures FindAttached(s.bindings, s.contract.id).None?
    ensures Serve(s, Attach(published.id, input.primary, s.api.visibility)).Some?
  {
    PinnedIsTaken(input, s, published, s.api.visibility);
    assert input.primary ==> NoOtherPrimary(s, None);
  }

  lemma ChangeIsTaken(input: Input, s: Server, published: Revision, visibility: Visibility)
    requires Bindable(input, s.api, s) && MayBePinned(input, s, published) && input.expected.Some?
    requires visibility == if s.api.visibility == Public then Public else input.expected.value.visibility
    ensures FindAttached(s.bindings, s.contract.id) == input.expected
    ensures Serve(s, Change(input.expected.value.id, input.expected.value.revision, published.id, input.primary, visibility)).Some?
  {
    var shown := input.expected.value;
    var k: nat :| BoundAt(s, shown, input.primary, k);
    OnlyOneAttached(s.bindings, s.contract.id, k);
    OnlyOneWithId(s.bindings, k);
    PinnedIsTaken(input, s, published, visibility);
    assert input.primary ==> NoOtherPrimary(s, Some(shown.id));
  }

  // With the contract published, it is attached.
  lemma BindingIsTaken(input: Input, s: Server, published: Revision)
    requires Bindable(input, s.api, s) && input.api == Some(s.api) && MayBePinned(input, s, published)
    requires PlanOf(input, s) == PlanBinding(input, s.api, s, published)
    ensures PlanOf(input, s).Do? ==> Moves(input, s)
    ensures !PlanOf(input, s).Stop?
  {
    if input.expected.Some? {
      ChangeIsTaken(input, s, published, AttachmentVisibility(s.api, input.expected));
    } else {
      AttachIsTaken(input, s, published);
    }
  }

  // The state after the contract was published leads to the end.
  lemma PublishedLeadsToDone(input: Input, s: Server)
    requires s.candidate == input.candidate && PlanOf(input, s) == Do(PublishContract(input.candidate.id, s.contract.revision))
    requires Moves(input, s) && FitsContract(input, s.contract)
    requires input.candidate.visibility == Public ==> s.contract.visibility == Public
    requires input.api.Some? ==> Bindable(input, input.api.value, s)
    ensures PlanOf(input, Along(input, s, 2)).Done?
  {
    var next, published := Advance(input, s), NewRevision(s);
    ContractMoves(input, s);
    assert Along(input, s, 2) == Along(input, next, 1);
    if input.api.Some? {
      BindableStays(input, s, next);
      BindingIsTaken(input, next, published);
      if Moves(input, next) {
        BindingMoves(input, next);
        assert Along(input, next, 1) == Advance(input, next);
      } else {
        StuckStays(input, next, 1);
      }
    } else {
      StuckStays(input, next, 1);
    }
  }

  lemma BindableStays(input: Input, s: Server, next: Server)
    requires input.api.Some? && Bindable(input, input.api.value, s)
    requires next.api == s.api && next.bindings == s.bindings && next.contract.id == s.contract.id
    ensures Bindable(input, input.api.value, next)
  {
    if input.expected.Some? {
      var k: nat :| BoundAt(s, input.expected.value, input.primary, k);
      assert BoundAt(next, input.expected.value, input.primary, k);
    }
  }

  /** When nothing is in the way, an attempt on which nothing is lost succeeds. */
  lemma ReadySetupSucceeds(input: Input, channel: Channel, net: Net)
    requires Quiet(channel) && Reliable(channel) && Publishable(input, net.server)
    requires input.api.Some? ==> Bindable(input, input.api.value, net.server)
    ensures Finish(input, channel, net).1.Ok?
  {
    var s := net.server;
    SourceIsTaken(input, s);
    SourceMoves(input, s);
    var next := Advance(input, s);
    ContractIsTaken(input, next);
    if input.api.Some? { BindableStays(input, s, next); }
    PublishedLeadsToDone(input, next);
    assert Along(input, s, 3) == Along(input, next, 2);
    AttemptsConverge(input, [], channel, net);
  }
}
