/**
 Finishing a contract setup over an unreliable connection: finishContractSetup of app/lib/contract-setup.ts.
 The server's part states what the publishing and binding services do with one contract, one source and
 its reviewed run, and the contract bindings of one API.
 */
module ContractSetup {
  import opened Prelude
  import Ways

  // ---------------------------------------------------------------- what the server keeps

  datatype Visibility = Private | Unlisted | Public

  datatype DocumentState = Validated | Published | Quarantined | Discovered

  datatype Api = Api(id: string, deployment: string, visibility: Visibility)

  datatype ContractRow = ContractRow(id: string, deployment: string, visibility: Visibility, active: bool, revision: nat)

  datatype Candidate = Candidate(
    id: string, contract: string, deployment: string, run: string, visibility: Visibility, hash: string, valid: bool)

  datatype Revision = Revision(
    id: nat, contract: string, deployment: string, candidate: string, hash: string, visibility: Visibility)

  datatype Document = Document(id: string, hash: string, state: DocumentState, indicators: seq<string>)

  datatype SourceRow = SourceRow(deployment: string, id: string, visibility: Visibility, quarantined: bool, revision: nat)

  // The source, its run and documents, and whether this run of the source is published.
  datatype Review = Review(
    source: SourceRow, run: string, failed: nat, skipped: nat, documents: seq<Document>, published: bool)

  datatype Binding = Binding(
    id: nat, deployment: string, api: string, contract: string, attached: bool, pinned: Option<nat>,
    primary: bool, visibility: Visibility, revision: nat)

  // `processed` stands for the remaining conditions on the run; ids are given out in order.
  datatype Server = Server(
    api: Api, contract: ContractRow, candidate: Candidate, revisions: seq<Revision>, review: Review, processed: bool,
    bindings: seq<Binding>, nextId: nat)

  datatype Write =
    | PublishSource(revision: nat, run: string, documents: seq<string>)
    | PublishContract(candidate: string, revision: nat)
    | Attach(pinned: nat, primary: bool, visibility: Visibility)
    | Change(binding: nat, revision: nat, pinned: nat, primary: bool, visibility: Visibility)

  predicate SafeDocument(document: Document) {
    (document.state == Validated || document.state == Published) && document.indicators == []
  }

  predicate SourcePublishable(s: Server, w: Write)
    requires w.PublishSource?
  {
    && w.revision == s.review.source.revision && !s.review.source.quarantined && s.processed
    && w.run == s.review.run && s.review.failed == 0 && s.review.skipped == 0 && !s.review.published
    && w.documents != [] && (forall i, j :: 0 <= i < j < |w.documents| ==> w.documents[i] != w.documents[j])
    && (forall id :: id in w.documents ==>
          exists i :: 0 <= i < |s.review.documents| && s.review.documents[i].id == id && SafeDocument(s.review.documents[i]))
  }

  function PublishedDocuments(documents: seq<Document>, ids: seq<string>): seq<Document> {
    seq(|documents|, i requires 0 <= i < |documents| =>
      if documents[i].id in ids then documents[i].(state := Published) else documents[i])
  }

  predicate ContractPublishable(s: Server, w: Write)
    requires w.PublishContract?
  {
    && w.candidate == s.candidate.id && s.candidate.contract == s.contract.id && w.revision == s.contract.revision
    && s.candidate.valid && s.processed && s.review.published && s.candidate.run == s.review.run
    && (s.candidate.visibility == Public ==> s.contract.visibility == Public)
    && (forall r :: r in s.revisions ==> r.candidate != s.candidate.id && r.hash != s.candidate.hash)
  }

  function NewRevision(s: Server): Revision {
    Revision(s.nextId, s.contract.id, s.contract.deployment, s.candidate.id, s.candidate.hash, s.candidate.visibility)
  }

  predicate Pinnable(s: Server, pinned: nat, visibility: Visibility) {
    exists i :: 0 <= i < |s.revisions| && s.revisions[i].id == pinned && s.revisions[i].contract == s.contract.id
             && (visibility == Public ==> s.contract.visibility == Public && s.revisions[i].visibility == Public)
             && (s.api.visibility == Public ==> visibility == Public)
  }

  predicate NoOtherPrimary(s: Server, except: Option<nat>) {
    forall i :: 0 <= i < |s.bindings| && s.bindings[i].primary && s.bindings[i].attached ==> Some(s.bindings[i].id) == except
  }

  predicate Attachable(s: Server, w: Write)
    requires w.Attach?
  {
    && s.api.deployment == s.contract.deployment && Pinnable(s, w.pinned, w.visibility)
    && (forall i :: 0 <= i < |s.bindings| ==> s.bindings[i].contract != s.contract.id)
    && (w.primary ==> NoOtherPrimary(s, None))
  }

  // The binding with this id, if there is one.
  function IndexOfBinding(bindings: seq<Binding>, id: nat): (k: nat)
    ensures k <= |bindings| && (k < |bindings| ==> bindings[k].id == id)
  {
    if bindings == [] then 0 else if bindings[0].id == id then 0 else 1 + IndexOfBinding(bindings[1..], id)
  }

  predicate Changeable(s: Server, w: Write)
    requires w.Change?
  {
    var k := IndexOfBinding(s.bindings, w.binding);
    && k < |s.bindings| && s.bindings[k].revision == w.revision && s.bindings[k].contract == s.contract.id
    && s.api.deployment == s.contract.deployment && Pinnable(s, w.pinned, w.visibility)
    && (w.primary ==> NoOtherPrimary(s, Some(w.binding)))
  }

  // One request, handled atomically; None refuses it.
  function Serve(s: Server, w: Write): Option<Server> {
    match w
    case PublishSource(_, _, documents) =>
      if SourcePublishable(s, w) then
        Some(s.(review := s.review.(published := true, documents := PublishedDocuments(s.review.documents, documents),
                                    source := s.review.source.(revision := s.review.source.revision + 1))))
      else None
    case PublishContract(_, _) =>
      if ContractPublishable(s, w) then
        Some(s.(revisions := s.revisions + [NewRevision(s)], nextId := s.nextId + 1,
                contract := s.contract.(revision := s.contract.revision + 1)))
      else None
    case Attach(pinned, primary, visibility) =>
      if Attachable(s, w) then
        Some(s.(bindings := s.bindings + [Binding(s.nextId, s.api.deployment, s.api.id, s.contract.id, true, Some(pinned),
                                                  primary, visibility, 1)],
                nextId := s.nextId + 1))
      else None
    case Change(id, revision, pinned, primary, visibility) =>
      if Changeable(s, w) then
        var k := IndexOfBinding(s.bindings, id);
        Some(s.(bindings := s.bindings[k := Binding(id, s.api.deployment, s.api.id, s.contract.id, true, Some(pinned),
                                                    primary, visibility, revision + 1)]))
      else None
  }

  // ---------------------------------------------------------------- what the client was shown

  // The contract, review and binding are as they were reviewed.
  datatype Input = Input(
    contract: ContractRow, candidate: Candidate, review: Review, api: Option<Api>,
    expected: Option<Binding>, primary: bool)

  datatype SetupError = Changed | Refused | Lost

  // contractSourceFingerprint; the documents are listed in the order of their ids
  function Fingerprint(review: Review)
    : (string, string, Visibility, bool, string, nat, nat, multiset<Document>)
  {
    (review.source.deployment, review.source.id, review.source.visibility, review.source.quarantined,
     review.run, review.failed, review.skipped, multiset(Unpublished(review.documents)))
  }

  // A published document counts as validated.
  function Unpublished(documents: seq<Document>): seq<Document> {
    seq(|documents|, i requires 0 <= i < |documents| =>
      if documents[i].state == Published then documents[i].(state := Validated) else documents[i])
  }

  predicate ApiUnchanged(input: Input, api: Api) {
    input.api.Some? ==> api == input.api.value
  }

  predicate SetupConsistent(input: Input, contract: ContractRow) {
    var candidate, review := input.candidate, input.review;
    && contract.id == candidate.contract && contract.deployment == candidate.deployment
    && contract.visibility == input.contract.visibility && contract.active
    && candidate.run == review.run && candidate.deployment == review.source.deployment
    && candidate.visibility == review.source.visibility && candidate.valid
    && (input.api.Some? ==>
          && (input.api.value.visibility == Public ==> candidate.visibility == Public)
          && input.api.value.deployment == contract.deployment)
  }

  predicate IsPublication(input: Input, contract: ContractRow, revision: Revision) {
    revision.candidate == input.candidate.id && revision.hash == input.candidate.hash && revision.contract == contract.id
  }

  function FindPublished(input: Input, contract: ContractRow, revisions: seq<Revision>): (found: Option<Revision>)
    ensures found.Some? ==> IsPublication(input, contract, found.value) && found.value in revisions
    ensures found.None? ==> forall r :: r in revisions ==> !IsPublication(input, contract, r)
  {
    if revisions == [] then None
    else if IsPublication(input, contract, revisions[0]) then Some(revisions[0])
    else FindPublished(input, contract, revisions[1..])
  }

  predicate StillReviewed(input: Input, review: Review) {
    && Fingerprint(review) == Fingerprint(input.review)
    && !review.source.quarantined && review.failed == 0 && review.skipped == 0 && review.documents != []
    && forall i :: 0 <= i < |review.documents| ==> SafeDocument(review.documents[i])
  }

  predicate PublishedAsReviewed(input: Input, contract: ContractRow, published: Revision) {
    && published.deployment == contract.deployment && IsPublication(input, contract, published)
    && published.visibility == input.candidate.visibility
  }

  // contractAttachmentVisibility
  function AttachmentVisibility(api: Api, expected: Option<Binding>): Visibility {
    if api.visibility == Public then Public else if expected.Some? then expected.value.visibility else api.visibility
  }

  // contractBindingMatches
  predicate BindingMatches(binding: Option<Binding>, published: Revision, api: Api, primary: bool, visibility: Visibility) {
    && binding.Some? && binding.value.deployment == api.deployment && binding.value.api == api.id && binding.value.attached
    && binding.value.contract == published.contract && binding.value.pinned == Some(published.id)
    && binding.value.primary == primary && binding.value.visibility == visibility
    && (api.visibility == Public ==> visibility == Public)
  }

  function FindAttached(bindings: seq<Binding>, contract: string): (found: Option<Binding>)
    ensures found.Some? ==> found.value.attached && found.value.contract == contract && found.value in bindings
    ensures found.None? ==> forall b :: b in bindings ==> !(b.attached && b.contract == contract)
  {
    if bindings == [] then None
    else if bindings[0].attached && bindings[0].contract == contract then Some(bindings[0])
    else FindAttached(bindings[1..], contract)
  }

  predicate AsExpected(input: Input, existing: Option<Binding>) {
    if existing.None? then input.expected.None?
    else input.expected.Some? && existing.value.id == input.expected.value.id && existing.value.revision == input.expected.value.revision
  }

  function SourceWrite(review: Review): Write {
    PublishSource(review.source.revision, review.run,
                  seq(|review.documents|, i requires 0 <= i < |review.documents| => review.documents[i].id))
  }

  function BindingWrite(input: Input, api: Api, published: Revision, existing: Option<Binding>): Write {
    if existing.Some? then
      Change(existing.value.id, existing.value.revision, published.id, input.primary, AttachmentVisibility(api, input.expected))
    else Attach(published.id, input.primary, api.visibility)
  }

  // ---------------------------------------------------------------- the connection

  datatype Fault = Delivered | RequestLost | ResponseLost

  // What happens to each call, and what other writers do before it arrives.
  datatype Channel = Channel(faults: nat -> Fault, others: (nat, Server) -> Server)

  datatype Commit = Commit(write: Write, before: Server)

  datatype Net = Net(server: Server, calls: nat, log: seq<Commit>)

  function Arrive(channel: Channel, net: Net): Net {
    net.(server := channel.others(net.calls, net.server), calls := net.calls + 1)
  }

  // A read sees the server as it is when the call arrives.
  function Get(channel: Channel, net: Net): (Net, Option<Server>) {
    var arrived := Arrive(channel, net);
    (arrived, if channel.faults(net.calls) == Delivered then Some(arrived.server) else None)
  }

  // A write may be committed although its response is lost; the response holds the state it left.
  function Send(channel: Channel, net: Net, w: Write): (Net, Result<Server, SetupError>) {
    var arrived, fault := Arrive(channel, net), channel.faults(net.calls);
    if fault == RequestLost then (arrived, Err(Lost))
    else
      match Serve(arrived.server, w)
      case None => (arrived, Err(if fault == Delivered then Refused else Lost))
      case Some(after) =>
        (arrived.(server := after, log := arrived.log + [Commit(w, arrived.server)]),
         if fault == Delivered then Ok(after) else Err(Lost))
  }

  // ---------------------------------------------------------------- finishContractSetup

  function CheckApi(input: Input, channel: Channel, net: Net): (Net, Result<(), SetupError>) {
    if input.api.None? then (net, Ok(()))
    else
      var (next, seen) := Get(channel, net);
      (next, if seen.None? then Err(Lost) else if ApiUnchanged(input, seen.value.api) then Ok(()) else Err(Changed))
  }

  datatype Opened = Opened(contract: ContractRow, published: Option<Revision>)

  // Reads the contract and looks for the candidate's revision.
  function Open(input: Input, channel: Channel, net: Net): (Net, Result<Opened, SetupError>) {
    var (next, seen) := Get(channel, net);
    if seen.None? then (next, Err(Lost))
    else if !SetupConsistent(input, seen.value.contract) then (next, Err(Changed))
    else
      var (next', seen') := Get(channel, next);
      if seen'.None? then (next', Err(Lost))
      else (next', Ok(Opened(seen.value.contract, FindPublished(input, seen.value.contract, seen'.value.revisions))))
  }

  // The revision that publishing the candidate has added.
  function Added(s: Server): Option<Revision> {
    if s.revisions == [] then None else Some(s.revisions[|s.revisions| - 1])
  }

  function Publish(input: Input, contract: ContractRow, channel: Channel, net: Net): (Net, Result<Revision, SetupError>) {
    if contract.revision != input.contract.revision then (net, Err(Changed))
    else
      var (reviewed, seen) := Get(channel, net);
      if seen.None? then (reviewed, Err(Lost))
      else if !StillReviewed(input, seen.value.review) then (reviewed, Err(Changed))
      else
        var (sourced, sent) :=
          if seen.value.review.published then (reviewed, Ok(seen.value))
          else Send(channel, reviewed, SourceWrite(seen.value.review));
        if sent.Err? then (sourced, Err(sent.error))
        else
          var (done, answer) := Send(channel, sourced, PublishContract(input.candidate.id, contract.revision));
          if answer.Err? then (done, Err(answer.error))
          else (done, if Added(answer.value).Some? then Ok(Added(answer.value).value) else Err(Refused))
  }

  function AttachPublished(input: Input, api: Api, contract: ContractRow, published: Revision, channel: Channel, net: Net)
    : (Net, Result<Revision, SetupError>)
  {
    var (checked, same) := CheckApi(input, channel, net);
    if same.Err? then (checked, Err(same.error))
    else
      var visibility := AttachmentVisibility(api, input.expected);
      var (listed, seen) := Get(channel, checked);
      if seen.None? then (listed, Err(Lost))
      else
        var existing := FindAttached(seen.value.bindings, contract.id);
        if BindingMatches(existing, published, api, input.primary, visibility) then (listed, Ok(published))
        else if !AsExpected(input, existing) then (listed, Err(Changed))
        else if existing.Some? && (existing.value.deployment != api.deployment || existing.value.api != api.id)
        then (listed, Err(Changed))
        else
          var (written, answer) := Send(channel, listed, BindingWrite(input, api, published, existing));
          if answer.Err? then (written, Err(answer.error))
          else
            var (done, saved) := Get(channel, written);
            if saved.None? then (done, Err(Lost))
            else if BindingMatches(FindAttached(saved.value.bindings, contract.id), published, api, input.primary, visibility)
            then (done, Ok(published))
            else (done, Err(Changed))
  }

  function Conclude(input: Input, contract: ContractRow, published: Revision, channel: Channel, net: Net)
    : (Net, Result<Revision, SetupError>)
  {
    if !PublishedAsReviewed(input, contract, published) then (net, Err(Changed))
    else if input.api.None? then (net, Ok(published))
    else AttachPublished(input, input.api.value, contract, published, channel, net)
  }

  function Finish(input: Input, channel: Channel, net: Net): (Net, Result<Revision, SetupError>) {
    var (checked, same) := CheckApi(input, channel, net);
    if same.Err? then (checked, Err(same.error))
    else
      var (ready, found) := Open(input, channel, checked);
      if found.Err? then (ready, Err(found.error))
      else
        var contract := found.value.contract;
        var (after, published) :=
          if found.value.published.Some? then (ready, Ok(found.value.published.value))
          else Publish(input, contract, channel, ready);
        if published.Err? then (after, Err(published.error))
        else Conclude(input, contract, published.value, channel, after)
  }

  // ---------------------------------------------------------------- only what was reviewed is written

  // The write was sent for what had been reviewed, and committed on exactly that.
  ghost predicate Reviewed(input: Input, commit: Commit) {
    var before := commit.before;
    match commit.write
    case PublishSource(revision, _, _) =>
      && revision == before.review.source.revision && !before.review.published
      && exists review :: StillReviewed(input, review) && !review.published && commit.write == SourceWrite(review)
    case PublishContract(candidate, revision) =>
      && candidate == input.candidate.id == before.candidate.id && revision == input.contract.revision == before.contract.revision
      && before.review.published && FindPublished(input, before.contract, before.revisions).None?
    case Attach(_, _, _) =>
      input.expected.None? && FindAttached(before.bindings, before.contract.id).None?
    case Change(id, revision, _, _, _) =>
      && input.expected.Some? && id == input.expected.value.id && revision == input.expected.value.revision
      && exists i :: 0 <= i < |before.bindings| && before.bindings[i].id == id && before.bindings[i].revision == revision
  }

  ghost predicate AllReviewed(input: Input, log: seq<Commit>) {
    forall i :: 0 <= i < |log| ==> Reviewed(input, log[i])
  }

  lemma NoPublicationYet(input: Input, s: Server)
    requires forall r :: r in s.revisions ==> r.candidate != input.candidate.id
    ensures FindPublished(input, s.contract, s.revisions).None?
  {
  }

  lemma SendReviewed(input: Input, channel: Channel, net: Net, w: Write)
    requires AllReviewed(input, net.log)
    requires w.PublishSource? ==> exists review :: StillReviewed(input, review) && !review.published && w == SourceWrite(review)
    requires w.PublishContract? ==> w.candidate == input.candidate.id && w.revision == input.contract.revision
    requires w.Attach? ==> input.expected.None?
    requires w.Change? ==> input.expected.Some? && w.binding == input.expected.value.id && w.revision == input.expected.value.revision
    ensures AllReviewed(input, Send(channel, net, w).0.log)
  {
    var before := Arrive(channel, net).server;
    if w.PublishContract? && ContractPublishable(before, w) { NoPublicationYet(input, before); }
    if w.Change? && Changeable(before, w) {
      var k := IndexOfBinding(before.bindings, w.binding);
      assert before.bindings[k].id == w.binding;
    }
  }

  lemma PublishReviewed(input: Input, contract: ContractRow, channel: Channel, net: Net)
    requires AllReviewed(input, net.log)
    ensures AllReviewed(input, Publish(input, contract, channel, net).0.log)
  {
    var (reviewed, seen) := Get(channel, net);
    if contract.revision == input.contract.revision && seen.Some? && StillReviewed(input, seen.value.review) {
      var review := seen.value.review;
      if !review.published { SendReviewed(input, channel, reviewed, SourceWrite(review)); }
      var sourced := if review.published then reviewed else Send(channel, reviewed, SourceWrite(review)).0;
      SendReviewed(input, channel, sourced, PublishContract(input.candidate.id, contract.revision));
    }
  }

  lemma AttachReviewed(input: Input, api: Api, contract: ContractRow, published: Revision, channel: Channel, net: Net)
    requires AllReviewed(input, net.log)
    ensures AllReviewed(input, AttachPublished(input, api, contract, published, channel, net).0.log)
  {
    var checked := CheckApi(input, channel, net).0;
    var (listed, seen) := Get(channel, checked);
    if seen.Some? {
      var existing := FindAttached(seen.value.bindings, contract.id);
      if AsExpected(input, existing) {
        SendReviewed(input, channel, listed, BindingWrite(input, api, published, existing));
      }
    }
  }

  /** Whatever other writers do and whichever calls are lost, each write that commits was sent for
      what had been reviewed and found it unchanged: the contract and the binding at the reviewed
      revision, the source at the revision of a review equal to the one shown. */
  lemma OnlyReviewedIsWritten(input: Input, channel: Channel, net: Net)
    requires AllReviewed(input, net.log)
    ensures AllReviewed(input, Finish(input, channel, net).0.log)
  {
    var (checked, same) := CheckApi(input, channel, net);
    var (ready, found) := Open(input, channel, checked);
    if same.Ok? && found.Ok? {
      var contract := found.value.contract;
      if found.value.published.None? { PublishReviewed(input, contract, channel, ready); }
      var (after, published) :=
        if found.value.published.Some? then (ready, Ok(found.value.published.value))
        else Publish(input, contract, channel, ready);
      if published.Ok? && input.api.Some? {
        AttachReviewed(input, input.api.value, contract, published.value, channel, after);
      }
    }
  }

  // ---------------------------------------------------------------- without other writers

  datatype Plan = Stop | Done(published: Revision) | Do(write: Write)

  function PlanBinding(input: Input, api: Api, s: Server, published: Revision): Plan {
    var existing := FindAttached(s.bindings, s.contract.id);
    if BindingMatches(existing, published, api, input.primary, AttachmentVisibility(api, input.expected)) then Done(published)
    else if !AsExpected(input, existing) then Stop
    else if existing.Some? && (existing.value.deployment != api.deployment || existing.value.api != api.id) then Stop
    else Do(BindingWrite(input, api, published, existing))
  }

  function PlanPublication(input: Input, s: Server): Plan {
    if s.contract.revision != input.contract.revision || !StillReviewed(input, s.review) then Stop
    else if !s.review.published then Do(SourceWrite(s.review))
    else Do(PublishContract(input.candidate.id, s.contract.revision))
  }

  // What is left to do when the server is in this state.
  function PlanOf(input: Input, s: Server): Plan {
    if !ApiUnchanged(input, s.api) || !SetupConsistent(input, s.contract) then Stop
    else
      match FindPublished(input, s.contract, s.revisions)
      case None => PlanPublication(input, s)
      case Some(published) =>
        if !PublishedAsReviewed(input, s.contract, published) then Stop
        else if input.api.None? then Done(published)
        else PlanBinding(input, input.api.value, s, published)
  }

  // The next planned write, if there is one and the server takes it.
  predicate Moves(input: Input, s: Server) {
    PlanOf(input, s).Do? && Serve(s, PlanOf(input, s).write).Some?
  }

  function Advance(input: Input, s: Server): Server {
    if Moves(input, s) then Serve(s, PlanOf(input, s).write).value else s
  }

  function Mover(input: Input): Server -> Option<(Commit, Server)> {
    s => if Moves(input, s) then Some((Commit(PlanOf(input, s).write, s), Advance(input, s))) else None
  }

  function Along(input: Input, s: Server, steps: nat): Server {
    Ways.Along(Mover(input), s, steps)
  }

  // The commits that make up the way.
  function CommitsAlong(input: Input, s: Server, steps: nat): seq<Commit> {
    Ways.Labels(Mover(input), s, steps)
  }

  // Publishing the source, publishing the contract, and attaching it.
  const STAGES: nat := 3

  // The state that a run without faults reaches.
  function Final(input: Input, s: Server): Server {
    Along(input, s, STAGES)
  }

  ghost predicate Quiet(channel: Channel) {
    forall k: nat, s :: channel.others(k, s) == s
  }

  ghost predicate Reliable(channel: Channel) {
    forall k: nat :: channel.faults(k) == Delivered
  }

  // How far the setup is: source published, contract published, contract attached.
  function Rank(input: Input, s: Server): nat {
    if FindPublished(input, s.contract, s.revisions).None? then (if s.review.published then 1 else 0)
    else if PlanOf(input, s).Done? then 3 else 2
  }

  function WriteRank(w: Write): nat {
    match w
    case PublishSource(_, _, _) => 0
    case PublishContract(_, _) => 1
    case _ => 2
  }

  lemma StillReviewedOncePublished(input: Input, s: Server)
    requires StillReviewed(input, s.review) && !s.review.published && Serve(s, SourceWrite(s.review)).Some?
    ensures StillReviewed(input, Serve(s, SourceWrite(s.review)).value.review)
  {
    var before, after := s.review, Serve(s, SourceWrite(s.review)).value.review;
    var ids := SourceWrite(before).documents;
    forall i | 0 <= i < |before.documents| ensures after.documents[i] == before.documents[i].(state := Published) {
      assert ids[i] == before.documents[i].id;
    }
    forall i | 0 <= i < |before.documents| ensures Unpublished(after.documents)[i] == Unpublished(before.documents)[i] {
      assert SafeDocument(before.documents[i]);
    }
    assert Unpublished(after.documents) == Unpublished(before.documents);
  }

  lemma SourceMoves(input: Input, s: Server)
    requires Moves(input, s) && PlanOf(input, s).write.PublishSource?
    ensures var next := Advance(input, s);
            && FindPublished(input, s.contract, s.revisions).None? && !s.review.published
            && next == s.(review := next.review) && next.review.published
            && PlanOf(input, next) == Do(PublishContract(input.candidate.id, s.contract.revision))
  {
    StillReviewedOncePublished(input, s);
  }

  lemma {:induction false} FindAppended(input: Input, contract: ContractRow, revisions: seq<Revision>, revision: Revision)
    requires FindPublished(input, contract, revisions).None? && IsPublication(input, contract, revision)
    ensures FindPublished(input, contract, revisions + [revision]) == Some(revision)
  {
    if revisions != [] {
      assert (revisions + [revision])[1..] == revisions[1..] + [revision];
      FindAppended(input, contract, revisions[1..], revision);
    }
  }

  lemma {:induction false} FindSameContract(input: Input, a: ContractRow, b: ContractRow, revisions: seq<Revision>)
    requires a.id == b.id
    ensures FindPublished(input, a, revisions) == FindPublished(input, b, revisions)
  {
    if revisions != [] { FindSameContract(input, a, b, revisions[1..]); }
  }

  lemma ContractMoves(input: Input, s: Server)
    requires s.candidate == input.candidate && Moves(input, s) && PlanOf(input, s).write.PublishContract?
    ensures var next := Advance(input, s);
            && FindPublished(input, s.contract, s.revisions).None? && s.review.published
            && next.revisions == s.revisions + [NewRevision(s)]
            && next == s.(revisions := next.revisions, nextId := s.nextId + 1, contract := next.contract)
            && next.contract == s.contract.(revision := s.contract.revision + 1)
            && FindPublished(input, next.contract, next.revisions) == Some(NewRevision(s))
            && PublishedAsReviewed(input, next.contract, NewRevision(s))
  {
    FindAppended(input, s.contract, s.revisions, NewRevision(s));
    FindSameContract(input, s.contract, Advance(input, s).contract, s.revisions + [NewRevision(s)]);
  }

  lemma {:induction false} FindAttachedAppended(bindings: seq<Binding>, contract: string, binding: Binding)
    requires forall i :: 0 <= i < |bindings| ==> bindings[i].contract != contract
    requires binding.attached && binding.contract == contract
    ensures FindAttached(bindings + [binding], contract) == Some(binding)
  {
    if bindings != [] {
      assert (bindings + [binding])[1..] == bindings[1..] + [binding];
      FindAttachedAppended(bindings[1..], contract, binding);
    }
  }

  // The changed binding is the first attached one of its contract, as the one that had its id was.
  lemma {:induction false} FindAttachedChanged(bindings: seq<Binding>, contract: string, id: nat, binding: Binding)
    requires FindAttached(bindings, contract).Some? && FindAttached(bindings, contract).value.id == id
    requires binding.attached && binding.contract == contract && IndexOfBinding(bindings, id) < |bindings|
    ensures FindAttached(bindings[IndexOfBinding(bindings, id) := binding], contract) == Some(binding)
  {
    if bindings[0].id != id {
      var k := IndexOfBinding(bindings[1..], id);
      assert bindings[k + 1 := binding][1..] == bindings[1..][k := binding];
      FindAttachedChanged(bindings[1..], contract, id, binding);
    }
  }

  lemma BindingMoves(input: Input, s: Server)
    requires Moves(input, s) && WriteRank(PlanOf(input, s).write) == 2
    ensures FindPublished(input, s.contract, s.revisions).Some? && input.api.Some?
    ensures var next, published := Advance(input, s), FindPublished(input, s.contract, s.revisions).value;
            && next == s.(bindings := next.bindings, nextId := next.nextId) && PlanOf(input, next) == Done(published)
            && BindingMatches(FindAttached(next.bindings, s.contract.id), published, input.api.value, input.primary,
                              AttachmentVisibility(input.api.value, input.expected))
  {
    var next, write := Advance(input, s), PlanOf(input, s).write;
    var existing := FindAttached(s.bindings, s.contract.id);
    if write.Attach? {
      FindAttachedAppended(s.bindings, s.contract.id, next.bindings[|s.bindings|]);
    } else {
      var k := IndexOfBinding(s.bindings, write.binding);
      FindAttachedChanged(s.bindings, s.contract.id, write.binding, next.bindings[k]);
    }
  }

  lemma MoveRaisesRank(input: Input, s: Server)
    requires s.candidate == input.candidate && Moves(input, s)
    ensures Rank(input, s) == WriteRank(PlanOf(input, s).write) < Rank(input, Advance(input, s))
    ensures Advance(input, s).candidate == s.candidate
  {
    match PlanOf(input, s).write
    case PublishSource(_, _, _) => SourceMoves(input, s);
    case PublishContract(_, _) => ContractMoves(input, s);
    case _ => BindingMoves(input, s);
  }

  lemma StuckStays(input: Input, s: Server, steps: nat)
    requires !Moves(input, s)
    ensures Along(input, s, steps) == s && CommitsAlong(input, s, steps) == []
  {
  }

  // Each move raises the rank, so the way ends after as many steps as are missing.
  lemma {:induction false} AlongEnds(input: Input, s: Server, steps: nat)
    requires s.candidate == input.candidate && steps + Rank(input, s) >= STAGES
    ensures !Moves(input, Along(input, s, steps)) && Mover(input)(Along(input, s, steps)).None?
    decreases steps
  {
    if Moves(input, s) {
      MoveRaisesRank(input, s);
      AlongEnds(input, Advance(input, s), steps - 1);
    } else {
      StuckStays(input, s, steps);
    }
  }

  lemma ThreeStepsAreAll(input: Input, s: Server, steps: nat)
    requires s.candidate == input.candidate && steps >= STAGES
    ensures Along(input, s, steps) == Final(input, s) && CommitsAlong(input, s, steps) == CommitsAlong(input, s, STAGES)
  {
    AlongEnds(input, s, STAGES);
    Ways.EndsThere(Mover(input), s, STAGES, steps);
  }

  // Where nothing moves, the way has ended.
  lemma EndIsFinal(input: Input, s: Server, steps: nat)
    requires s.candidate == input.candidate && !Moves(input, Along(input, s, steps))
    ensures Along(input, s, steps) == Final(input, s)
  {
    if steps >= STAGES {
      ThreeStepsAreAll(input, s, steps);
    } else {
      Ways.EndsThere(Mover(input), s, steps, STAGES);
    }
  }

  // The first commit is of this rank, and each is of a higher rank than the one before.
  ghost predicate InOrder(commits: seq<Commit>, rank: nat) {
    && (forall i :: 0 <= i < |commits| ==> rank <= WriteRank(commits[i].write))
    && (forall i, j :: 0 <= i < j < |commits| ==> WriteRank(commits[i].write) < WriteRank(commits[j].write))
  }

  lemma InOrderCons(commit: Commit, commits: seq<Commit>, rank: nat)
    requires InOrder(commits, rank) && WriteRank(commit.write) < rank
    ensures InOrder([commit] + commits, WriteRank(commit.write))
  {
  }

  /** Whatever is written along the way is written once: the source, then the contract, then the binding. */
  lemma {:induction false} WrittenOnceInOrder(input: Input, s: Server, steps: nat)
    requires s.candidate == input.candidate
    ensures InOrder(CommitsAlong(input, s, steps), Rank(input, s))
    decreases steps
  {
    if steps > 0 && Moves(input, s) {
      MoveRaisesRank(input, s);
      WrittenOnceInOrder(input, Advance(input, s), steps - 1);
      InOrderCons(Commit(PlanOf(input, s).write, s), CommitsAlong(input, Advance(input, s), steps - 1),
                  Rank(input, Advance(input, s)));
    }
  }

  // ---------------------------------------------------------------- an attempt follows the way

  // The connection has gone some way further, committing just what is on it.
  ghost predicate Follows(input: Input, before: Net, after: Net, steps: nat) {
    && after.server == Along(input, before.server, steps)
    && after.log == before.log + CommitsAlong(input, before.server, steps)
  }

  lemma FollowsOn(input: Input, a: Net, b: Net, c: Net, j: nat, k: nat)
    requires Follows(input, a, b, j) && Follows(input, b, c, k)
    ensures Follows(input, a, c, j + k)
  {
    Ways.AlongAdds(Mover(input), a.server, j, k);
    Associates(a.log, CommitsAlong(input, a.server, j), CommitsAlong(input, b.server, k));
  }

  // Sending the planned write moves on, unless the request is lost or refused.
  lemma SendFollows(input: Input, channel: Channel, net: Net) returns (k: nat)
    requires Quiet(channel) && PlanOf(input, net.server).Do?
    ensures var (after, answer) := Send(channel, net, PlanOf(input, net.server).write);
            && k <= 1 && Follows(input, net, after, k)
            && (answer.Ok? ==> Moves(input, net.server) && k == 1 && after.server == answer.value == Advance(input, net.server))
            && (Reliable(channel) ==> (answer.Err? ==> !Moves(input, after.server) && k == 0))
  {
    var w := PlanOf(input, net.server).write;
    if channel.faults(net.calls) == RequestLost || Serve(net.server, w).None? {
      k := 0;
      assert net.log + [] == net.log;
    } else {
      k := 1;
      assert Along(input, net.server, 1) == Advance(input, net.server);
      assert CommitsAlong(input, net.server, 1) == [Commit(w, net.server)] + CommitsAlong(input, Advance(input, net.server), 0);
    }
  }

  // How an attempt ends: on the way, at its end if it succeeded or nothing was lost.
  ghost predicate Ends(input: Input, channel: Channel, after: Net, r: Result<Revision, SetupError>) {
    && (r.Ok? ==> PlanOf(input, after.server) == Done(r.value))
    && (Reliable(channel) && r.Err? ==> !Moves(input, after.server) && !PlanOf(input, after.server).Done?)
  }

  lemma NoMove(input: Input, net: Net, after: Net)
    requires after.server == net.server && after.log == net.log
    ensures Follows(input, net, after, 0)
  {
    assert net.log + [] == net.log;
  }

  // ---------------------------------------------------------------- the phases

  // The client has found the API and contract as reviewed.
  ghost predicate Consistent(input: Input, s: Server) {
    s.candidate == input.candidate && ApiUnchanged(input, s.api) && SetupConsistent(input, s.contract)
  }

  lemma CheckApiQuiet(input: Input, channel: Channel, net: Net)
    requires Quiet(channel)
    ensures var (after, r) := CheckApi(input, channel, net);
            && after.server == net.server && after.log == net.log
            && (r.Ok? ==> ApiUnchanged(input, net.server.api))
            && (Reliable(channel) && r.Err? ==> !ApiUnchanged(input, net.server.api))
  {
  }

  // The candidate's revision has been added, and nothing the client has read of the contract but its revision has changed.
  ghost predicate PublishedNow(input: Input, before: Server, after: Server, published: Revision) {
    && Consistent(input, after) && after.contract.id == before.contract.id
    && after.contract.deployment == before.contract.deployment
    && FindPublished(input, after.contract, after.revisions) == Some(published)
    && PublishedAsReviewed(input, after.contract, published)
  }

  // Sending the contract's publication, once the source is published.
  lemma PublishContractFollows(input: Input, channel: Channel, net: Net) returns (k: nat)
    requires Quiet(channel) && Consistent(input, net.server)
    requires PlanOf(input, net.server) == Do(PublishContract(input.candidate.id, net.server.contract.revision))
    ensures var (after, answer) := Send(channel, net, PublishContract(input.candidate.id, net.server.contract.revision));
            && Follows(input, net, after, k)
            && (answer.Ok? ==> Added(answer.value).Some? && PublishedNow(input, net.server, after.server, Added(answer.value).value))
            && (Reliable(channel) && answer.Err? ==> !Moves(input, after.server) && !PlanOf(input, after.server).Done?)
  {
    k := SendFollows(input, channel, net);
    if Moves(input, net.server) { ContractMoves(input, net.server); }
    if k == 0 { assert Along(input, net.server, 0) == net.server; }
  }

  lemma PublishFollows(input: Input, channel: Channel, net: Net) returns (k: nat)
    requires Quiet(channel) && Consistent(input, net.server)
    requires FindPublished(input, net.server.contract, net.server.revisions).None?
    ensures var (after, r) := Publish(input, net.server.contract, channel, net);
            && Follows(input, net, after, k) && (r.Ok? ==> PublishedNow(input, net.server, after.server, r.value))
            && (Reliable(channel) && r.Err? ==> !Moves(input, after.server) && !PlanOf(input, after.server).Done?)
  {
    var s := net.server;
    var (reviewed, seen) := Get(channel, net);
    NoMove(input, net, net);
    NoMove(input, net, reviewed);
    k := 0;
    if s.contract.revision == input.contract.revision && seen.Some? && StillReviewed(input, s.review) {
      if s.review.published {
        k := PublishContractFollows(input, channel, reviewed);
      } else {
        k := SendFollows(input, channel, reviewed);
        var (sourced, sent) := Send(channel, reviewed, SourceWrite(s.review));
        if sent.Ok? {
          SourceMoves(input, s);
          var more := PublishContractFollows(input, channel, sourced);
          FollowsOn(input, reviewed, sourced, Send(channel, sourced, PublishContract(input.candidate.id, s.contract.revision)).0, k, more);
          k := k + more;
        }
      }
    }
  }

  lemma AttachFollows(input: Input, contract: ContractRow, published: Revision, channel: Channel, net: Net) returns (k: nat)
    requires Quiet(channel) && Consistent(input, net.server) && input.api.Some? && contract.id == net.server.contract.id
    requires FindPublished(input, net.server.contract, net.server.revisions) == Some(published)
    requires PublishedAsReviewed(input, net.server.contract, published)
    ensures var (after, r) := AttachPublished(input, input.api.value, contract, published, channel, net);
            Follows(input, net, after, k) && Ends(input, channel, after, r)
  {
    var s, api := net.server, input.api.value;
    CheckApiQuiet(input, channel, net);
    var checked := CheckApi(input, channel, net).0;
    var (listed, seen) := Get(channel, checked);
    NoMove(input, net, checked);
    NoMove(input, net, listed);
    k := 0;
    if CheckApi(input, channel, net).1.Ok? && seen.Some? && PlanOf(input, s).Do? {
      k := SendFollows(input, channel, listed);
      if Moves(input, s) { BindingMoves(input, s); }
    }
  }

  lemma ConcludeFollows(input: Input, contract: ContractRow, published: Revision, channel: Channel, net: Net) returns (k: nat)
    requires Quiet(channel) && Consistent(input, net.server)
    requires contract.id == net.server.contract.id && contract.deployment == net.server.contract.deployment
    requires FindPublished(input, net.server.contract, net.server.revisions) == Some(published)
    ensures var (after, r) := Conclude(input, contract, published, channel, net);
            Follows(input, net, after, k) && Ends(input, channel, after, r)
  {
    NoMove(input, net, net);
    k := 0;
    if PublishedAsReviewed(input, contract, published) && input.api.Some? {
      k := AttachFollows(input, contract, published, channel, net);
    }
  }

  lemma OpenQuiet(input: Input, channel: Channel, net: Net)
    requires Quiet(channel)
    ensures var (after, r) := Open(input, channel, net);
            && after.server == net.server && after.log == net.log
            && (r.Ok? ==> SetupConsistent(input, net.server.contract) && r.value.contract == net.server.contract
                          && r.value.published == FindPublished(input, net.server.contract, net.server.revisions))
            && (Reliable(channel) && r.Err? ==> !SetupConsistent(input, net.server.contract))
  {
  }

  lemma FinishFollows(input: Input, channel: Channel, net: Net) returns (k: nat)
    requires Quiet(channel) && net.server.candidate == input.candidate
    ensures var (after, r) := Finish(input, channel, net);
            Follows(input, net, after, k) && Ends(input, channel, after, r)
  {
    k := 0;
    CheckApiQuiet(input, channel, net);
    var (checked, same) := CheckApi(input, channel, net);
    NoMove(input, net, checked);
    if same.Ok? {
      OpenQuiet(input, channel, checked);
      var (ready, found) := Open(input, channel, checked);
      NoMove(input, net, ready);
      if found.Ok? {
        if found.value.published.Some? {
          k := ConcludeFollows(input, found.value.contract, found.value.published.value, channel, ready);
        } else {
          k := PublishAndConcludeFollows(input, channel, ready);
        }
        assert ready.server == net.server && ready.log == net.log;
      }
    }
  }

  // Attaching what has just been published.
  lemma ConcludeFollowsOn(
    input: Input, contract: ContractRow, published: Revision, channel: Channel, net: Net, middle: Net, j: nat) returns (k: nat)
    requires Quiet(channel) && Follows(input, net, middle, j) && PublishedNow(input, net.server, middle.server, published)
    requires contract == net.server.contract
    ensures var (after, r) := Conclude(input, contract, published, channel, middle);
            Follows(input, net, after, k) && Ends(input, channel, after, r)
  {
    var more := ConcludeFollows(input, contract, published, channel, middle);
    FollowsOn(input, net, middle, Conclude(input, contract, published, channel, middle).0, j, more);
    k := j + more;
  }

  // Publishing and attaching.
  lemma PublishAndConcludeFollows(input: Input, channel: Channel, net: Net) returns (k: nat)
    requires Quiet(channel) && Consistent(input, net.server)
    requires FindPublished(input, net.server.contract, net.server.revisions).None?
    ensures var contract := net.server.contract;
            var (middle, published) := Publish(input, contract, channel, net);
            if published.Err? then Follows(input, net, middle, k) && Ends(input, channel, middle, published)
            else
              var (after, r) := Conclude(input, contract, published.value, channel, middle);
              Follows(input, net, after, k) && Ends(input, channel, after, r)
  {
    var contract := net.server.contract;
    var (middle, published) := Publish(input, contract, channel, net);
    k := PublishFollows(input, channel, net);
    if published.Ok? { k := ConcludeFollowsOn(input, contract, published.value, channel, net, middle, k); }
  }

  // ---------------------------------------------------------------- main results

  // Attempts with the same input, one after the other, over different connections.
  function Retried(input: Input, channels: seq<Channel>, net: Net): Net {
    if channels == [] then net
    else Finish(input, channels[|channels| - 1], Retried(input, channels[..|channels| - 1], net)).0
  }

  lemma OneMoreAttempt(input: Input, channel: Channel, net: Net, before: Net, j: nat) returns (k: nat)
    requires Quiet(channel) && net.server.candidate == before.server.candidate == input.candidate
    requires Follows(input, net, before, j)
    ensures Follows(input, net, Finish(input, channel, before).0, k)
    ensures Finish(input, channel, before).0.server.candidate == input.candidate
  {
    var more := FinishFollows(input, channel, before);
    FollowsOn(input, net, before, Finish(input, channel, before).0, j, more);
    k := j + more;
    CandidateStays(input, net.server, k);
  }

  lemma {:induction false} RetriesFollow(input: Input, channels: seq<Channel>, net: Net) returns (k: nat)
    requires (forall c :: c in channels ==> Quiet(c)) && net.server.candidate == input.candidate
    ensures Follows(input, net, Retried(input, channels, net), k)
    ensures Retried(input, channels, net).server.candidate == input.candidate
  {
    if channels == [] {
      k := 0;
      NoMove(input, net, net);
    } else {
      var front, last := channels[..|channels| - 1], channels[|channels| - 1];
      k := RetriesFollow(input, front, net);
      k := OneMoreAttempt(input, last, net, Retried(input, front, net), k);
    }
  }

  lemma {:induction false} CandidateStays(input: Input, s: Server, steps: nat)
    ensures Along(input, s, steps).candidate == s.candidate
    decreases steps
  {
    if steps > 0 { CandidateStays(input, Advance(input, s), steps - 1); }
  }

  /** Any number of attempts, with any requests and responses lost, commit a prefix of the same at most
      three writes: the source's publication, the contract's publication and the binding, each at most once. */
  lemma AtMostOnePublicationRevisionAndAttachment(input: Input, channels: seq<Channel>, net: Net) returns (k: nat)
    requires (forall c :: c in channels ==> Quiet(c)) && net.server.candidate == input.candidate
    ensures var after := Retried(input, channels, net);
            && k <= STAGES && after.server == Along(input, net.server, k)
            && after.log == net.log + CommitsAlong(input, net.server, k)
            && InOrder(CommitsAlong(input, net.server, k), 0)
  {
    k := RetriesFollow(input, channels, net);
    if k > STAGES {
      ThreeStepsAreAll(input, net.server, k);
      k := STAGES;
    }
    WrittenOnceInOrder(input, net.server, k);
  }

  lemma EndsAtFinal(input: Input, channel: Channel, s: Server, steps: nat, after: Net, r: Result<Revision, SetupError>)
    requires s.candidate == input.candidate && after.server == Along(input, s, steps) && Ends(input, channel, after, r)
    ensures r.Ok? ==> after.server == Final(input, s) && PlanOf(input, after.server) == Done(r.value)
    ensures Reliable(channel) ==>
              after.server == Final(input, s) && (r.Ok? <==> PlanOf(input, Final(input, s)).Done?)
  {
    if !Moves(input, after.server) { EndIsFinal(input, s, steps); }
  }

  lemma FollowedToFinal(
    input: Input, channel: Channel, net: Net, before: Net, after: Net, r: Result<Revision, SetupError>, j: nat, k: nat)
    requires net.server.candidate == input.candidate
    requires Follows(input, net, before, j) && Follows(input, before, after, k) && Ends(input, channel, after, r)
    ensures r.Ok? ==> after.server == Final(input, net.server) && PlanOf(input, after.server) == Done(r.value)
    ensures Reliable(channel) ==>
              after.server == Final(input, net.server) && (r.Ok? <==> PlanOf(input, Final(input, net.server)).Done?)
  {
    FollowsOn(input, net, before, after, j, k);
    EndsAtFinal(input, channel, net.server, j + k, after, r);
  }

  lemma AttemptConverges(input: Input, channel: Channel, net: Net, before: Net, j: nat)
    requires Quiet(channel) && net.server.candidate == before.server.candidate == input.candidate
    requires Follows(input, net, before, j)
    ensures var (after, r) := Finish(input, channel, before);
            && (r.Ok? ==> after.server == Final(input, net.server) && PlanOf(input, after.server) == Done(r.value))
            && (Reliable(channel) ==>
                  after.server == Final(input, net.server) && (r.Ok? <==> PlanOf(input, Final(input, net.server)).Done?))
  {
    var k := FinishFollows(input, channel, before);
    FollowedToFinal(input, channel, net, before, Finish(input, channel, before).0, Finish(input, channel, before).1, j, k);
  }

  /** An attempt that succeeds, after any earlier ones, leaves the server where a run without faults
      would have left it; so does any attempt on which nothing is lost, and it succeeds exactly if
      that run does. */
  lemma AttemptsConverge(input: Input, channels: seq<Channel>, last: Channel, net: Net)
    requires (forall c :: c in channels ==> Quiet(c)) && Quiet(last) && net.server.candidate == input.candidate
    ensures var (after, r) := Finish(input, last, Retried(input, channels, net));
            && (r.Ok? ==> after.server == Final(input, net.server) && PlanOf(input, after.server) == Done(r.value))
            && (Reliable(last) ==>
                  after.server == Final(input, net.server) && (r.Ok? <==> PlanOf(input, Final(input, net.server)).Done?))
  {
    var j := RetriesFollow(input, channels, net);
    AttemptConverges(input, last, net, Retried(input, channels, net), j);
  }

  // ---------------------------------------------------------------- the client

  class Transport {
    const channel: Channel
    var net: Net

    constructor (channel: Channel, net: Net)
      ensures this.channel == channel && this.net == net
    {
      this.channel, this.net := channel, net;
    }

    method Read() returns (seen: Option<Server>)
      modifies this
      ensures (net, seen) == Get(channel, old(net))
    {
      var fault := channel.faults(net.calls);
      net := net.(server := channel.others(net.calls, net.server), calls := net.calls + 1);
      seen := if fault == Delivered then Some(net.server) else None;
    }

    method Request(w: Write) returns (answer: Result<Server, SetupError>)
      modifies this
      ensures (net, answer) == Send(channel, old(net), w)
    {
      var fault := channel.faults(net.calls);
      net := net.(server := channel.others(net.calls, net.server), calls := net.calls + 1);
      if fault == RequestLost { return Err(Lost); }
      var served := Serve(net.server, w);
      if served.None? { return Err(if fault == Delivered then Refused else Lost); }
      net := net.(server := served.value, log := net.log + [Commit(w, net.server)]);
      answer := if fault == Delivered then Ok(served.value) else Err(Lost);
    }
  }

  method ReadApi(input: Input, transport: Transport) returns (r: Result<(), SetupError>)
    modifies transport
    ensures (transport.net, r) == CheckApi(input, transport.channel, old(transport.net))
  {
    if input.api.None? { return Ok(()); }
    var seen := transport.Read();
    if seen.None? { return Err(Lost); }
    r := if ApiUnchanged(input, seen.value.api) then Ok(()) else Err(Changed);
  }

  method PublishReviewedCandidate(input: Input, contract: ContractRow, transport: Transport) returns (r: Result<Revision, SetupError>)
    modifies transport
    ensures (transport.net, r) == Publish(input, contract, transport.channel, old(transport.net))
  {
    if contract.revision != input.contract.revision { return Err(Changed); }
    var seen := transport.Read();
    if seen.None? { return Err(Lost); }
    if !StillReviewed(input, seen.value.review) { return Err(Changed); }
    if !seen.value.review.published {
      var sent := transport.Request(SourceWrite(seen.value.review));
      if sent.Err? { return Err(sent.error); }
    }
    var answer := transport.Request(PublishContract(input.candidate.id, contract.revision));
    if answer.Err? { return Err(answer.error); }
    var added := Added(answer.value);
    r := if added.Some? then Ok(added.value) else Err(Refused);
  }

  method AttachRevision(input: Input, api: Api, contract: ContractRow, published: Revision, transport: Transport)
    returns (r: Result<Revision, SetupError>)
    modifies transport
    ensures (transport.net, r) == AttachPublished(input, api, contract, published, transport.channel, old(transport.net))
  {
    var same := ReadApi(input, transport);
    if same.Err? { return Err(same.error); }
    var visibility := AttachmentVisibility(api, input.expected);
    var seen := transport.Read();
    if seen.None? { return Err(Lost); }
    var existing := FindAttached(seen.value.bindings, contract.id);
    if BindingMatches(existing, published, api, input.primary, visibility) { return Ok(published); }
    if !AsExpected(input, existing) { return Err(Changed); }
    if existing.Some? && (existing.value.deployment != api.deployment || existing.value.api != api.id) { return Err(Changed); }
    var answer := transport.Request(BindingWrite(input, api, published, existing));
    if answer.Err? { return Err(answer.error); }
    var saved := transport.Read();
    if saved.None? { return Err(Lost); }
    var attached := FindAttached(saved.value.bindings, contract.id);
    r := if BindingMatches(attached, published, api, input.primary, visibility) then Ok(published) else Err(Changed);
  }

  method FinishContractSetup(input: Input, transport: Transport) returns (r: Result<Revision, SetupError>)
    modifies transport
    ensures (transport.net, r) == Finish(input, transport.channel, old(transport.net))
  {
    var same := ReadApi(input, transport);
    if same.Err? { return Err(same.error); }
    var seen := transport.Read();
    if seen.None? { return Err(Lost); }
    var contract := seen.value.contract;
    if !SetupConsistent(input, contract) { return Err(Changed); }
    seen := transport.Read();
    if seen.None? { return Err(Lost); }
    var published := FindPublished(input, contract, seen.value.revisions);
    if published.None? {
      var added := PublishReviewedCandidate(input, contract, transport);
      if added.Err? { return Err(added.error); }
      published := Some(added.value);
    }
    if !PublishedAsReviewed(input, contract, published.value) { return Err(Changed); }
    if input.api.None? { return Ok(published.value); }
    r := AttachRevision(input, input.api.value, contract, published.value, transport);
  }
}
