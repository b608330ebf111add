/**
 The database side of the crawler: the rows of the crawl and ingestion tables and the
 transactions of crawler/index.ts and crawler/candidate-persistence.ts.

 Every transaction is a function from the database it commits on to its result; an error
 stands for ROLLBACK and carries no new database.  `began` is the value of now(), which
 Postgres fixes when the transaction starts.  Hashes are injective, so a hash is modelled
 by the value it was taken of.
 */
module CrawlStore {
  import opened Prelude

  type JobId = nat
  type SourceId = nat
  type ContractId = nat
  type Time = int

  // ---------------------------------------------------------------- rows

  datatype SourceKind = Website | Upload | OpenApi | Git

  datatype JobState = Queued | Running | Review | Failed

  datatype JobRow = JobRow(
    source: SourceId, kind: SourceKind, queuedAt: Time,
    state: JobState, attempt: nat, owner: string, expires: Option<Time>,
    fetched: nat, changed: nat, failed: nat, skipped: nat, error: Option<Error>)

  datatype Lifecycle = Validated | Quarantined | Published

  // Url and content hash identify a snapshot of a source, and a snapshot its document.
  datatype DocKey = DocKey(source: SourceId, url: string, html: string)

  datatype Assessment = Assessment(rendered: bool, indicators: seq<string>)

  datatype DocRow = DocRow(
    snapshot: Assessment, state: Lifecycle, trust: int, indicators: seq<string>, revision: nat)

  // `writer` is a history variable: the attempt whose worker wrote the row.  The table has no such column.
  datatype Link = Link(changed: bool, state: Lifecycle, trust: int, indicators: seq<string>, writer: nat)

  datatype SourceRow = SourceRow(state: Lifecycle, revision: nat)

  datatype RunState = RunQueued | RunRunning | ReviewReady | RunFailed | RunCancelled | RunPublished

  datatype Asset = Documentation(source: SourceId) | Contract(target: ContractId)

  datatype RunRow = RunRow(
    source: SourceId, asset: Asset, state: RunState, attempt: nat, owner: string,
    manifest: Manifest)

  // A row of one of the four typed output tables.
  datatype Output =
    | DocumentRow(run: JobId, document: string)
    | SectionRow(run: JobId, document: string, section: string)
    | MapRow(run: JobId)
    | CandidateRow(run: JobId, contract: ContractId, content: string)

  datatype Db = Db(
    jobs: map<JobId, JobRow>,
    links: map<(JobId, DocKey), Link>,
    docs: map<DocKey, DocRow>,
    sources: map<SourceId, SourceRow>,
    runs: map<JobId, RunRow>,
    documents: seq<Output>,
    sections: seq<Output>,
    maps: seq<Output>,
    candidates: seq<Output>,
    bindings: map<SourceId, seq<ContractId>>)

  // ---------------------------------------------------------------- values a worker carries

  datatype Page = Page(url: string, title: string, html: string, rendered: bool, indicators: seq<string>)

  // The URL-sorted list of manifest entries, as the map that it lists.
  type Manifest = map<string, Page>

  datatype Ingestion = Ingestion(pages: seq<Page>, failed: nat, skipped: nat)

  datatype Claim = Claim(job: JobId, source: SourceId, kind: SourceKind, owner: string, attempt: nat)

  datatype Corpus = Corpus(documents: seq<string>, sections: seq<(string, string)>)

  // What the ingestion pipeline computes: deterministic functions of the acquired pages.
  datatype Pipeline = Pipeline(corpus: Manifest -> Corpus, contract: string -> Option<string>)

  datatype Error =
    | LeaseLost | SourceGone | RunConflict | RunIncomplete
    | BindingAmbiguous | DocumentInvalid | Unexpected

  datatype Outcome = Persisted | AlreadyPersisted | PendingTarget | UnchangedContract

  function ManifestOf(pages: seq<Page>): Manifest {
    if pages == [] then map[]
    else
      var last := pages[|pages| - 1];
      ManifestOf(pages[..|pages| - 1])[last.url := last]
  }

  predicate DistinctUrls(pages: seq<Page>) {
    forall i, j :: 0 <= i < j < |pages| ==> pages[i].url != pages[j].url
  }

  function KeyOf(source: SourceId, page: Page): DocKey {
    DocKey(source, page.url, page.html)
  }

  // ---------------------------------------------------------------- the lease guard

  // state = 'running' AND lease_owner = $2 AND lease_expires_at > now()
  predicate Owned(db: Db, job: JobId, owner: string, began: Time) {
    && job in db.jobs
    && var row := db.jobs[job];
    && row.state == Running && row.owner == owner
    && row.expires.Some? && began < row.expires.value
  }

  // ---------------------------------------------------------------- claimJob

  predicate Claimable(row: JobRow, began: Time) {
    || row.state == Queued
    || (row.state == Running && (row.expires.None? || row.expires.value <= began))
  }

  predicate Precedes(a: JobId, rowA: JobRow, b: JobId, rowB: JobRow) {
    rowA.queuedAt < rowB.queuedAt || (rowA.queuedAt == rowB.queuedAt && a <= b)
  }

  // ORDER BY queued_at, id FOR UPDATE SKIP LOCKED LIMIT 1
  predicate FirstClaimable(db: Db, job: JobId, began: Time, locked: set<JobId>) {
    && job in db.jobs && job !in locked && Claimable(db.jobs[job], began)
    && (forall other :: other in db.jobs && other !in locked && Claimable(db.jobs[other], began)
                        ==> Precedes(job, db.jobs[job], other, db.jobs[other]))
  }

  function ClaimedRow(row: JobRow, owner: string, expires: Time): JobRow {
    row.(state := Running,
         attempt := if row.state == Running then row.attempt + 1 else row.attempt,
         owner := owner, expires := Some(expires),
         fetched := 0, changed := 0, failed := 0, skipped := 0, error := None)
  }

  function WithoutLinks(links: map<(JobId, DocKey), Link>, job: JobId): map<(JobId, DocKey), Link> {
    map key | key in links && key.0 != job :: links[key]
  }

  function ClaimTx(db: Db, job: JobId, owner: string, began: Time, duration: nat): (Db, Claim)
    requires job in db.jobs
  {
    var before := db.jobs[job];
    var row := ClaimedRow(before, owner, began + duration);
    (db.(jobs := db.jobs[job := row],
         links := if before.state == Running then WithoutLinks(db.links, job) else db.links),
     Claim(job, row.source, row.kind, owner, row.attempt))
  }

  // ---------------------------------------------------------------- heartbeatJob

  function HeartbeatTx(db: Db, claim: Claim, began: Time, duration: nat): Option<Db> {
    if Owned(db, claim.job, claim.owner, began) then
      Some(db.(jobs := db.jobs[claim.job := db.jobs[claim.job].(expires := Some(began + duration))]))
    else None
  }

  // ---------------------------------------------------------------- storePageWithReference

  function StoredDoc(existing: Option<DocRow>, page: Page): (result: (DocRow, bool)) {
    var assessment := Assessment(page.rendered, page.indicators);
    var trust := if |page.indicators| > 0 then 10 else 70;
    match existing
    case None =>
      (DocRow(assessment, if |page.indicators| > 0 then Quarantined else Validated, trust, page.indicators, 1), true)
    case Some(row) =>
      var state := if |page.indicators| > 0 then Quarantined
                   else if row.state == Published then Published else Validated;
      var reassessed := row.state != state || row.trust != trust || row.indicators != page.indicators;
      (DocRow(assessment, state, trust, page.indicators, if reassessed then row.revision + 1 else row.revision),
       row.snapshot != assessment || reassessed)
  }

  function StorePageTx(db: Db, claim: Claim, page: Page, began: Time): Result<(Db, bool), Error> {
    if !Owned(db, claim.job, claim.owner, began) then Err(LeaseLost)
    else if claim.source !in db.sources then Err(SourceGone)
    else
      var key := KeyOf(claim.source, page);
      var existing := if key in db.docs then Some(db.docs[key]) else None;
      var (doc, changed) := StoredDoc(existing, page);
      Ok((db.(docs := db.docs[key := doc],
              links := db.links[(claim.job, key) :=
                                  Link(changed, doc.state, doc.trust, doc.indicators, claim.attempt)]),
          changed))
  }

  // ---------------------------------------------------------------- completeJob, failJob

  predicate MustQuarantine(result: Ingestion) {
    result.failed > 0 || result.skipped > 0 || exists i :: 0 <= i < |result.pages| && |result.pages[i].indicators| > 0
  }

  function AssessedSource(row: SourceRow, result: Ingestion, changed: nat): SourceRow {
    var target := if MustQuarantine(result) then Quarantined
                  else if row.state == Published then Published else Validated;
    if row.state != target || changed > 0 then SourceRow(target, row.revision + 1) else row
  }

  function CompleteTx(db: Db, claim: Claim, result: Ingestion, changed: nat, began: Time): Result<Db, Error> {
    if !Owned(db, claim.job, claim.owner, began) then Err(LeaseLost)
    else
      Ok(db.(sources := if claim.source in db.sources
                        then db.sources[claim.source := AssessedSource(db.sources[claim.source], result, changed)]
                        else db.sources,
             jobs := db.jobs[claim.job := db.jobs[claim.job].(
                               state := Review, owner := "", expires := None, error := None,
                               fetched := |result.pages|, changed := changed,
                               failed := result.failed, skipped := result.skipped)]))
  }

  // failJob leaves changed_count alone; `result` is what an IngestionRunError carried, or a single failure.
  function FailTx(db: Db, claim: Claim, result: Ingestion, error: Error, began: Time): Option<Db> {
    if !Owned(db, claim.job, claim.owner, began) then None
    else
      Some(db.(jobs := db.jobs[claim.job := db.jobs[claim.job].(
                                 state := Failed, owner := "", expires := None, error := Some(error),
                                 fetched := |result.pages|,
                                 failed := if result.failed < 1 then 1 else result.failed,
                                 skipped := result.skipped)]))
  }

  // ---------------------------------------------------------------- persistDeveloperAssetCandidates

  datatype RunProgress = Proceed(db: Db) | Complete

  predicate RunIdentityMatches(run: RunRow, claim: Claim, asset: Asset) {
    run.source == claim.source && run.asset == asset
  }

  function EnsureRunningRun(db: Db, claim: Claim, asset: Asset, manifest: Manifest, began: Time)
    : Result<RunProgress, Error>
  {
    var inserted :=
      if claim.job !in db.runs && Owned(db, claim.job, claim.owner, began) then
        db.(runs := db.runs[claim.job := RunRow(claim.source, asset, RunRunning, claim.attempt, claim.owner, manifest)])
      else db;
    if claim.job !in inserted.runs then Err(RunConflict)
    else
      var run := inserted.runs[claim.job];
      if !RunIdentityMatches(run, claim, asset) then Err(RunConflict)
      else if run.state == ReviewReady || run.state == RunPublished then
        if run.manifest != manifest then Err(RunConflict) else Ok(Complete)
      else if run.state != RunQueued && run.state != RunRunning then Err(RunConflict)
      else if run.attempt != claim.attempt then Err(RunConflict)
      else
        Ok(Proceed(inserted.(runs := inserted.runs[claim.job :=
                                                     run.(state := RunRunning, manifest := manifest, owner := claim.owner)])))
  }

  function MarkReviewReady(db: Db, claim: Claim, began: Time): Result<Db, Error>
    requires claim.job in db.runs
  {
    var run := db.runs[claim.job];
    if !Owned(db, claim.job, claim.owner, began) || run.state != RunRunning || run.owner != claim.owner then Err(LeaseLost)
    else Ok(db.(runs := db.runs[claim.job := run.(state := ReviewReady, owner := "")]))
  }

  function DocumentRows(job: JobId, documents: seq<string>): seq<Output> {
    seq(|documents|, i requires 0 <= i < |documents| => DocumentRow(job, documents[i]))
  }

  function SectionRows(job: JobId, sections: seq<(string, string)>): seq<Output> {
    seq(|sections|, i requires 0 <= i < |sections| => SectionRow(job, sections[i].0, sections[i].1))
  }

  // The rows that carry this run id, in insertion order.
  function RowsOf(rows: seq<Output>, job: JobId): seq<Output> {
    if rows == [] then []
    else
      var last := rows[|rows| - 1];
      RowsOf(rows[..|rows| - 1], job) + (if last.run == job then [last] else [])
  }

  predicate DocumentationOutputExists(db: Db, job: JobId, corpus: Corpus) {
    && |RowsOf(db.documents, job)| == |corpus.documents|
    && |RowsOf(db.sections, job)| == |corpus.sections|
    && |RowsOf(db.maps, job)| == 1
  }

  function WithDocumentation(db: Db, job: JobId, corpus: Corpus): Db {
    db.(documents := db.documents + DocumentRows(job, corpus.documents),
        sections := db.sections + SectionRows(job, corpus.sections),
        maps := db.maps + [MapRow(job)])
  }

  function PersistDocumentation(pipeline: Pipeline, db: Db, claim: Claim, result: Ingestion, began: Time)
    : Result<(Db, Outcome), Error>
  {
    var manifest := ManifestOf(result.pages);
    var corpus := pipeline.corpus(manifest);
    match EnsureRunningRun(db, claim, Documentation(claim.source), manifest, began)
    case Err(error) => Err(error)
    case Ok(Complete) =>
      if DocumentationOutputExists(db, claim.job, corpus) then Ok((db, AlreadyPersisted)) else Err(RunIncomplete)
    case Ok(Proceed(started)) =>
      match MarkReviewReady(WithDocumentation(started, claim.job, corpus), claim, began)
      case Err(error) => Err(error)
      case Ok(ready) => Ok((ready, Persisted))
  }

  // The active contracts bound to the source, in id order: none, one, or an error.
  function ResolveContractTarget(db: Db, source: SourceId): Result<Option<ContractId>, Error> {
    var bound := if source in db.bindings then db.bindings[source] else [];
    if |bound| > 1 then Err(BindingAmbiguous)
    else if |bound| == 0 then Ok(None)
    else Ok(Some(bound[0]))
  }

  predicate CandidateExists(db: Db, target: ContractId, content: string) {
    exists row :: row in db.candidates && row.CandidateRow? && row.contract == target && row.content == content
  }

  function RowsForTarget(rows: seq<Output>, job: JobId, target: ContractId): seq<Output> {
    if rows == [] then []
    else
      var last := rows[|rows| - 1];
      RowsForTarget(rows[..|rows| - 1], job, target)
      + (if last.run == job && last.CandidateRow? && last.contract == target then [last] else [])
  }

  function PersistOpenApi(pipeline: Pipeline, db: Db, claim: Claim, result: Ingestion, target: ContractId, began: Time)
    : Result<(Db, Outcome), Error>
  {
    if |result.pages| == 0 || pipeline.contract(result.pages[0].html).None? then Err(DocumentInvalid)
    else
      var content := pipeline.contract(result.pages[0].html).value;
      if CandidateExists(db, target, content) then Ok((db, UnchangedContract))
      else
        match EnsureRunningRun(db, claim, Contract(target), ManifestOf(result.pages), began)
        case Err(error) => Err(error)
        case Ok(Complete) =>
          if |RowsForTarget(db.candidates, claim.job, target)| == 1
          then Ok((db, AlreadyPersisted)) else Err(RunIncomplete)
        case Ok(Proceed(started)) =>
          var written := started.(candidates := started.candidates + [CandidateRow(claim.job, target, content)]);
          match MarkReviewReady(written, claim, began)
          case Err(error) => Err(error)
          case Ok(ready) => Ok((ready, Persisted))
  }

  function PersistTx(pipeline: Pipeline, db: Db, claim: Claim, result: Ingestion, began: Time)
    : Result<(Db, Outcome), Error>
  {
    if claim.kind == Git then Ok((db, PendingTarget))
    else if !Owned(db, claim.job, claim.owner, began) then Err(LeaseLost)
    else if claim.kind == Website then PersistDocumentation(pipeline, db, claim, result, began)
    else
      match ResolveContractTarget(db, claim.source)
      case Err(error) => Err(error)
      case Ok(None) =>
        if claim.kind == OpenApi then Ok((db, PendingTarget))
        else PersistDocumentation(pipeline, db, claim, result, began)
      case Ok(Some(target)) => PersistOpenApi(pipeline, db, claim, result, target, began)
  }
}
