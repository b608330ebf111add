/**
 Crawler processes over one shared database: claim, heartbeat, store, persist, complete
 and fail, interleaved with crashes, restarts, clock advance and administrative changes.

 Each transaction is one atomic step that reads a now() no later than the clock.  Worlds are
 what any sequence of steps makes of the empty one; a step that cannot be taken changes nothing.
 */
module CrawlProtocol {
  import opened Prelude
  import opened CrawlStore

  type Pid = nat

  // Where runOnce stands between two transactions.
  datatype Phase =
    | Collecting
    | Storing(result: Ingestion, stored: nat, changed: nat)
    | Persisting(result: Ingestion, changed: nat)
    | Completing(result: Ingestion, changed: nat)
    | Failing(result: Ingestion, error: Error)

  // `doomed` is the heartbeatFailure that assertOwned throws.
  datatype Session = Session(claim: Claim, phase: Phase, doomed: bool)

  datatype Proc = Proc(owner: string, session: Option<Session>)

  datatype World = World(clock: Time, procs: map<Pid, Proc>, db: Db)

  datatype Step =
    | Tick(elapsed: nat)
    | Start(pid: Pid, owner: string)
    | Crash(pid: Pid)
    | Enqueue(job: JobId, source: SourceId, kind: SourceKind)
    | ClaimJob(pid: Pid, job: JobId, began: Time, duration: nat, locked: set<JobId>)
    | Pulse(pid: Pid, began: Time, duration: nat)
    | Collected(pid: Pid, result: Ingestion, began: Time, duration: nat)
    | StorePage(pid: Pid, began: Time)
    | BeginPersist(pid: Pid, began: Time, duration: nat)
    | Persist(pid: Pid, began: Time)
    | CompleteJob(pid: Pid, began: Time, responseLost: bool)
    | Throw(pid: Pid, result: Ingestion, error: Error)
    | RecordFailure(pid: Pid, began: Time)
    | ReviewRun(job: JobId, publish: bool)
    | PublishDocument(key: DocKey)
    | PublishSource(source: SourceId)
    | AddSource(source: SourceId)
    | Bind(source: SourceId, contracts: seq<ContractId>)

  const NOTHING := Ingestion([], 1, 0)

  const EMPTY_DB := Db(map[], map[], map[], map[], map[], [], [], [], [], map[])

  const EMPTY_WORLD := World(0, map[], EMPTY_DB)

  // ---------------------------------------------------------------- one step

  function WithSession(w: World, pid: Pid, session: Option<Session>): World
    requires pid in w.procs
  {
    w.(procs := w.procs[pid := w.procs[pid].(session := session)])
  }

  function InPhase(w: World, pid: Pid, phase: Phase): World
    requires pid in w.procs && w.procs[pid].session.Some?
  {
    WithSession(w, pid, Some(w.procs[pid].session.value.(phase := phase)))
  }

  function NewJob(source: SourceId, kind: SourceKind, now: Time): JobRow {
    JobRow(source, kind, now, Queued, 1, "", None, 0, 0, 0, 0, None)
  }

  // The page URLs of a crawl are distinct, and the other kinds acquire at most one page.
  predicate ValidIngestion(kind: SourceKind, result: Ingestion) {
    DistinctUrls(result.pages) && (kind != Website ==> |result.pages| <= 1)
  }

  // The process a step belongs to, when it continues a session that process holds.
  function Worker(step: Step): Option<Pid> {
    match step
    case Pulse(pid, _, _) => Some(pid)
    case Collected(pid, _, _, _) => Some(pid)
    case StorePage(pid, _) => Some(pid)
    case BeginPersist(pid, _, _) => Some(pid)
    case Persist(pid, _) => Some(pid)
    case CompleteJob(pid, _, _) => Some(pid)
    case Throw(pid, _, _) => Some(pid)
    case RecordFailure(pid, _) => Some(pid)
    case _ => None
  }

  function Began(step: Step): Option<Time> {
    match step
    case ClaimJob(_, _, began, _, _) => Some(began)
    case Pulse(_, began, _) => Some(began)
    case Collected(_, _, began, _) => Some(began)
    case StorePage(_, began) => Some(began)
    case BeginPersist(_, began, _) => Some(began)
    case Persist(_, began) => Some(began)
    case CompleteJob(_, began, _) => Some(began)
    case RecordFailure(_, began) => Some(began)
    case _ => None
  }

  predicate Enabled(w: World, step: Step) {
    && (Worker(step).Some? ==> Worker(step).value in w.procs && w.procs[Worker(step).value].session.Some?)
    && (Began(step).Some? ==> Began(step).value <= w.clock)
  }

  function Apply(pipeline: Pipeline, w: World, step: Step): World {
    if !Enabled(w, step) then w
    else if Worker(step).Some? then Continue(pipeline, w, step, Worker(step).value)
    else if step.ClaimJob? then ClaimStep(w, step.pid, step.job, step.began, step.duration, step.locked)
    else if step.Tick? || step.Start? || step.Crash? then Environment(w, step)
    else w.(db := Administered(w.db, w.clock, step))
  }

  function ClaimStep(w: World, pid: Pid, job: JobId, began: Time, duration: nat, locked: set<JobId>): World {
    if pid in w.procs && w.procs[pid].session.None? && FirstClaimable(w.db, job, began, locked) then
      var (db, claim) := ClaimTx(w.db, job, w.procs[pid].owner, began, duration);
      WithSession(w.(db := db), pid, Some(Session(claim, Collecting, false)))
    else w
  }

  // Time passes, and processes come and go.
  function Environment(w: World, step: Step): World {
    match step
    case Tick(elapsed) => w.(clock := w.clock + elapsed)
    case Start(pid, owner) =>
      if pid in w.procs || owner == "" then w else w.(procs := w.procs[pid := Proc(owner, None)])
    case Crash(pid) => w.(procs := w.procs - {pid})
    case _ => w
  }

  // What the control plane commits beside the crawlers.
  function Administered(db: Db, clock: Time, step: Step): Db {
    match step
    case Enqueue(job, source, kind) =>
      if job in db.jobs then db else db.(jobs := db.jobs[job := NewJob(source, kind, clock)])
    case ReviewRun(job, publish) =>
      if job in db.runs && db.runs[job].state == ReviewReady then
        db.(runs := db.runs[job := db.runs[job].(state := if publish then RunPublished else RunCancelled)])
      else db
    case PublishDocument(key) =>
      if key in db.docs && db.docs[key].state == Validated then
        db.(docs := db.docs[key := db.docs[key].(state := Published, revision := db.docs[key].revision + 1)])
      else db
    case PublishSource(source) =>
      if source in db.sources && db.sources[source].state == Validated then
        db.(sources := db.sources[source := SourceRow(Published, db.sources[source].revision + 1)])
      else db
    case AddSource(source) =>
      if source in db.sources then db else db.(sources := db.sources[source := SourceRow(Validated, 1)])
    case Bind(source, contracts) => db.(bindings := db.bindings[source := contracts])
    case _ => db
  }

  predicate HoldsSession(w: World, pid: Pid) {
    pid in w.procs && w.procs[pid].session.Some?
  }

  // A step of the session that `pid` holds: processJob, its heartbeat timer, and failJob.
  function Continue(pipeline: Pipeline, w: World, step: Step, pid: Pid): World
    requires HoldsSession(w, pid)
  {
    match step
    case Pulse(_, began, duration) => PulseStep(w, pid, began, duration)
    case Collected(_, result, began, duration) => CollectedStep(w, pid, result, began, duration)
    case StorePage(_, began) => StorePageStep(w, pid, began)
    case BeginPersist(_, began, duration) => BeginPersistStep(w, pid, began, duration)
    case Persist(_, began) => PersistStep(pipeline, w, pid, began)
    case CompleteJob(_, began, responseLost) => CompleteJobStep(w, pid, began, responseLost)
    case Throw(_, result, error) => InPhase(w, pid, Failing(result, error))
    case RecordFailure(_, began) => RecordFailureStep(w, pid, began)
    case _ => w
  }

  // The heartbeat has failed, and the next assertHeld throws.
  function LeaseLostStep(w: World, pid: Pid): World
    requires HoldsSession(w, pid)
  {
    InPhase(w, pid, Failing(NOTHING, LeaseLost))
  }

  function PulseStep(w: World, pid: Pid, began: Time, duration: nat): World
    requires HoldsSession(w, pid)
  {
    var session := w.procs[pid].session.value;
    if session.doomed then w
    else
      match HeartbeatTx(w.db, session.claim, began, duration)
      case None => WithSession(w, pid, Some(session.(doomed := true)))
      case Some(db) => w.(db := db)
  }

  function CollectedStep(w: World, pid: Pid, result: Ingestion, began: Time, duration: nat): World
    requires HoldsSession(w, pid)
  {
    var session := w.procs[pid].session.value;
    if session.phase != Collecting || !ValidIngestion(session.claim.kind, result) then w
    else if session.doomed then LeaseLostStep(w, pid)
    else
      match HeartbeatTx(w.db, session.claim, began, duration)
      case None => LeaseLostStep(w, pid)
      case Some(db) => InPhase(w.(db := db), pid, Storing(result, 0, 0))
  }

  function StorePageStep(w: World, pid: Pid, began: Time): World
    requires HoldsSession(w, pid)
  {
    var session := w.procs[pid].session.value;
    var phase := session.phase;
    if !phase.Storing? || phase.stored >= |phase.result.pages| then w
    else if session.doomed then LeaseLostStep(w, pid)
    else AfterStore(w, pid, StorePageTx(w.db, session.claim, phase.result.pages[phase.stored], began))
  }

  function OneMoreStored(phase: Phase, changed: bool): Phase
    requires phase.Storing?
  {
    phase.(stored := phase.stored + 1, changed := if changed then phase.changed + 1 else phase.changed)
  }

  function AfterStore(w: World, pid: Pid, stored: Result<(Db, bool), Error>): World
    requires HoldsSession(w, pid) && w.procs[pid].session.value.phase.Storing?
  {
    match stored
    case Err(error) => InPhase(w, pid, Failing(NOTHING, error))
    case Ok((db, changed)) => InPhase(w.(db := db), pid, OneMoreStored(w.procs[pid].session.value.phase, changed))
  }

  function BeginPersistStep(w: World, pid: Pid, began: Time, duration: nat): World
    requires HoldsSession(w, pid)
  {
    var session := w.procs[pid].session.value;
    if !session.phase.Storing? || session.phase.stored < |session.phase.result.pages| then w
    else if session.doomed then LeaseLostStep(w, pid)
    else
      match HeartbeatTx(w.db, session.claim, began, duration)
      case None => LeaseLostStep(w, pid)
      case Some(db) => InPhase(w.(db := db), pid, Persisting(session.phase.result, session.phase.changed))
  }

  function PersistStep(pipeline: Pipeline, w: World, pid: Pid, began: Time): World
    requires HoldsSession(w, pid)
  {
    var session := w.procs[pid].session.value;
    if !session.phase.Persisting? then w
    else
      match PersistTx(pipeline, w.db, session.claim, session.phase.result, began)
      case Err(error) => InPhase(w, pid, Failing(NOTHING, error))
      case Ok((db, _)) => InPhase(w.(db := db), pid, Completing(session.phase.result, session.phase.changed))
  }

  function CompleteJobStep(w: World, pid: Pid, began: Time, responseLost: bool): World
    requires HoldsSession(w, pid)
  {
    var session := w.procs[pid].session.value;
    if !session.phase.Completing? then w
    else if session.doomed then LeaseLostStep(w, pid)
    else
      match CompleteTx(w.db, session.claim, session.phase.result, session.phase.changed, began)
      case Err(error) => InPhase(w, pid, Failing(NOTHING, error))
      case Ok(db) =>
        if responseLost then InPhase(w.(db := db), pid, Failing(NOTHING, Unexpected))
        else WithSession(w.(db := db), pid, None)
  }

  function RecordFailureStep(w: World, pid: Pid, began: Time): World
    requires HoldsSession(w, pid)
  {
    var session := w.procs[pid].session.value;
    if !session.phase.Failing? then w
    else
      match FailTx(w.db, session.claim, session.phase.result, session.phase.error, began)
      case None => WithSession(w, pid, None)
      case Some(db) => WithSession(w.(db := db), pid, None)
  }

  // ---------------------------------------------------------------- runs

  // A process is only started under an owner id that no live process uses.
  predicate WellConfigured(w: World, step: Step) {
    step.Start? ==> forall pid :: pid in w.procs ==> w.procs[pid].owner != step.owner
  }

  function Exec(pipeline: Pipeline, w: World, steps: seq<Step>): World {
    if steps == [] then w
    else Apply(pipeline, Exec(pipeline, w, steps[..|steps| - 1]), steps[|steps| - 1])
  }

  ghost predicate WellConfiguredRun(pipeline: Pipeline, w: World, steps: seq<Step>) {
    steps != [] ==>
      && WellConfiguredRun(pipeline, w, steps[..|steps| - 1])
      && WellConfigured(Exec(pipeline, w, steps[..|steps| - 1]), steps[|steps| - 1])
  }

  // ---------------------------------------------------------------- what every step keeps

  ghost predicate DistinctOwners(w: World) {
    && (forall p :: p in w.procs ==> w.procs[p].owner != "")
    && forall p, q :: p in w.procs && q in w.procs && p != q ==> w.procs[p].owner != w.procs[q].owner
  }

  // The session's attempt is the one on the row, and the row is still its own.
  predicate Current(db: Db, claim: Claim) {
    && claim.job in db.jobs
    && db.jobs[claim.job].state == Running
    && db.jobs[claim.job].owner == claim.owner
    && db.jobs[claim.job].attempt == claim.attempt
  }

  predicate ClaimMatches(db: Db, owner: string, claim: Claim) {
    && claim.owner == owner && owner != ""
    && claim.job in db.jobs
    && var row := db.jobs[claim.job];
    && row.source == claim.source && row.kind == claim.kind
    && claim.attempt <= row.attempt && row.state != Queued
    && (row.owner == owner ==> row.attempt == claim.attempt)
    && (row.state == Running && row.attempt == claim.attempt ==> row.owner == owner)
  }

  function LinkedKeys(db: Db, job: JobId): set<DocKey> {
    set link | link in db.links && link.0 == job :: link.1
  }

  function PageKeys(source: SourceId, pages: seq<Page>): set<DocKey> {
    set i | 0 <= i < |pages| :: KeyOf(source, pages[i])
  }

  // While a session is current, the links of its job are exactly those of the pages it has stored.
  predicate ProgressMatches(db: Db, session: Session) {
    var claim := session.claim;
    match session.phase
    case Collecting => Current(db, claim) ==> LinkedKeys(db, claim.job) == {}
    case Storing(result, stored, _) =>
      && ValidIngestion(claim.kind, result) && stored <= |result.pages|
      && (Current(db, claim) ==> LinkedKeys(db, claim.job) == PageKeys(claim.source, result.pages[..stored]))
    case Persisting(result, _) =>
      && ValidIngestion(claim.kind, result)
      && (Current(db, claim) ==> LinkedKeys(db, claim.job) == PageKeys(claim.source, result.pages))
    case Completing(result, _) =>
      && ValidIngestion(claim.kind, result)
      && (Current(db, claim) ==>
            && LinkedKeys(db, claim.job) == PageKeys(claim.source, result.pages)
            && (claim.kind == Website ==>
                  claim.job in db.runs && db.runs[claim.job].manifest == ManifestOf(result.pages)))
    case Failing(_, _) => true
  }

  ghost predicate SessionsMatch(w: World) {
    forall pid :: pid in w.procs && w.procs[pid].session.Some? ==>
      && ClaimMatches(w.db, w.procs[pid].owner, w.procs[pid].session.value.claim)
      && ProgressMatches(w.db, w.procs[pid].session.value)
  }

  // Every document link was written by the attempt that is now on its job's row.
  ghost predicate LinksStamped(db: Db) {
    forall link :: link in db.links ==>
      && link.0 in db.jobs && db.jobs[link.0].state != Queued
      && db.links[link].writer == db.jobs[link.0].attempt
  }

  ghost predicate RowsWellFormed(db: Db) {
    forall job :: job in db.jobs ==> (db.jobs[job].state == Running <==> db.jobs[job].owner != "")
  }

  // A job in review has one link for each page it fetched; a website job has a typed run for exactly those pages.
  ghost predicate ReviewComplete(db: Db) {
    forall job :: job in db.jobs && db.jobs[job].state == Review ==>
      && |LinkedKeys(db, job)| == db.jobs[job].fetched
      && (db.jobs[job].kind == Website ==>
            job in db.runs && LinkedKeys(db, job) == ManifestKeys(db.jobs[job].source, db.runs[job].manifest))
  }

  function ManifestKeys(source: SourceId, manifest: Manifest): set<DocKey> {
    set url | url in manifest :: KeyOf(source, manifest[url])
  }

  // The run acquired just this page, and its one candidate is the contract that the page holds.
  predicate CandidateOfPage(pipeline: Pipeline, job: JobId, target: ContractId, manifest: Manifest,
                            candidates: seq<Output>, page: Page)
  {
    && manifest == map[page.url := page] && pipeline.contract(page.html).Some?
    && candidates == [CandidateRow(job, target, pipeline.contract(page.html).value)]
  }

  // The typed output of a run of this asset and manifest, complete and once.
  ghost predicate FullRows(pipeline: Pipeline, job: JobId, asset: Asset, manifest: Manifest,
                           documents: seq<Output>, sections: seq<Output>, maps: seq<Output>, candidates: seq<Output>)
  {
    match asset
    case Documentation(_) =>
      && documents == DocumentRows(job, pipeline.corpus(manifest).documents)
      && sections == SectionRows(job, pipeline.corpus(manifest).sections)
      && maps == [MapRow(job)] && candidates == []
    case Contract(target) =>
      && documents == sections == maps == []
      && exists page :: CandidateOfPage(pipeline, job, target, manifest, candidates, page)
  }

  ghost predicate FullOutput(pipeline: Pipeline, db: Db, job: JobId)
    requires job in db.runs
  {
    FullRows(pipeline, job, db.runs[job].asset, db.runs[job].manifest,
             RowsOf(db.documents, job), RowsOf(db.sections, job), RowsOf(db.maps, job), RowsOf(db.candidates, job))
  }

  ghost predicate NoOutput(db: Db, job: JobId) {
    RowsOf(db.documents, job) == RowsOf(db.sections, job) == RowsOf(db.maps, job) == RowsOf(db.candidates, job) == []
  }

  // A committed run is past its running state and has its output; no run, no output.
  ghost predicate RunComplete(pipeline: Pipeline, db: Db, job: JobId) {
    if job in db.runs then
      && job in db.jobs && db.runs[job].source == db.jobs[job].source
      && db.runs[job].state in {ReviewReady, RunPublished, RunCancelled}
      && FullOutput(pipeline, db, job)
    else NoOutput(db, job)
  }

  ghost predicate RunsComplete(pipeline: Pipeline, db: Db) {
    forall job :: RunComplete(pipeline, db, job)
  }

  ghost predicate CandidatesUnique(db: Db) {
    && (forall row :: row in db.candidates ==> row.CandidateRow?)
    && (forall i, j :: 0 <= i < j < |db.candidates| ==>
          db.candidates[i].CandidateRow? && db.candidates[j].CandidateRow? ==>
          !(db.candidates[i].contract == db.candidates[j].contract && db.candidates[i].content == db.candidates[j].content))
  }

  ghost predicate DbInv(pipeline: Pipeline, db: Db) {
    && RowsWellFormed(db) && LinksStamped(db) && ReviewComplete(db)
    && RunsComplete(pipeline, db) && CandidatesUnique(db)
  }

  ghost predicate Inv(pipeline: Pipeline, w: World) {
    DistinctOwners(w) && SessionsMatch(w) && DbInv(pipeline, w.db)
  }
}
