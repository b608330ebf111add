/** What holds in every run of the crawl protocol. */
module CrawlTheorems {
  import opened Prelude
  import opened CrawlStore
  import opened CrawlProtocol
  import opened CrawlProofs

  // ---------------------------------------------------------------- each step keeps the invariant

  lemma SessionChangeKeeps(pipeline: Pipeline, w: World, pid: Pid, session: Option<Session>)
    requires Inv(pipeline, w) && HoldsSession(w, pid)
    requires session.Some? ==>
               && session.value.claim == w.procs[pid].session.value.claim
               && ProgressMatches(w.db, session.value)
    ensures Inv(pipeline, WithSession(w, pid, session))
  {
    var next := WithSession(w, pid, session);
    assert ClaimMatches(w.db, w.procs[pid].owner, w.procs[pid].session.value.claim);
    forall p | p in next.procs && next.procs[p].session.Some?
      ensures ClaimMatches(next.db, next.procs[p].owner, next.procs[p].session.value.claim)
      ensures ProgressMatches(next.db, next.procs[p].session.value)
    {
    }
  }

  // A committed transaction of the session's own job, after which the session is `session`.
  lemma CommitKeeps(pipeline: Pipeline, w: World, pid: Pid, db: Db, session: Option<Session>)
    requires Inv(pipeline, w) && HoldsSession(w, pid)
    requires var claim := w.procs[pid].session.value.claim;
             && Current(w.db, claim) && DbInv(pipeline, db) && TouchesOnly(w.db, db, claim.job) && claim.job in db.jobs
             && db.jobs[claim.job].owner in {"", claim.owner} && db.jobs[claim.job].state != Queued
             && db.jobs[claim.job].attempt == claim.attempt
             && db.jobs[claim.job].source == claim.source && db.jobs[claim.job].kind == claim.kind
             && (session.Some? ==> session.value.claim == claim && ProgressMatches(db, session.value))
    ensures Inv(pipeline, WithSession(w.(db := db), pid, session))
  {
    assert ClaimMatches(w.db, w.procs[pid].owner, w.procs[pid].session.value.claim);
    SessionsKept(w, WithSession(w.(db := db), pid, session), pid, w.procs[pid].session.value.claim.job);
  }

  lemma HeartbeatKeeps(pipeline: Pipeline, w: World, pid: Pid, began: Time, duration: nat, session: Session)
    requires Inv(pipeline, w) && HoldsSession(w, pid)
    requires session.claim == w.procs[pid].session.value.claim
    requires ClaimMatches(w.db, w.procs[pid].owner, session.claim)
    requires HeartbeatTx(w.db, session.claim, began, duration).Some?
    requires ProgressMatches(w.db, session)
    ensures Inv(pipeline, WithSession(w.(db := HeartbeatTx(w.db, session.claim, began, duration).value), pid, Some(session)))
  {
    var db := HeartbeatTx(w.db, session.claim, began, duration).value;
    HeartbeatKeepsDb(pipeline, w.db, session.claim, began, duration);
    assert LinkedKeys(db, session.claim.job) == LinkedKeys(w.db, session.claim.job);
    CommitKeeps(pipeline, w, pid, db, Some(session));
  }

  lemma PulseKeeps(pipeline: Pipeline, w: World, pid: Pid, began: Time, duration: nat)
    requires Inv(pipeline, w) && HoldsSession(w, pid)
    ensures Inv(pipeline, PulseStep(w, pid, began, duration))
  {
    var session := w.procs[pid].session.value;
    assert ClaimMatches(w.db, w.procs[pid].owner, session.claim);
    if !session.doomed {
      if HeartbeatTx(w.db, session.claim, began, duration).Some? {
        var db := HeartbeatTx(w.db, session.claim, began, duration).value;
        HeartbeatKeeps(pipeline, w, pid, began, duration, session);
        assert WithSession(w.(db := db), pid, Some(session)) == w.(db := db);
      } else {
        SessionChangeKeeps(pipeline, w, pid, Some(session.(doomed := true)));
      }
    }
  }

  lemma FailingKeeps(pipeline: Pipeline, w: World, pid: Pid, result: Ingestion, error: Error)
    requires Inv(pipeline, w) && HoldsSession(w, pid)
    ensures Inv(pipeline, InPhase(w, pid, Failing(result, error)))
  {
    SessionChangeKeeps(pipeline, w, pid, Some(w.procs[pid].session.value.(phase := Failing(result, error))));
  }

  lemma CollectedKeeps(pipeline: Pipeline, w: World, pid: Pid, result: Ingestion, began: Time, duration: nat)
    requires Inv(pipeline, w) && HoldsSession(w, pid)
    ensures Inv(pipeline, CollectedStep(w, pid, result, began, duration))
  {
    var session := w.procs[pid].session.value;
    FailingKeeps(pipeline, w, pid, NOTHING, LeaseLost);
    assert ClaimMatches(w.db, w.procs[pid].owner, session.claim) && ProgressMatches(w.db, session);
    if session.phase == Collecting && ValidIngestion(session.claim.kind, result)
       && HeartbeatTx(w.db, session.claim, began, duration).Some? {
      assert PageKeys(session.claim.source, result.pages[..0]) == {};
      HeartbeatKeeps(pipeline, w, pid, began, duration, session.(phase := Storing(result, 0, 0)));
    }
  }

  // The stored page is the only new link.
  lemma StoredProgress(pipeline: Pipeline, db: Db, session: Session, began: Time, phase: Phase)
    requires DbInv(pipeline, db) && ProgressMatches(db, session) && session.phase.Storing?
    requires session.phase.stored < |session.phase.result.pages| && Current(db, session.claim)
    requires phase.Storing? && phase.result == session.phase.result && phase.stored == session.phase.stored + 1
    requires session.claim.source == db.jobs[session.claim.job].source
    requires StorePageTx(db, session.claim, phase.result.pages[session.phase.stored], began).Ok?
    ensures var next := StorePageTx(db, session.claim, phase.result.pages[session.phase.stored], began).value.0;
            && DbInv(pipeline, next) && TouchesOnly(db, next, session.claim.job) && next.jobs == db.jobs
            && ProgressMatches(next, session.(phase := phase))
  {
    var claim, page := session.claim, phase.result.pages[session.phase.stored];
    StoreKeepsDb(pipeline, db, claim, page, began);
    PageKeysExtend(claim.source, phase.result.pages, session.phase.stored);
  }

  // A transaction that leaves the job rows alone.
  lemma CommitPhaseKeeps(pipeline: Pipeline, w: World, pid: Pid, db: Db, phase: Phase)
    requires Inv(pipeline, w) && HoldsSession(w, pid) && Current(w.db, w.procs[pid].session.value.claim)
    requires DbInv(pipeline, db) && TouchesOnly(w.db, db, w.procs[pid].session.value.claim.job) && db.jobs == w.db.jobs
    requires ProgressMatches(db, w.procs[pid].session.value.(phase := phase))
    ensures Inv(pipeline, InPhase(w.(db := db), pid, phase))
  {
    var session := w.procs[pid].session.value;
    assert ClaimMatches(w.db, w.procs[pid].owner, session.claim);
    CommitKeeps(pipeline, w, pid, db, Some(session.(phase := phase)));
  }

  lemma PageStoredKeeps(pipeline: Pipeline, w: World, pid: Pid, began: Time)
    requires Inv(pipeline, w) && HoldsSession(w, pid)
    requires var phase := w.procs[pid].session.value.phase; phase.Storing? && phase.stored < |phase.result.pages|
    requires var session := w.procs[pid].session.value;
             StorePageTx(w.db, session.claim, session.phase.result.pages[session.phase.stored], began).Ok?
    ensures var session := w.procs[pid].session.value;
            var stored := StorePageTx(w.db, session.claim, session.phase.result.pages[session.phase.stored], began).value;
            Inv(pipeline, InPhase(w.(db := stored.0), pid, OneMoreStored(session.phase, stored.1)))
  {
    var session := w.procs[pid].session.value;
    var claim, phase := session.claim, session.phase;
    assert ClaimMatches(w.db, w.procs[pid].owner, claim) && ProgressMatches(w.db, session);
    var (db, changed) := StorePageTx(w.db, claim, phase.result.pages[phase.stored], began).value;
    OwnedIsCurrent(w.db, w.procs[pid].owner, claim, began);
    StoredProgress(pipeline, w.db, session, began, OneMoreStored(phase, changed));
    CommitPhaseKeeps(pipeline, w, pid, db, OneMoreStored(phase, changed));
  }

  lemma StorePageKeeps(pipeline: Pipeline, w: World, pid: Pid, began: Time)
    requires Inv(pipeline, w) && HoldsSession(w, pid)
    ensures Inv(pipeline, StorePageStep(w, pid, began))
  {
    var session := w.procs[pid].session.value;
    var phase := session.phase;
    if phase.Storing? && phase.stored < |phase.result.pages| {
      if session.doomed {
        FailingKeeps(pipeline, w, pid, NOTHING, LeaseLost);
      } else {
        var stored := StorePageTx(w.db, session.claim, phase.result.pages[phase.stored], began);
        if stored.Ok? {
          PageStoredKeeps(pipeline, w, pid, began);
        } else {
          FailingKeeps(pipeline, w, pid, NOTHING, stored.error);
        }
      }
    }
  }

  lemma BeginPersistKeeps(pipeline: Pipeline, w: World, pid: Pid, began: Time, duration: nat)
    requires Inv(pipeline, w) && HoldsSession(w, pid)
    ensures Inv(pipeline, BeginPersistStep(w, pid, began, duration))
  {
    var session := w.procs[pid].session.value;
    FailingKeeps(pipeline, w, pid, NOTHING, LeaseLost);
    assert ClaimMatches(w.db, w.procs[pid].owner, session.claim) && ProgressMatches(w.db, session);
    if session.phase.Storing? && session.phase.stored == |session.phase.result.pages|
       && HeartbeatTx(w.db, session.claim, began, duration).Some? {
      var result := session.phase.result;
      assert result.pages[..|result.pages|] == result.pages;
      HeartbeatKeeps(pipeline, w, pid, began, duration, session.(phase := Persisting(result, session.phase.changed)));
    }
  }

  lemma PersistKeeps(pipeline: Pipeline, w: World, pid: Pid, began: Time)
    requires Inv(pipeline, w) && HoldsSession(w, pid)
    ensures Inv(pipeline, PersistStep(pipeline, w, pid, began))
  {
    var session := w.procs[pid].session.value;
    var claim := session.claim;
    assert ClaimMatches(w.db, w.procs[pid].owner, claim) && ProgressMatches(w.db, session);
    if session.phase.Persisting? {
      match PersistTx(pipeline, w.db, claim, session.phase.result, began) {
        case Err(error) => FailingKeeps(pipeline, w, pid, NOTHING, error);
        case Ok((db, _)) =>
          PersistKeepsDb(pipeline, w.db, claim, session.phase.result, began);
          assert LinkedKeys(db, claim.job) == LinkedKeys(w.db, claim.job);
          var done := session.(phase := Completing(session.phase.result, session.phase.changed));
          if db == w.db {
            SessionChangeKeeps(pipeline, w, pid, Some(done));
          } else {
            OwnedIsCurrent(w.db, w.procs[pid].owner, claim, began);
            CommitKeeps(pipeline, w, pid, db, Some(done));
          }
      }
    }
  }

  lemma CompleteJobKeeps(pipeline: Pipeline, w: World, pid: Pid, began: Time, responseLost: bool)
    requires Inv(pipeline, w) && HoldsSession(w, pid)
    ensures Inv(pipeline, CompleteJobStep(w, pid, began, responseLost))
  {
    var session := w.procs[pid].session.value;
    var claim := session.claim;
    assert ClaimMatches(w.db, w.procs[pid].owner, claim) && ProgressMatches(w.db, session);
    FailingKeeps(pipeline, w, pid, NOTHING, LeaseLost);
    if session.phase.Completing? && !session.doomed {
      match CompleteTx(w.db, claim, session.phase.result, session.phase.changed, began) {
        case Err(error) => FailingKeeps(pipeline, w, pid, NOTHING, error);
        case Ok(db) =>
          OwnedIsCurrent(w.db, w.procs[pid].owner, claim, began);
          CompleteKeepsDb(pipeline, w.db, claim, session.phase.result, session.phase.changed, began);
          CommitKeeps(pipeline, w, pid, db, None);
          CommitKeeps(pipeline, w, pid, db, Some(session.(phase := Failing(NOTHING, Unexpected))));
      }
    }
  }

  lemma RecordFailureKeeps(pipeline: Pipeline, w: World, pid: Pid, began: Time)
    requires Inv(pipeline, w) && HoldsSession(w, pid)
    ensures Inv(pipeline, RecordFailureStep(w, pid, began))
  {
    var session := w.procs[pid].session.value;
    assert ClaimMatches(w.db, w.procs[pid].owner, session.claim);
    if session.phase.Failing? {
      match FailTx(w.db, session.claim, session.phase.result, session.phase.error, began) {
        case None => SessionChangeKeeps(pipeline, w, pid, None);
        case Some(db) =>
          OwnedIsCurrent(w.db, w.procs[pid].owner, session.claim, began);
          FailKeepsDb(pipeline, w.db, session.claim, session.phase.result, session.phase.error, began);
          CommitKeeps(pipeline, w, pid, db, None);
      }
    }
  }

  lemma ClaimJobKeeps(pipeline: Pipeline, w: World, pid: Pid, job: JobId, began: Time, duration: nat)
    requires Inv(pipeline, w) && pid in w.procs && w.procs[pid].session.None?
    requires job in w.db.jobs && Claimable(w.db.jobs[job], began)
    ensures var (db, claim) := ClaimTx(w.db, job, w.procs[pid].owner, began, duration);
            Inv(pipeline, WithSession(w.(db := db), pid, Some(Session(claim, Collecting, false))))
  {
    var (db, claim) := ClaimTx(w.db, job, w.procs[pid].owner, began, duration);
    ClaimKeepsDb(pipeline, w.db, job, w.procs[pid].owner, began, duration);
    SessionsKept(w, WithSession(w.(db := db), pid, Some(Session(claim, Collecting, false))), pid, job);
  }

  lemma EnqueueKeeps(pipeline: Pipeline, w: World, job: JobId, row: JobRow)
    requires Inv(pipeline, w) && job !in w.db.jobs && row.state == Queued && row.owner == ""
    ensures Inv(pipeline, w.(db := w.db.(jobs := w.db.jobs[job := row])))
  {
    var next := w.(db := w.db.(jobs := w.db.jobs[job := row]));
    forall other ensures LinkedKeys(next.db, other) == LinkedKeys(w.db, other) {}
    RunsUnchanged(pipeline, w.db, next.db);
  }

  lemma ReviewRunKeeps(pipeline: Pipeline, w: World, job: JobId, state: RunState)
    requires Inv(pipeline, w) && job in w.db.runs && state in {RunPublished, RunCancelled}
    ensures Inv(pipeline, w.(db := w.db.(runs := w.db.runs[job := w.db.runs[job].(state := state)])))
  {
    var next := w.(db := w.db.(runs := w.db.runs[job := w.db.runs[job].(state := state)]));
    forall other ensures RunComplete(pipeline, next.db, other) {
      assert RunComplete(pipeline, w.db, other);
    }
    forall other ensures LinkedKeys(next.db, other) == LinkedKeys(w.db, other) {}
  }

  // Knowledge documents, sources and bindings are no part of the invariant.
  lemma UnrelatedTablesKeep(pipeline: Pipeline, w: World, db: Db)
    requires Inv(pipeline, w)
    requires db == w.db.(docs := db.docs, sources := db.sources, bindings := db.bindings)
    ensures Inv(pipeline, w.(db := db))
  {
    forall job ensures LinkedKeys(db, job) == LinkedKeys(w.db, job) {}
    RunsUnchanged(pipeline, w.db, db);
  }

  lemma AdministrationKeeps(pipeline: Pipeline, w: World, step: Step)
    requires Inv(pipeline, w) && WellConfigured(w, step) && Worker(step).None? && !step.ClaimJob?
    ensures Inv(pipeline, Apply(pipeline, w, step))
  {
    match step {
      case Enqueue(job, source, kind) =>
        if job !in w.db.jobs { EnqueueKeeps(pipeline, w, job, NewJob(source, kind, w.clock)); }
      case ReviewRun(job, publish) =>
        if job in w.db.runs && w.db.runs[job].state == ReviewReady {
          ReviewRunKeeps(pipeline, w, job, if publish then RunPublished else RunCancelled);
        }
      case PublishDocument(key) => UnrelatedTablesKeep(pipeline, w, Apply(pipeline, w, step).db);
      case PublishSource(source) => UnrelatedTablesKeep(pipeline, w, Apply(pipeline, w, step).db);
      case AddSource(source) => UnrelatedTablesKeep(pipeline, w, Apply(pipeline, w, step).db);
      case Bind(source, contracts) => UnrelatedTablesKeep(pipeline, w, Apply(pipeline, w, step).db);
      case _ =>
    }
  }

  // A step up to the last page of a session; acquiring is one of them.
  lemma AcquiringKeeps(pipeline: Pipeline, w: World, step: Step, pid: Pid)
    requires Inv(pipeline, w) && Worker(step) == Some(pid) && HoldsSession(w, pid)
    requires step.Pulse? || step.Collected? || step.StorePage?
    ensures Inv(pipeline, Continue(pipeline, w, step, pid))
  {
    match step {
      case Pulse(_, began, duration) => PulseKeeps(pipeline, w, pid, began, duration);
      case Collected(_, result, began, duration) => CollectedKeeps(pipeline, w, pid, result, began, duration);
      case StorePage(_, began) => StorePageKeeps(pipeline, w, pid, began);
    }
  }

  // A step after the last page was stored.
  lemma FinishingKeeps(pipeline: Pipeline, w: World, step: Step, pid: Pid)
    requires Inv(pipeline, w) && Worker(step) == Some(pid) && HoldsSession(w, pid)
    requires step.BeginPersist? || step.Persist? || step.CompleteJob?
    ensures Inv(pipeline, Continue(pipeline, w, step, pid))
  {
    match step {
      case BeginPersist(_, began, duration) => BeginPersistKeeps(pipeline, w, pid, began, duration);
      case Persist(_, began) => PersistKeeps(pipeline, w, pid, began);
      case CompleteJob(_, began, lost) => CompleteJobKeeps(pipeline, w, pid, began, lost);
    }
  }

  lemma WorkerKeeps(pipeline: Pipeline, w: World, step: Step, pid: Pid)
    requires Inv(pipeline, w) && Worker(step) == Some(pid) && HoldsSession(w, pid)
    ensures Inv(pipeline, Continue(pipeline, w, step, pid))
  {
    if step.Pulse? || step.Collected? || step.StorePage? {
      AcquiringKeeps(pipeline, w, step, pid);
    } else if step.BeginPersist? || step.Persist? || step.CompleteJob? {
      FinishingKeeps(pipeline, w, step, pid);
    } else if step.Throw? {
      FailingKeeps(pipeline, w, pid, step.result, step.error);
    } else {
      RecordFailureKeeps(pipeline, w, pid, step.began);
    }
  }

  lemma ClaimingKeeps(pipeline: Pipeline, w: World, step: Step)
    requires Inv(pipeline, w) && Enabled(w, step) && step.ClaimJob?
    ensures Inv(pipeline, Apply(pipeline, w, step))
  {
    if step.pid in w.procs && w.procs[step.pid].session.None? && FirstClaimable(w.db, step.job, step.began, step.locked) {
      ClaimJobKeeps(pipeline, w, step.pid, step.job, step.began, step.duration);
    }
  }

  lemma StepKeepsInv(pipeline: Pipeline, w: World, step: Step)
    requires Inv(pipeline, w) && WellConfigured(w, step)
    ensures Inv(pipeline, Apply(pipeline, w, step))
  {
    if Enabled(w, step) {
      if Worker(step).Some? {
        WorkerKeeps(pipeline, w, step, Worker(step).value);
      } else if step.ClaimJob? {
        ClaimingKeeps(pipeline, w, step);
      } else {
        AdministrationKeeps(pipeline, w, step);
      }
    }
  }

  lemma {:induction false} RunKeepsInv(pipeline: Pipeline, w: World, steps: seq<Step>)
    requires Inv(pipeline, w) && WellConfiguredRun(pipeline, w, steps)
    ensures Inv(pipeline, Exec(pipeline, w, steps))
  {
    if steps != [] {
      RunKeepsInv(pipeline, w, steps[..|steps| - 1]);
      StepKeepsInv(pipeline, Exec(pipeline, w, steps[..|steps| - 1]), steps[|steps| - 1]);
    }
  }

  // A world some well-configured run leads to.
  ghost predicate Reachable(pipeline: Pipeline, w: World) {
    exists steps :: WellConfiguredRun(pipeline, EMPTY_WORLD, steps) && w == Exec(pipeline, EMPTY_WORLD, steps)
  }

  lemma ReachableInv(pipeline: Pipeline, w: World)
    requires Reachable(pipeline, w)
    ensures Inv(pipeline, w)
  {
    var steps :| WellConfiguredRun(pipeline, EMPTY_WORLD, steps) && w == Exec(pipeline, EMPTY_WORLD, steps);
    forall job ensures RunComplete(pipeline, EMPTY_DB, job) {}
    RunKeepsInv(pipeline, EMPTY_WORLD, steps);
  }

  // ---------------------------------------------------------------- leases

  /** All document links of a job were written by the attempt now on its row. */
  lemma LinksBelongToCurrentAttempt(pipeline: Pipeline, w: World, link: (JobId, DocKey))
    requires Reachable(pipeline, w) && link in w.db.links
    ensures link.0 in w.db.jobs && w.db.links[link].writer == w.db.jobs[link.0].attempt
  {
    ReachableInv(pipeline, w);
  }

  /** Of all live processes at most one can commit anything for a job. */
  lemma AtMostOneHolder(pipeline: Pipeline, w: World, p: Pid, q: Pid, began: Time)
    requires Reachable(pipeline, w)
    requires p in w.procs && w.procs[p].session.Some? && q in w.procs && w.procs[q].session.Some?
    requires w.procs[p].session.value.claim.job == w.procs[q].session.value.claim.job
    requires Owned(w.db, w.procs[p].session.value.claim.job, w.procs[p].session.value.claim.owner, began)
    requires Owned(w.db, w.procs[q].session.value.claim.job, w.procs[q].session.value.claim.owner, began)
    ensures p == q && Current(w.db, w.procs[p].session.value.claim)
  {
    ReachableInv(pipeline, w);
    assert ClaimMatches(w.db, w.procs[p].owner, w.procs[p].session.value.claim);
    assert ClaimMatches(w.db, w.procs[q].owner, w.procs[q].session.value.claim);
  }

  // What a session's step does to the database: nothing, or a transaction on its own, current job.
  ghost predicate CommitsForCurrentClaim(db: Db, next: Db, claim: Claim) {
    next == db ||
    (&& Current(db, claim) && TouchesOnly(db, next, claim.job) && claim.job in next.jobs
     && var row, row' := db.jobs[claim.job], next.jobs[claim.job];
        row'.attempt == row.attempt && row'.source == row.source && row'.kind == row.kind && row'.queuedAt == row.queuedAt)
  }

  lemma HeartbeatCommits(pipeline: Pipeline, w: World, pid: Pid, began: Time, duration: nat)
    requires Inv(pipeline, w) && HoldsSession(w, pid)
    ensures var claim := w.procs[pid].session.value.claim;
            HeartbeatTx(w.db, claim, began, duration).Some? ==>
              CommitsForCurrentClaim(w.db, HeartbeatTx(w.db, claim, began, duration).value, claim)
  {
    var claim := w.procs[pid].session.value.claim;
    assert ClaimMatches(w.db, w.procs[pid].owner, claim);
    if HeartbeatTx(w.db, claim, began, duration).Some? { HeartbeatKeepsDb(pipeline, w.db, claim, began, duration); }
  }

  lemma StorePageCommits(pipeline: Pipeline, w: World, pid: Pid, began: Time)
    requires Inv(pipeline, w) && HoldsSession(w, pid)
    ensures CommitsForCurrentClaim(w.db, StorePageStep(w, pid, began).db, w.procs[pid].session.value.claim)
  {
    var session := w.procs[pid].session.value;
    var claim, phase := session.claim, session.phase;
    assert ClaimMatches(w.db, w.procs[pid].owner, claim);
    if phase.Storing? && phase.stored < |phase.result.pages|
       && StorePageTx(w.db, claim, phase.result.pages[phase.stored], began).Ok? {
      StoreKeepsDb(pipeline, w.db, claim, phase.result.pages[phase.stored], began);
    }
  }

  lemma PersistCommits(pipeline: Pipeline, w: World, pid: Pid, began: Time)
    requires Inv(pipeline, w) && HoldsSession(w, pid)
    ensures CommitsForCurrentClaim(w.db, PersistStep(pipeline, w, pid, began).db, w.procs[pid].session.value.claim)
  {
    var session := w.procs[pid].session.value;
    assert ClaimMatches(w.db, w.procs[pid].owner, session.claim) && ProgressMatches(w.db, session);
    if session.phase.Persisting? && PersistTx(pipeline, w.db, session.claim, session.phase.result, began).Ok? {
      PersistKeepsDb(pipeline, w.db, session.claim, session.phase.result, began);
    }
  }

  lemma CompleteJobCommits(pipeline: Pipeline, w: World, pid: Pid, began: Time, responseLost: bool)
    requires Inv(pipeline, w) && HoldsSession(w, pid)
    ensures CommitsForCurrentClaim(w.db, CompleteJobStep(w, pid, began, responseLost).db, w.procs[pid].session.value.claim)
  {
    var session := w.procs[pid].session.value;
    var claim, phase := session.claim, session.phase;
    assert ClaimMatches(w.db, w.procs[pid].owner, claim) && ProgressMatches(w.db, session);
    if phase.Completing? && CompleteTx(w.db, claim, phase.result, phase.changed, began).Ok? {
      CompleteKeepsDb(pipeline, w.db, claim, phase.result, phase.changed, began);
    }
  }

  lemma RecordFailureCommits(pipeline: Pipeline, w: World, pid: Pid, began: Time)
    requires Inv(pipeline, w) && HoldsSession(w, pid)
    ensures CommitsForCurrentClaim(w.db, RecordFailureStep(w, pid, began).db, w.procs[pid].session.value.claim)
  {
    var session := w.procs[pid].session.value;
    var claim, phase := session.claim, session.phase;
    assert ClaimMatches(w.db, w.procs[pid].owner, claim);
    if phase.Failing? && FailTx(w.db, claim, phase.result, phase.error, began).Some? {
      FailKeepsDb(pipeline, w.db, claim, phase.result, phase.error, began);
    }
  }

  lemma WorkerCommitsForCurrentClaim(pipeline: Pipeline, w: World, step: Step, pid: Pid)
    requires Inv(pipeline, w) && Worker(step) == Some(pid) && HoldsSession(w, pid)
    ensures CommitsForCurrentClaim(w.db, Continue(pipeline, w, step, pid).db, w.procs[pid].session.value.claim)
  {
    match step {
      case Pulse(_, began, duration) => HeartbeatCommits(pipeline, w, pid, began, duration);
      case Collected(_, _, began, duration) => HeartbeatCommits(pipeline, w, pid, began, duration);
      case BeginPersist(_, began, duration) => HeartbeatCommits(pipeline, w, pid, began, duration);
      case StorePage(_, began) => StorePageCommits(pipeline, w, pid, began);
      case Persist(_, began) => PersistCommits(pipeline, w, pid, began);
      case CompleteJob(_, began, responseLost) => CompleteJobCommits(pipeline, w, pid, began, responseLost);
      case RecordFailure(_, began) => RecordFailureCommits(pipeline, w, pid, began);
      case _ =>
    }
  }

  /** A worker whose claim is no longer the row's changes nothing in the database, whatever it tries. */
  lemma StaleWorkerChangesNothing(pipeline: Pipeline, w: World, step: Step, pid: Pid)
    requires Reachable(pipeline, w) && Worker(step) == Some(pid)
    requires HoldsSession(w, pid) && !Current(w.db, w.procs[pid].session.value.claim)
    ensures Apply(pipeline, w, step).db == w.db
  {
    ReachableInv(pipeline, w);
    if Enabled(w, step) { WorkerCommitsForCurrentClaim(pipeline, w, step, pid); }
  }

  // How one step may change a job row.
  ghost predicate RowAdvances(w: World, next: World, step: Step, job: JobId)
    requires job in w.db.jobs
  {
    && job in next.db.jobs
    && var row, row' := w.db.jobs[job], next.db.jobs[job];
    && row'.source == row.source && row'.kind == row.kind && row'.queuedAt == row.queuedAt
    && (row'.attempt != row.attempt ==>
          && row'.attempt == row.attempt + 1
          && step.ClaimJob? && step.job == job && row.state == row'.state == Running
          && (row.expires.Some? ==> row.expires.value <= step.began <= w.clock)
          && LinkedKeys(next.db, job) == {})
    && (row.state in {Review, Failed} ==>
          && row' == row
          && forall link: (JobId, DocKey) :: link.0 == job ==>
               (link in next.db.links <==> link in w.db.links)
               && (link in w.db.links ==> next.db.links[link] == w.db.links[link]))
  }

  /** One step raises an attempt only by one, only for a claim of an expired lease, and clears the
      links with it; a row in review or failed keeps every field and every link. */
  lemma RowsAdvance(pipeline: Pipeline, w: World, step: Step, job: JobId)
    requires Inv(pipeline, w) && job in w.db.jobs
    ensures RowAdvances(w, Apply(pipeline, w, step), step, job)
  {
    if Enabled(w, step) {
      if Worker(step).Some? {
        WorkerAdvances(pipeline, w, step, Worker(step).value, job);
      } else if step.ClaimJob? {
        ClaimAdvances(pipeline, w, step, job);
      } else {
        AdministrationLeavesJobs(pipeline, w, step, job);
      }
    }
  }

  lemma AdministrationLeavesJobs(pipeline: Pipeline, w: World, step: Step, job: JobId)
    requires Worker(step).None? && !step.ClaimJob? && job in w.db.jobs
    ensures var next := Apply(pipeline, w, step).db;
            job in next.jobs && next.jobs[job] == w.db.jobs[job] && next.links == w.db.links
  {
  }

  lemma WorkerAdvances(pipeline: Pipeline, w: World, step: Step, pid: Pid, job: JobId)
    requires Inv(pipeline, w) && Worker(step) == Some(pid) && HoldsSession(w, pid)
    requires job in w.db.jobs
    ensures RowAdvances(w, Continue(pipeline, w, step, pid), step, job)
  {
    WorkerCommitsForCurrentClaim(pipeline, w, step, pid);
    var next, claim := Continue(pipeline, w, step, pid).db, w.procs[pid].session.value.claim;
    assert CommitsForCurrentClaim(w.db, next, claim);
  }

  lemma ClaimAdvances(pipeline: Pipeline, w: World, step: Step, job: JobId)
    requires Inv(pipeline, w) && step.ClaimJob? && Enabled(w, step) && job in w.db.jobs
    ensures RowAdvances(w, Apply(pipeline, w, step), step, job)
  {
    if step.pid in w.procs && w.procs[step.pid].session.None? && FirstClaimable(w.db, step.job, step.began, step.locked) {
      ClaimKeepsDb(pipeline, w.db, step.job, w.procs[step.pid].owner, step.began, step.duration);
      TakeoverAdvances(w, Apply(pipeline, w, step), step, w.procs[step.pid].owner, job);
    }
  }

  lemma TakeoverAdvances(w: World, next: World, step: Step, owner: string, job: JobId)
    requires step.ClaimJob? && step.began <= w.clock && job in w.db.jobs && step.job in w.db.jobs
    requires Claimable(w.db.jobs[step.job], step.began)
    requires next.db == ClaimTx(w.db, step.job, owner, step.began, step.duration).0
    requires TouchesOnly(w.db, next.db, step.job) && LinkedKeys(next.db, step.job) == {}
    ensures RowAdvances(w, next, step, job)
  {
  }

  /** A job that reached review or failed stays as it is, row and links, for the rest of every run. */
  lemma {:induction false} TerminalJobsAreFrozen(pipeline: Pipeline, w: World, steps: seq<Step>, job: JobId)
    requires Reachable(pipeline, w) && WellConfiguredRun(pipeline, w, steps)
    requires job in w.db.jobs && w.db.jobs[job].state in {Review, Failed}
    ensures var last := Exec(pipeline, w, steps);
            && job in last.db.jobs && last.db.jobs[job] == w.db.jobs[job]
            && forall link: (JobId, DocKey) :: link.0 == job ==>
                 (link in last.db.links <==> link in w.db.links)
                 && (link in w.db.links ==> last.db.links[link] == w.db.links[link])
  {
    if steps != [] {
      var front := steps[..|steps| - 1];
      TerminalJobsAreFrozen(pipeline, w, front, job);
      ReachableInv(pipeline, w);
      RunKeepsInv(pipeline, w, front);
      RowsAdvance(pipeline, Exec(pipeline, w, front), steps[|steps| - 1], job);
    }
  }

  /** A claim that was lost is never current again, so its worker stays without effect. */
  lemma {:induction false} LostClaimsStayLost(pipeline: Pipeline, w: World, steps: seq<Step>, pid: Pid)
    requires Reachable(pipeline, w) && WellConfiguredRun(pipeline, w, steps)
    requires HoldsSession(w, pid) && !Current(w.db, w.procs[pid].session.value.claim)
    ensures !Current(Exec(pipeline, w, steps).db, w.procs[pid].session.value.claim)
    ensures var (claim, last) := (w.procs[pid].session.value.claim, Exec(pipeline, w, steps).db);
            && claim.job in w.db.jobs && claim.job in last.jobs
            && w.db.jobs[claim.job].attempt <= last.jobs[claim.job].attempt
            && (w.db.jobs[claim.job].state in {Review, Failed} ==> last.jobs[claim.job] == w.db.jobs[claim.job])
  {
    ReachableInv(pipeline, w);
    assert ClaimMatches(w.db, w.procs[pid].owner, w.procs[pid].session.value.claim);
    if steps != [] {
      var front := steps[..|steps| - 1];
      LostClaimsStayLost(pipeline, w, front, pid);
      RunKeepsInv(pipeline, w, front);
      RowsAdvance(pipeline, Exec(pipeline, w, front), steps[|steps| - 1], w.procs[pid].session.value.claim.job);
    }
  }

  // ---------------------------------------------------------------- review and persistence

  /** A job in review holds one link for each page it fetched; a website job also has a typed run,
      complete, whose manifest lists exactly the linked pages. */
  lemma ReviewedJobsAreComplete(pipeline: Pipeline, w: World, job: JobId)
    requires Reachable(pipeline, w) && job in w.db.jobs && w.db.jobs[job].state == Review
    ensures |LinkedKeys(w.db, job)| == w.db.jobs[job].fetched
    ensures w.db.jobs[job].kind == Website ==>
              && job in w.db.runs && FullOutput(pipeline, w.db, job)
              && LinkedKeys(w.db, job) == ManifestKeys(w.db.jobs[job].source, w.db.runs[job].manifest)
  {
    ReachableInv(pipeline, w);
    assert RunComplete(pipeline, w.db, job);
  }

  /** Every committed run is past its running state and has its whole typed output once; a job
      without a run has no output. */
  lemma RunsAreAllOrNothing(pipeline: Pipeline, w: World, job: JobId)
    requires Reachable(pipeline, w)
    ensures if job in w.db.runs
            then w.db.runs[job].state in {ReviewReady, RunPublished, RunCancelled} && FullOutput(pipeline, w.db, job)
            else NoOutput(w.db, job)
  {
    ReachableInv(pipeline, w);
    assert RunComplete(pipeline, w.db, job);
  }

  ghost predicate RunFrozen(db: Db, next: Db, job: JobId)
    requires job in db.runs
  {
    && job in next.runs && SameRows(db, next, job)
    && next.runs[job].manifest == db.runs[job].manifest && next.runs[job].asset == db.runs[job].asset
    && next.runs[job].attempt == db.runs[job].attempt
  }

  predicate SameRunTables(db: Db, next: Db) {
    && next.runs == db.runs && next.documents == db.documents && next.sections == db.sections
    && next.maps == db.maps && next.candidates == db.candidates
  }

  lemma WorkersLeaveRuns(pipeline: Pipeline, w: World, step: Step, pid: Pid)
    requires !step.Persist? && HoldsSession(w, pid)
    ensures SameRunTables(w.db, Continue(pipeline, w, step, pid).db)
  {
  }

  predicate SameOutputTables(db: Db, next: Db) {
    next.documents == db.documents && next.sections == db.sections && next.maps == db.maps && next.candidates == db.candidates
  }

  predicate SameRunButState(run: RunRow, next: RunRow) {
    next.asset == run.asset && next.manifest == run.manifest && next.attempt == run.attempt
  }

  lemma SameTablesFreeze(db: Db, next: Db, job: JobId)
    requires SameOutputTables(db, next) && job in db.runs && job in next.runs
    requires SameRunButState(db.runs[job], next.runs[job])
    ensures RunFrozen(db, next, job)
  {
  }

  lemma ClaimLeavesRuns(w: World, pid: Pid, job: JobId, began: Time, duration: nat, locked: set<JobId>)
    ensures SameRunTables(w.db, ClaimStep(w, pid, job, began, duration, locked).db)
  {
  }

  lemma AdministeredLeavesRuns(db: Db, clock: Time, step: Step, job: JobId)
    requires job in db.runs
    ensures var next := Administered(db, clock, step);
            SameOutputTables(db, next) && job in next.runs && SameRunButState(db.runs[job], next.runs[job])
  {
  }

  // Only persistence writes output rows, and only a review changes a committed run.
  lemma OthersLeaveRuns(pipeline: Pipeline, w: World, step: Step, job: JobId)
    requires !step.Persist? && job in w.db.runs
    ensures RunFrozen(w.db, Apply(pipeline, w, step).db, job)
  {
    if Enabled(w, step) {
      if Worker(step).Some? {
        WorkersLeaveRuns(pipeline, w, step, Worker(step).value);
      } else if step.ClaimJob? {
        ClaimLeavesRuns(w, step.pid, step.job, step.began, step.duration, step.locked);
      } else {
        AdministeredLeavesRuns(w.db, w.clock, step, job);
      }
    }
    SameTablesFreeze(w.db, Apply(pipeline, w, step).db, job);
  }

  lemma StepFreezesRuns(pipeline: Pipeline, w: World, step: Step, job: JobId)
    requires Inv(pipeline, w) && job in w.db.runs
    ensures RunFrozen(w.db, Apply(pipeline, w, step).db, job)
  {
    if !step.Persist? {
      OthersLeaveRuns(pipeline, w, step, job);
    } else if Enabled(w, step) && w.procs[step.pid].session.value.phase.Persisting? {
      var session := w.procs[step.pid].session.value;
      assert ProgressMatches(w.db, session);
      if PersistTx(pipeline, w.db, session.claim, session.phase.result, step.began).Ok? {
        PersistFreezesRuns(pipeline, w.db, session.claim, session.phase.result, step.began, job);
      }
    }
  }

  lemma DocumentationFreezesRuns(pipeline: Pipeline, db: Db, claim: Claim, result: Ingestion, began: Time, job: JobId)
    requires RunsComplete(pipeline, db) && Owned(db, claim.job, claim.owner, began) && job in db.runs
    requires PersistDocumentation(pipeline, db, claim, result, began).Ok?
    ensures RunFrozen(db, PersistDocumentation(pipeline, db, claim, result, began).value.0, job)
  {
    PersistDocumentationCases(pipeline, db, claim, result, began);
    DocumentationRowsAdded(db, claim.job, pipeline.corpus(ManifestOf(result.pages)), job);
  }

  lemma ContractFreezesRuns(
    pipeline: Pipeline, db: Db, claim: Claim, result: Ingestion, target: ContractId, began: Time, job: JobId)
    requires RunsComplete(pipeline, db) && Owned(db, claim.job, claim.owner, began) && job in db.runs && |result.pages| <= 1
    requires PersistOpenApi(pipeline, db, claim, result, target, began).Ok?
    ensures RunFrozen(db, PersistOpenApi(pipeline, db, claim, result, target, began).value.0, job)
  {
    PersistOpenApiCases(pipeline, db, claim, result, target, began);
    var row := CandidateRow(claim.job, target, pipeline.contract(result.pages[0].html).value);
    RowsOfAppend(db.candidates, [row], claim.job, job);
  }

  lemma PersistFreezesRuns(pipeline: Pipeline, db: Db, claim: Claim, result: Ingestion, began: Time, job: JobId)
    requires RunsComplete(pipeline, db) && ValidIngestion(claim.kind, result) && job in db.runs
    requires PersistTx(pipeline, db, claim, result, began).Ok?
    ensures RunFrozen(db, PersistTx(pipeline, db, claim, result, began).value.0, job)
  {
    if claim.kind != Git {
      var target := ResolveContractTarget(db, claim.source);
      if claim.kind == Website || target == Ok(None) {
        if PersistDocumentation(pipeline, db, claim, result, began).Ok? {
          DocumentationFreezesRuns(pipeline, db, claim, result, began, job);
        }
      } else {
        ContractFreezesRuns(pipeline, db, claim, result, target.value.value, began, job);
      }
    }
  }

  /** Once a job has a run, no later step of any process changes its manifest, asset or typed output. */
  lemma {:induction false} PersistedRunsAreFrozen(pipeline: Pipeline, w: World, steps: seq<Step>, job: JobId)
    requires Reachable(pipeline, w) && WellConfiguredRun(pipeline, w, steps) && job in w.db.runs
    ensures RunFrozen(w.db, Exec(pipeline, w, steps).db, job)
  {
    if steps != [] {
      var front := steps[..|steps| - 1];
      PersistedRunsAreFrozen(pipeline, w, front, job);
      ReachableInv(pipeline, w);
      RunKeepsInv(pipeline, w, front);
      StepFreezesRuns(pipeline, Exec(pipeline, w, front), steps[|steps| - 1], job);
    }
  }

  /** A job that has a run writes nothing more, whatever its kind and whatever later attempts
      acquired: a transaction that succeeds leaves the database as it is. */
  lemma PersistedJobsWriteNothing(pipeline: Pipeline, w: World, claim: Claim, result: Ingestion, began: Time)
    requires Reachable(pipeline, w) && claim.job in w.db.runs && ValidIngestion(claim.kind, result)
    requires PersistTx(pipeline, w.db, claim, result, began).Ok?
    ensures var (next, outcome) := PersistTx(pipeline, w.db, claim, result, began).value;
            next == w.db && outcome != Persisted
  {
    ReachableInv(pipeline, w);
    if claim.kind != Git {
      var target := ResolveContractTarget(w.db, claim.source);
      if claim.kind == Website || target == Ok(None) {
        PersistDocumentationCases(pipeline, w.db, claim, result, began);
      } else {
        PersistOpenApiCases(pipeline, w.db, claim, result, target.value.value, began);
      }
    }
  }

  // Which path the transaction takes: a crawled site and an upload bound to no contract are documentation.
  predicate TakesDocumentationPath(db: Db, claim: Claim) {
    claim.kind == Website || (claim.kind == Upload && ResolveContractTarget(db, claim.source) == Ok(None))
  }

  /** Persisting documentation again, in a later attempt of a job that has a run: the same manifest
      writes nothing and succeeds, unless the run was cancelled; any other manifest is refused. */
  lemma RetriedDocumentationWritesNothing(pipeline: Pipeline, w: World, claim: Claim, result: Ingestion, began: Time)
    requires Reachable(pipeline, w) && claim.job in w.db.runs && TakesDocumentationPath(w.db, claim)
    requires Owned(w.db, claim.job, claim.owner, began) && w.db.jobs[claim.job].source == claim.source
    ensures var run := w.db.runs[claim.job];
            PersistTx(pipeline, w.db, claim, result, began)
            == if run.asset == Documentation(claim.source) && run.manifest == ManifestOf(result.pages)
                  && run.state != RunCancelled
               then Ok((w.db, AlreadyPersisted)) else Err(RunConflict)
  {
    ReachableInv(pipeline, w);
    assert RunComplete(pipeline, w.db, claim.job);
  }

  /** Persisting a bound contract again, in a later attempt of a job that has a run: it succeeds
      exactly when the contract has a candidate of this content.  The page of the run itself always
      has one, also after a review cancelled the run. */
  lemma RetriedContractWritesNothing(
    pipeline: Pipeline, w: World, claim: Claim, result: Ingestion, target: ContractId, began: Time)
    requires Reachable(pipeline, w) && claim.job in w.db.runs && ValidIngestion(claim.kind, result)
    requires claim.kind in {Upload, OpenApi} && ResolveContractTarget(w.db, claim.source) == Ok(Some(target))
    requires Owned(w.db, claim.job, claim.owner, began)
    ensures PersistTx(pipeline, w.db, claim, result, began)
         == if result.pages == [] || pipeline.contract(result.pages[0].html).None? then Err(DocumentInvalid)
            else if CandidateExists(w.db, target, pipeline.contract(result.pages[0].html).value)
            then Ok((w.db, UnchangedContract)) else Err(RunConflict)
    ensures var run := w.db.runs[claim.job];
            run.asset == Contract(target) && result.pages != [] && run.manifest == ManifestOf(result.pages) ==>
              PersistTx(pipeline, w.db, claim, result, began) == Ok((w.db, UnchangedContract))
  {
    ReachableInv(pipeline, w);
    PersistOpenApiCases(pipeline, w.db, claim, result, target, began);
    var run := w.db.runs[claim.job];
    if run.asset == Contract(target) && result.pages != [] && run.manifest == ManifestOf(result.pages) {
      assert result.pages[..0] == [];
      assert ManifestOf(result.pages) == map[result.pages[0].url := result.pages[0]];
      CompleteContractRunHasCandidate(pipeline, w.db, claim.job, result.pages[0]);
    }
  }

  /** No contract ever has two candidates with the same content, and no run has two candidates. */
  lemma CandidatesAreUnique(pipeline: Pipeline, w: World, i: nat, j: nat)
    requires Reachable(pipeline, w) && i < j < |w.db.candidates|
    ensures var (a, b) := (w.db.candidates[i], w.db.candidates[j]);
            && a.CandidateRow? && b.CandidateRow?
            && (a.contract != b.contract || a.content != b.content)
            && a.run != b.run
  {
    ReachableInv(pipeline, w);
    var (a, b) := (w.db.candidates[i], w.db.candidates[j]);
    assert a in w.db.candidates && b in w.db.candidates;
    if a.run == b.run {
      assert RunComplete(pipeline, w.db, a.run);
      TwoRows(w.db.candidates, i, j);
    }
  }

  lemma {:induction false} TwoRows(rows: seq<Output>, i: nat, j: nat)
    requires i < j < |rows| && rows[i].run == rows[j].run
    ensures |RowsOf(rows, rows[i].run)| >= 2
  {
    var front := rows[..|rows| - 1];
    if j < |front| { TwoRows(front, i, j); } else { RowsOfMember(front, rows[i]); }
  }

  /** For a contract the exit that reports an already persisted run is never taken: the candidate
      of such a run has been found before. */
  lemma ContractNeverAlreadyPersisted(pipeline: Pipeline, w: World, claim: Claim, result: Ingestion,
                                      target: ContractId, began: Time)
    requires Reachable(pipeline, w) && Owned(w.db, claim.job, claim.owner, began)
    requires claim.kind != Website && ValidIngestion(claim.kind, result)
    requires PersistOpenApi(pipeline, w.db, claim, result, target, began).Ok?
    ensures PersistOpenApi(pipeline, w.db, claim, result, target, began).value.1 in {Persisted, UnchangedContract}
  {
    ReachableInv(pipeline, w);
    PersistOpenApiCases(pipeline, w.db, claim, result, target, began);
  }

  /** The checks for a complete run without its output never fire. */
  lemma OutputNeverMissing(pipeline: Pipeline, w: World, claim: Claim, result: Ingestion, began: Time)
    requires Reachable(pipeline, w) && ValidIngestion(claim.kind, result)
    ensures PersistTx(pipeline, w.db, claim, result, began) != Err(RunIncomplete)
  {
    ReachableInv(pipeline, w);
    if Owned(w.db, claim.job, claim.owner, began) && claim.kind != Git {
      if claim.kind == Website || ResolveContractTarget(w.db, claim.source) == Ok(None) {
        PersistDocumentationCases(pipeline, w.db, claim, result, began);
      } else if ResolveContractTarget(w.db, claim.source).Ok? {
        PersistOpenApiCases(pipeline, w.db, claim, result, ResolveContractTarget(w.db, claim.source).value.value, began);
      }
    }
  }

  // ---------------------------------------------------------------- why owner ids must be distinct

  lemma ExecExtend(pipeline: Pipeline, w: World, steps: seq<Step>, step: Step)
    ensures Exec(pipeline, w, steps + [step]) == Apply(pipeline, Exec(pipeline, w, steps), step)
  {
    assert (steps + [step])[..|steps + [step]| - 1] == steps;
  }

  const ONE_PAGE := Ingestion([Page("https://docs.test/", "Home", "<h1>Home</h1>", false, [])], 0, 0)

  // Two processes under one owner id and one queued job; `row` and the sessions say how far they are.
  function SharedOwnerWorld(clock: Time, row: JobRow, first: Option<Session>, second: Option<Session>): World {
    World(clock, map[1 := Proc("crawler", first), 2 := Proc("crawler", second)],
          EMPTY_DB.(jobs := map[0 := row], sources := map[0 := SourceRow(Validated, 1)]))
  }

  function LeasedRow(attempt: nat, expires: Time): JobRow {
    NewJob(0, Website, 0).(state := Running, attempt := attempt, owner := "crawler", expires := Some(expires))
  }

  function ClaimOf(attempt: nat): Claim {
    Claim(0, 0, Website, "crawler", attempt)
  }

  lemma SharedOwnerSetup(pipeline: Pipeline) returns (steps: seq<Step>)
    ensures Exec(pipeline, EMPTY_WORLD, steps) == SharedOwnerWorld(0, NewJob(0, Website, 0), None, None)
  {
    var last;
    steps, last := Then(pipeline, [], EMPTY_WORLD, AddSource(0));
    steps, last := Then(pipeline, steps, last, Start(1, "crawler"));
    steps, last := Then(pipeline, steps, last, Start(2, "crawler"));
    steps, last := Then(pipeline, steps, last, Enqueue(0, 0, Website));
    assert last.procs == map[1 := Proc("crawler", None), 2 := Proc("crawler", None)];
    assert last.db.sources == map[0 := SourceRow(Validated, 1)];
  }

  // Process 1 claims the queued job; its lease ends at 1000.
  lemma SharedOwnerFirstClaim(pipeline: Pipeline)
    ensures Apply(pipeline, SharedOwnerWorld(0, NewJob(0, Website, 0), None, None), ClaimJob(1, 0, 0, 1000, {}))
         == SharedOwnerWorld(0, LeasedRow(1, 1000), Some(Session(ClaimOf(1), Collecting, false)), None)
  {
    var ready := SharedOwnerWorld(0, NewJob(0, Website, 0), None, None);
    assert FirstClaimable(ready.db, 0, 0, {});
  }

  // It acquires one page.
  lemma SharedOwnerCollects(pipeline: Pipeline)
    ensures Apply(pipeline, SharedOwnerWorld(0, LeasedRow(1, 1000), Some(Session(ClaimOf(1), Collecting, false)), None),
                  Collected(1, ONE_PAGE, 0, 1000))
         == SharedOwnerWorld(0, LeasedRow(1, 1000), Some(Session(ClaimOf(1), Storing(ONE_PAGE, 0, 0), false)), None)
  {
  }

  // Process 2 takes the expired lease over, under the same owner id.
  lemma SharedOwnerTakeover(pipeline: Pipeline, first: Session)
    ensures Apply(pipeline, SharedOwnerWorld(1000, LeasedRow(1, 1000), Some(first), None), ClaimJob(2, 0, 1000, 1000, {}))
         == SharedOwnerWorld(1000, LeasedRow(2, 2000), Some(first), Some(Session(ClaimOf(2), Collecting, false)))
  {
    var expired := SharedOwnerWorld(1000, LeasedRow(1, 1000), Some(first), None);
    assert FirstClaimable(expired.db, 0, 1000, {});
    assert WithoutLinks(expired.db.links, 0) == map[];
    assert ClaimTx(expired.db, 0, "crawler", 1000, 1000).0.jobs == map[0 := LeasedRow(2, 2000)];
  }

  // Process 1 stores its page although its lease is gone.
  lemma SharedOwnerStaleStore(pipeline: Pipeline)
    ensures var first := Session(ClaimOf(1), Storing(ONE_PAGE, 0, 0), false);
            var taken := SharedOwnerWorld(1000, LeasedRow(2, 2000), Some(first), Some(Session(ClaimOf(2), Collecting, false)));
            var db, link := Apply(pipeline, taken, CrawlProtocol.StorePage(1, 1000)).db, (0, KeyOf(0, ONE_PAGE.pages[0]));
            link in db.links && db.links[link].writer == 1 && db.jobs == map[0 := LeasedRow(2, 2000)]
  {
    var first := Session(ClaimOf(1), Storing(ONE_PAGE, 0, 0), false);
    var taken := SharedOwnerWorld(1000, LeasedRow(2, 2000), Some(first), Some(Session(ClaimOf(2), Collecting, false)));
    assert StorePageTx(taken.db, ClaimOf(1), ONE_PAGE.pages[0], 1000).Ok?;
  }

  lemma Then(pipeline: Pipeline, steps: seq<Step>, w: World, step: Step) returns (steps': seq<Step>, w': World)
    requires w == Exec(pipeline, EMPTY_WORLD, steps)
    ensures w' == Apply(pipeline, w, step) == Exec(pipeline, EMPTY_WORLD, steps')
  {
    steps', w' := steps + [step], Apply(pipeline, w, step);
    ExecExtend(pipeline, EMPTY_WORLD, steps, step);
  }

  /** The guards compare owner ids only.  When two live processes share one, a worker that lost its
      lease still commits: a link written by attempt 1 ends up on a row of attempt 2. */
  lemma SharedOwnerBreaksTheLease(pipeline: Pipeline)
    ensures exists steps, link ::
              var db := Exec(pipeline, EMPTY_WORLD, steps).db;
              link in db.links && link.0 in db.jobs && db.links[link].writer < db.jobs[link.0].attempt
  {
    var steps, last := SharedOwnerRun(pipeline);
    var link := (0, KeyOf(0, ONE_PAGE.pages[0]));
    assert link in last.db.links && last.db.links[link].writer == 1;
  }

  // Process 1 has acquired its page, and then its lease runs out.
  lemma SharedOwnerExpiry(pipeline: Pipeline) returns (steps: seq<Step>)
    ensures var first := Session(ClaimOf(1), Storing(ONE_PAGE, 0, 0), false);
            Exec(pipeline, EMPTY_WORLD, steps) == SharedOwnerWorld(1000, LeasedRow(1, 1000), Some(first), None)
  {
    var last;
    steps := SharedOwnerSetup(pipeline);
    SharedOwnerFirstClaim(pipeline);
    steps, last := Then(pipeline, steps, Exec(pipeline, EMPTY_WORLD, steps), ClaimJob(1, 0, 0, 1000, {}));
    SharedOwnerCollects(pipeline);
    steps, last := Then(pipeline, steps, last, Collected(1, ONE_PAGE, 0, 1000));
    steps, last := Then(pipeline, steps, last, Tick(1000));
  }

  lemma SharedOwnerRun(pipeline: Pipeline) returns (steps: seq<Step>, last: World)
    ensures last == Exec(pipeline, EMPTY_WORLD, steps)
    ensures var link := (0, KeyOf(0, ONE_PAGE.pages[0]));
            link in last.db.links && last.db.links[link].writer == 1 && last.db.jobs == map[0 := LeasedRow(2, 2000)]
  {
    steps := SharedOwnerExpiry(pipeline);
    SharedOwnerTakeover(pipeline, Session(ClaimOf(1), Storing(ONE_PAGE, 0, 0), false));
    steps, last := Then(pipeline, steps, Exec(pipeline, EMPTY_WORLD, steps), ClaimJob(2, 0, 1000, 1000, {}));
    SharedOwnerStaleStore(pipeline);
    steps, last := Then(pipeline, steps, last, CrawlProtocol.StorePage(1, 1000));
  }
}
