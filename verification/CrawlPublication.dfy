/** Crawling publishes nothing: what runs of the crawl protocol leave in knowledge documents and sources. */
module CrawlPublication {
  import opened Prelude
  import opened CrawlStore
  import opened CrawlProtocol

  // ---------------------------------------------------------------- only publication publishes

  predicate IsPublication(step: Step) {
    step.PublishDocument? || step.PublishSource?
  }

  // What is published now was published before.
  ghost predicate NothingPublished(before: Db, after: Db) {
    && (forall key :: key in after.docs && after.docs[key].state == Published ==>
          key in before.docs && before.docs[key].state == Published)
    && (forall source :: source in after.sources && after.sources[source].state == Published ==>
          source in before.sources && before.sources[source].state == Published)
  }

  lemma StorePublishesNothing(db: Db, claim: Claim, page: Page, began: Time)
    requires StorePageTx(db, claim, page, began).Ok?
    ensures NothingPublished(db, StorePageTx(db, claim, page, began).value.0)
  {
  }

  lemma CompletionPublishesNothing(db: Db, claim: Claim, result: Ingestion, changed: nat, began: Time)
    requires CompleteTx(db, claim, result, changed, began).Ok?
    ensures NothingPublished(db, CompleteTx(db, claim, result, changed, began).value)
  {
  }

  predicate SameDocuments(db: Db, next: Db) {
    next.docs == db.docs && next.sources == db.sources && next.links == db.links
  }

  lemma StartLeavesDocuments(db: Db, claim: Claim, asset: Asset, manifest: Manifest, began: Time)
    ensures match EnsureRunningRun(db, claim, asset, manifest, began)
            case Ok(Proceed(started)) => SameDocuments(db, started) && claim.job in started.runs
            case _ => true
  {
  }

  lemma ReadyLeavesDocuments(db: Db, claim: Claim, began: Time)
    requires claim.job in db.runs && MarkReviewReady(db, claim, began).Ok?
    ensures SameDocuments(db, MarkReviewReady(db, claim, began).value)
  {
  }

  lemma DocumentationLeavesDocuments(pipeline: Pipeline, db: Db, claim: Claim, result: Ingestion, began: Time)
    requires PersistDocumentation(pipeline, db, claim, result, began).Ok?
    ensures SameDocuments(db, PersistDocumentation(pipeline, db, claim, result, began).value.0)
  {
    var manifest := ManifestOf(result.pages);
    var started := EnsureRunningRun(db, claim, Documentation(claim.source), manifest, began).value;
    StartLeavesDocuments(db, claim, Documentation(claim.source), manifest, began);
    if started.Proceed? {
      ReadyLeavesDocuments(WithDocumentation(started.db, claim.job, pipeline.corpus(manifest)), claim, began);
    }
  }

  lemma ContractLeavesDocuments(
    pipeline: Pipeline, db: Db, claim: Claim, result: Ingestion, target: ContractId, began: Time)
    requires PersistOpenApi(pipeline, db, claim, result, target, began).Ok?
    ensures SameDocuments(db, PersistOpenApi(pipeline, db, claim, result, target, began).value.0)
  {
    var content := pipeline.contract(result.pages[0].html).value;
    if !CandidateExists(db, target, content) {
      var manifest := ManifestOf(result.pages);
      var started := EnsureRunningRun(db, claim, Contract(target), manifest, began).value;
      StartLeavesDocuments(db, claim, Contract(target), manifest, began);
      if started.Proceed? {
        var row := CandidateRow(claim.job, target, content);
        ReadyLeavesDocuments(started.db.(candidates := started.db.candidates + [row]), claim, began);
      }
    }
  }

  lemma PersistLeavesDocuments(pipeline: Pipeline, db: Db, claim: Claim, result: Ingestion, began: Time)
    requires PersistTx(pipeline, db, claim, result, began).Ok?
    ensures SameDocuments(db, PersistTx(pipeline, db, claim, result, began).value.0)
  {
    var target := ResolveContractTarget(db, claim.source);
    if claim.kind == Website || (claim.kind == Upload && target == Ok(None)) {
      DocumentationLeavesDocuments(pipeline, db, claim, result, began);
    } else if claim.kind != Git && target.value.Some? {
      ContractLeavesDocuments(pipeline, db, claim, result, target.value.value, began);
    }
  }

  lemma WorkerPublishesNothing(pipeline: Pipeline, w: World, step: Step, pid: Pid)
    requires HoldsSession(w, pid)
    ensures NothingPublished(w.db, Continue(pipeline, w, step, pid).db)
  {
    var session := w.procs[pid].session.value;
    var claim, phase := session.claim, session.phase;
    if step.StorePage? && phase.Storing? && phase.stored < |phase.result.pages|
       && StorePageTx(w.db, claim, phase.result.pages[phase.stored], step.began).Ok? {
      StorePublishesNothing(w.db, claim, phase.result.pages[phase.stored], step.began);
    } else if step.CompleteJob? && phase.Completing?
              && CompleteTx(w.db, claim, phase.result, phase.changed, step.began).Ok? {
      CompletionPublishesNothing(w.db, claim, phase.result, phase.changed, step.began);
    } else if step.Persist? && phase.Persisting? && PersistTx(pipeline, w.db, claim, phase.result, step.began).Ok? {
      PersistLeavesDocuments(pipeline, w.db, claim, phase.result, step.began);
    }
  }

  lemma StepPublishesNothing(pipeline: Pipeline, w: World, step: Step)
    requires !IsPublication(step)
    ensures NothingPublished(w.db, Apply(pipeline, w, step).db)
  {
    if Enabled(w, step) && Worker(step).Some? { WorkerPublishesNothing(pipeline, w, step, Worker(step).value); }
  }

  /** Over any run, a document or source becomes published only by a step that publishes one: no worker
      publishes, whatever it fetched. */
  lemma {:induction false} CrawlingPublishesNothing(pipeline: Pipeline, w: World, steps: seq<Step>)
    requires forall i :: 0 <= i < |steps| ==> !IsPublication(steps[i])
    ensures NothingPublished(w.db, Exec(pipeline, w, steps).db)
  {
    if steps != [] {
      var n := |steps| - 1;
      CrawlingPublishesNothing(pipeline, w, steps[..n]);
      StepPublishesNothing(pipeline, Exec(pipeline, w, steps[..n]), steps[n]);
    }
  }

  // ---------------------------------------------------------------- flagged content is quarantined

  predicate Assessed(state: Lifecycle, trust: int, indicators: seq<string>) {
    if indicators != [] then state == Quarantined && trust == 10
    else (state == Validated || state == Published) && trust == 70
  }

  ghost predicate AllAssessed(db: Db) {
    && (forall key :: key in db.docs ==>
          Assessed(db.docs[key].state, db.docs[key].trust, db.docs[key].indicators)
          && db.docs[key].snapshot.indicators == db.docs[key].indicators)
    && (forall link :: link in db.links ==> Assessed(db.links[link].state, db.links[link].trust, db.links[link].indicators))
  }

  lemma StoreAssesses(db: Db, claim: Claim, page: Page, began: Time)
    requires AllAssessed(db) && StorePageTx(db, claim, page, began).Ok?
    ensures AllAssessed(StorePageTx(db, claim, page, began).value.0)
  {
  }

  lemma WorkerAssesses(pipeline: Pipeline, w: World, step: Step, pid: Pid)
    requires HoldsSession(w, pid) && AllAssessed(w.db)
    ensures AllAssessed(Continue(pipeline, w, step, pid).db)
  {
    var session := w.procs[pid].session.value;
    var claim, phase := session.claim, session.phase;
    if step.StorePage? && phase.Storing? && phase.stored < |phase.result.pages|
       && StorePageTx(w.db, claim, phase.result.pages[phase.stored], step.began).Ok? {
      StoreAssesses(w.db, claim, phase.result.pages[phase.stored], step.began);
    } else if step.Persist? && phase.Persisting? && PersistTx(pipeline, w.db, claim, phase.result, step.began).Ok? {
      PersistLeavesDocuments(pipeline, w.db, claim, phase.result, step.began);
    }
  }

  lemma ClaimAssesses(w: World, pid: Pid, job: JobId, began: Time, duration: nat, locked: set<JobId>)
    requires AllAssessed(w.db)
    ensures AllAssessed(ClaimStep(w, pid, job, began, duration, locked).db)
  {
  }

  lemma StepAssesses(pipeline: Pipeline, w: World, step: Step)
    requires AllAssessed(w.db)
    ensures AllAssessed(Apply(pipeline, w, step).db)
  {
    if Enabled(w, step) {
      if Worker(step).Some? {
        WorkerAssesses(pipeline, w, step, Worker(step).value);
      } else if step.ClaimJob? {
        ClaimAssesses(w, step.pid, step.job, step.began, step.duration, step.locked);
      }
    }
  }

  /** After every run, exactly the documents and links with injection indicators are quarantined, at trust 10,
      and all others are at trust 70: no published document has indicators. */
  lemma {:induction false} FlaggedContentIsQuarantined(pipeline: Pipeline, w: World, steps: seq<Step>)
    requires AllAssessed(w.db)
    ensures AllAssessed(Exec(pipeline, w, steps).db)
  {
    if steps != [] {
      var n := |steps| - 1;
      FlaggedContentIsQuarantined(pipeline, w, steps[..n]);
      StepAssesses(pipeline, Exec(pipeline, w, steps[..n]), steps[n]);
    }
  }
}
