/**
 The crawl tables as one mutable store, updated in place the way the SQL statements do.
 Each method is one transaction; on an error the tables are as they were.
 */
module CrawlDatabase {
  import opened Prelude
  import opened CrawlStore

  // The same rows under the same keys, but for this one, which is neither added nor removed.
  predicate AllOthersKept<K, V(==)>(before: map<K, V>, after: map<K, V>, key: K) {
    after.Keys == before.Keys && forall other :: other in after && other != key ==> after[other] == before[other]
  }

  // Queued, or running under a lease that has run out.
  predicate IsFree(row: JobRow, began: Time) {
    row.state == Queued || (row.state == Running && (row.expires == None || row.expires.value <= began))
  }

  predicate SameIdentity(before: JobRow, after: JobRow) {
    && after.source == before.source && after.kind == before.kind
    && after.queuedAt == before.queuedAt && after.attempt == before.attempt
  }

  function CountsOf(row: JobRow): (nat, nat, nat, nat) {
    (row.fetched, row.changed, row.failed, row.skipped)
  }

  class Database {
    var jobs: map<JobId, JobRow>
    var links: map<(JobId, DocKey), Link>
    var docs: map<DocKey, DocRow>
    var sources: map<SourceId, SourceRow>
    var runs: map<JobId, RunRow>
    var documents: seq<Output>
    var sections: seq<Output>
    var maps: seq<Output>
    var candidates: seq<Output>
    var bindings: map<SourceId, seq<ContractId>>

    function Contents(): Db
      reads this
    {
      Db(jobs, links, docs, sources, runs, documents, sections, maps, candidates, bindings)
    }

    method ClaimJob(owner: string, began: Time, duration: nat, locked: set<JobId>) returns (claim: Option<Claim>)
      modifies this
      ensures claim.None? ==>
                && Contents() == old(Contents())
                && forall job :: job in jobs && job !in locked ==> !Claimable(jobs[job], began)
      ensures claim.Some? ==>
                && FirstClaimable(old(Contents()), claim.value.job, began, locked)
                && (Contents(), claim.value) == ClaimTx(old(Contents()), claim.value.job, owner, began, duration)
      ensures claim.Some? ==>
                var row := old(jobs)[claim.value.job];
                && IsFree(row, began)
                && (forall other :: other in old(jobs) && other !in locked && IsFree(old(jobs)[other], began) ==>
                      row.queuedAt < old(jobs)[other].queuedAt
                      || (row.queuedAt == old(jobs)[other].queuedAt && claim.value.job <= other))
                && claim.value == Claim(claim.value.job, row.source, row.kind, owner,
                                        if row.state == Running then row.attempt + 1 else row.attempt)
                && jobs[claim.value.job] == JobRow(row.source, row.kind, row.queuedAt, Running, claim.value.attempt, owner,
                                                   Some(began + duration), 0, 0, 0, 0, None)
                && AllOthersKept(old(jobs), jobs, claim.value.job)
    {
      var candidate: Option<JobId> := None;
      var remaining := jobs.Keys;
      while remaining != {}
        invariant remaining <= jobs.Keys && Contents() == old(Contents())
        invariant candidate.Some? ==>
                    && candidate.value in jobs && candidate.value !in locked
                    && Claimable(jobs[candidate.value], began)
        invariant forall job :: job in jobs && job !in remaining && job !in locked && Claimable(jobs[job], began) ==>
                    candidate.Some? && Precedes(candidate.value, jobs[candidate.value], job, jobs[job])
        decreases remaining
      {
        var job :| job in remaining;
        remaining := remaining - {job};
        if job !in locked && Claimable(jobs[job], began) {
          if candidate.None? || !Precedes(candidate.value, jobs[candidate.value], job, jobs[job]) {
            candidate := Some(job);
          }
        }
      }
      if candidate.None? { return None; }
      var job := candidate.value;
      var before := jobs[job];
      jobs := jobs[job := ClaimedRow(before, owner, began + duration)];
      if before.state == Running { links := WithoutLinks(links, job); }
      claim := Some(Claim(job, before.source, before.kind, owner, jobs[job].attempt));
    }

    method HeartbeatJob(claim: Claim, began: Time, duration: nat) returns (renewed: bool)
      modifies this`jobs
      ensures renewed <==> HeartbeatTx(old(Contents()), claim, began, duration).Some?
      ensures Contents() == if renewed then HeartbeatTx(old(Contents()), claim, began, duration).value else old(Contents())
      ensures renewed <==>
                && claim.job in old(jobs) && old(jobs)[claim.job].state == Running && old(jobs)[claim.job].owner == claim.owner
                && old(jobs)[claim.job].expires.Some? && began < old(jobs)[claim.job].expires.value
      ensures renewed <==> Owned(old(Contents()), claim.job, claim.owner, began)
      ensures renewed ==>
                && claim.job in jobs && jobs[claim.job].expires == Some(began + duration)
                && jobs[claim.job] == old(jobs)[claim.job].(expires := jobs[claim.job].expires)
                && AllOthersKept(old(jobs), jobs, claim.job)
    {
      renewed := Owned(Contents(), claim.job, claim.owner, began);
      if renewed { jobs := jobs[claim.job := jobs[claim.job].(expires := Some(began + duration))]; }
    }

    // Creates or reassesses the knowledge document of a page.
    method StoreDocument(key: DocKey, page: Page) returns (changed: bool)
      modifies this`docs
      ensures var (doc, reported) := StoredDoc(if key in old(docs) then Some(old(docs)[key]) else None, page);
              docs == old(docs)[key := doc] && changed == reported
      ensures key in docs && docs[key].snapshot == Assessment(page.rendered, page.indicators)
      ensures docs[key].indicators == page.indicators && docs[key].trust == if page.indicators != [] then 10 else 70
      ensures docs[key].state ==
                if page.indicators != [] then Quarantined
                else if key in old(docs) && old(docs)[key].state == Published then Published
                else Validated
      ensures key !in old(docs) ==> changed && docs[key].revision == 1
      ensures key in old(docs) ==>
                var before, after := old(docs)[key], docs[key];
                var reassessed := (after.state, after.trust, after.indicators) != (before.state, before.trust, before.indicators);
                && (changed <==> reassessed || after.snapshot != before.snapshot)
                && after.revision == if reassessed then before.revision + 1 else before.revision
      ensures forall other :: other != key ==>
                (other in docs <==> other in old(docs)) && (other in docs ==> docs[other] == old(docs)[other])
    {
      var trust := if |page.indicators| > 0 then 10 else 70;
      var state := if |page.indicators| > 0 then Quarantined else Validated;
      changed := key !in docs;
      if changed {
        docs := docs[key := DocRow(Assessment(page.rendered, page.indicators), state, trust, page.indicators, 1)];
      } else {
        var current := docs[key];
        if current.snapshot != Assessment(page.rendered, page.indicators) {
          docs := docs[key := current.(snapshot := Assessment(page.rendered, page.indicators))];
          changed := true;
        }
        if |page.indicators| == 0 && current.state == Published { state := Published; }
        if current.state != state || current.trust != trust || current.indicators != page.indicators {
          docs := docs[key := docs[key].(state := state, trust := trust, indicators := page.indicators,
                                         revision := current.revision + 1)];
          changed := true;
        }
      }
    }

    method StorePageWithReference(claim: Claim, page: Page, began: Time) returns (stored: Result<bool, Error>)
      modifies this`docs, this`links
      ensures match StorePageTx(old(Contents()), claim, page, began)
              case Err(error) => stored == Err(error) && Contents() == old(Contents())
              case Ok((db, changed)) => stored == Ok(changed) && Contents() == db
      ensures stored.Ok? ==>
                var key := DocKey(claim.source, page.url, page.html);
                && key in docs && docs[key].indicators == page.indicators && (claim.job, key) in links
                && links[(claim.job, key)] ==
                     Link(stored.value, docs[key].state, docs[key].trust, page.indicators, claim.attempt)
                && forall other :: other != (claim.job, key) ==>
                     (other in links <==> other in old(links)) && (other in links ==> links[other] == old(links)[other])
    {
      if !Owned(Contents(), claim.job, claim.owner, began) { return Err(LeaseLost); }
      if claim.source !in sources { return Err(SourceGone); }
      var key := KeyOf(claim.source, page);
      var changed := StoreDocument(key, page);
      var doc := docs[key];
      links := links[(claim.job, key) := Link(changed, doc.state, doc.trust, doc.indicators, claim.attempt)];
      stored := Ok(changed);
    }

    // Reassesses the source of a finished crawl.
    method AssessSource(source: SourceId, result: Ingestion, changed: nat)
      modifies this`sources
      ensures sources == if source in old(sources)
                         then old(sources)[source := AssessedSource(old(sources)[source], result, changed)] else old(sources)
      ensures AllOthersKept(old(sources), sources, source)
      ensures source in sources ==>
                && (sources[source].state ==
                      if result.failed > 0 || result.skipped > 0
                         || exists i :: 0 <= i < |result.pages| && |result.pages[i].indicators| > 0 then Quarantined
                      else if old(sources)[source].state == Published then Published
                      else Validated)
                && sources[source].revision in
                   {old(sources)[source].revision, old(sources)[source].revision + 1}
                && (sources[source].revision == old(sources)[source].revision <==>
                      changed == 0 && sources[source].state == old(sources)[source].state)
    {
      if source in sources { sources := sources[source := AssessedSource(sources[source], result, changed)]; }
    }

    method CompleteJob(claim: Claim, result: Ingestion, changed: nat, began: Time) returns (done: Result<(), Error>)
      modifies this`jobs, this`sources
      ensures match CompleteTx(old(Contents()), claim, result, changed, began)
              case Err(error) => done == Err(error) && Contents() == old(Contents())
              case Ok(db) => done == Ok(()) && Contents() == db
      ensures done.Ok? <==> Owned(old(Contents()), claim.job, claim.owner, began)
      ensures done.Ok? ==>
                && claim.job in jobs && jobs[claim.job].state == Review && jobs[claim.job].owner == ""
                && jobs[claim.job].expires == None && jobs[claim.job].error == None
                && CountsOf(jobs[claim.job]) == (|result.pages|, changed, result.failed, result.skipped)
                && SameIdentity(old(jobs)[claim.job], jobs[claim.job])
                && AllOthersKept(old(jobs), jobs, claim.job) && AllOthersKept(old(sources), sources, claim.source)
      ensures done.Ok? && claim.source in sources ==>
                && (sources[claim.source].state ==
                      if result.failed > 0 || result.skipped > 0
                         || exists i :: 0 <= i < |result.pages| && |result.pages[i].indicators| > 0 then Quarantined
                      else if old(sources)[claim.source].state == Published then Published
                      else Validated)
                && sources[claim.source].revision in
                   {old(sources)[claim.source].revision, old(sources)[claim.source].revision + 1}
                && (sources[claim.source].revision == old(sources)[claim.source].revision <==>
                      changed == 0 && sources[claim.source].state == old(sources)[claim.source].state)
    {
      if !Owned(Contents(), claim.job, claim.owner, began) { return Err(LeaseLost); }
      AssessSource(claim.source, result, changed);
      jobs := jobs[claim.job := jobs[claim.job].(state := Review, owner := "", expires := None, error := None,
                                                 fetched := |result.pages|, changed := changed,
                                                 failed := result.failed, skipped := result.skipped)];
      done := Ok(());
    }

    method FailJob(claim: Claim, result: Ingestion, error: Error, began: Time) returns (recorded: bool)
      modifies this`jobs
      ensures recorded <==> FailTx(old(Contents()), claim, result, error, began).Some?
      ensures Contents() == if recorded then FailTx(old(Contents()), claim, result, error, began).value else old(Contents())
      ensures recorded <==> Owned(old(Contents()), claim.job, claim.owner, began)
      ensures recorded ==>
                && claim.job in jobs && jobs[claim.job].state == Failed && jobs[claim.job].owner == ""
                && jobs[claim.job].expires == None && jobs[claim.job].error == Some(error)
                && jobs[claim.job].fetched == |result.pages| && jobs[claim.job].changed == old(jobs)[claim.job].changed
                && (jobs[claim.job].failed == if result.failed == 0 then 1 else result.failed)
                && jobs[claim.job].skipped == result.skipped
                && SameIdentity(old(jobs)[claim.job], jobs[claim.job])
                && AllOthersKept(old(jobs), jobs, claim.job)
    {
      recorded := Owned(Contents(), claim.job, claim.owner, began);
      if recorded {
        jobs := jobs[claim.job := jobs[claim.job].(state := Failed, owner := "", expires := None, error := Some(error),
                                                   fetched := |result.pages|,
                                                   failed := if result.failed < 1 then 1 else result.failed,
                                                   skipped := result.skipped)];
      }
    }

    // Puts back what the transaction found.
    method Rollback(saved: Db)
      modifies this
      ensures Contents() == saved
    {
      jobs, links, docs, sources, runs := saved.jobs, saved.links, saved.docs, saved.sources, saved.runs;
      documents, sections, maps, candidates := saved.documents, saved.sections, saved.maps, saved.candidates;
      bindings := saved.bindings;
    }

    // True when the run is complete already, false when it is now running.
    method EnsureRunningRun(claim: Claim, asset: Asset, manifest: Manifest, began: Time) returns (complete: Result<bool, Error>)
      modifies this`runs
      ensures match CrawlStore.EnsureRunningRun(old(Contents()), claim, asset, manifest, began)
              case Err(error) => complete == Err(error)
              case Ok(Complete) => complete == Ok(true) && Contents() == old(Contents())
              case Ok(Proceed(db)) => complete == Ok(false) && Contents() == db
    {
      if claim.job !in runs && Owned(Contents(), claim.job, claim.owner, began) {
        runs := runs[claim.job := RunRow(claim.source, asset, RunRunning, claim.attempt, claim.owner, manifest)];
      }
      if claim.job !in runs { return Err(RunConflict); }
      var run := runs[claim.job];
      if !RunIdentityMatches(run, claim, asset) { return Err(RunConflict); }
      if run.state == ReviewReady || run.state == RunPublished {
        return if run.manifest != manifest then Err(RunConflict) else Ok(true);
      }
      if run.state != RunQueued && run.state != RunRunning { return Err(RunConflict); }
      if run.attempt != claim.attempt { return Err(RunConflict); }
      runs := runs[claim.job := run.(state := RunRunning, manifest := manifest, owner := claim.owner)];
      complete := Ok(false);
    }

    method MarkReviewReady(claim: Claim, began: Time) returns (done: Result<(), Error>)
      requires claim.job in runs
      modifies this`runs
      ensures match CrawlStore.MarkReviewReady(old(Contents()), claim, began)
              case Err(error) => done == Err(error) && Contents() == old(Contents())
              case Ok(db) => done == Ok(()) && Contents() == db
      ensures done.Ok? <==>
                && Owned(old(Contents()), claim.job, claim.owner, began)
                && old(runs)[claim.job].state == RunRunning && old(runs)[claim.job].owner == claim.owner
      ensures done.Ok? ==>
                && claim.job in runs && runs[claim.job].state == ReviewReady && runs[claim.job].owner == ""
                && runs[claim.job] == old(runs)[claim.job].(state := runs[claim.job].state, owner := runs[claim.job].owner)
                && AllOthersKept(old(runs), runs, claim.job)
    {
      var run := runs[claim.job];
      if !Owned(Contents(), claim.job, claim.owner, began) || run.state != RunRunning || run.owner != claim.owner {
        return Err(LeaseLost);
      }
      runs := runs[claim.job := run.(state := ReviewReady, owner := "")];
      done := Ok(());
    }

    method InsertDocuments(job: JobId, rows: seq<string>)
      modifies this`documents
      ensures documents == old(documents) + DocumentRows(job, rows)
    {
      for i := 0 to |rows|
        invariant documents == old(documents) + DocumentRows(job, rows[..i])
      {
        documents := documents + [DocumentRow(job, rows[i])];
        assert DocumentRows(job, rows[..i + 1]) == DocumentRows(job, rows[..i]) + [DocumentRow(job, rows[i])];
      }
      assert rows[..|rows|] == rows;
    }

    method InsertSections(job: JobId, rows: seq<(string, string)>)
      modifies this`sections
      ensures sections == old(sections) + SectionRows(job, rows)
    {
      for i := 0 to |rows|
        invariant sections == old(sections) + SectionRows(job, rows[..i])
      {
        sections := sections + [SectionRow(job, rows[i].0, rows[i].1)];
        assert SectionRows(job, rows[..i + 1]) == SectionRows(job, rows[..i]) + [SectionRow(job, rows[i].0, rows[i].1)];
      }
      assert rows[..|rows|] == rows;
    }

    // Inserts the output of a started run and marks the run ready for review.
    method WriteDocumentation(corpus: Corpus, claim: Claim, began: Time) returns (done: Result<(), Error>)
      requires claim.job in runs
      modifies this`documents, this`sections, this`maps, this`runs
      ensures match CrawlStore.MarkReviewReady(WithDocumentation(old(Contents()), claim.job, corpus), claim, began)
              case Err(error) => done == Err(error)
              case Ok(db) => done == Ok(()) && Contents() == db
    {
      InsertDocuments(claim.job, corpus.documents);
      InsertSections(claim.job, corpus.sections);
      maps := maps + [MapRow(claim.job)];
      done := MarkReviewReady(claim, began);
    }

    method PersistDocumentation(pipeline: Pipeline, claim: Claim, result: Ingestion, began: Time)
      returns (outcome: Result<Outcome, Error>)
      modifies this
      ensures match CrawlStore.PersistDocumentation(pipeline, old(Contents()), claim, result, began)
              case Err(error) => outcome == Err(error) && Contents() == old(Contents())
              case Ok((db, value)) => outcome == Ok(value) && Contents() == db
    {
      var saved := Contents();
      var manifest := ManifestOf(result.pages);
      var corpus := pipeline.corpus(manifest);
      var complete := EnsureRunningRun(claim, Documentation(claim.source), manifest, began);
      if complete.Err? { Rollback(saved); return Err(complete.error); }
      if complete.value {
        return if DocumentationOutputExists(Contents(), claim.job, corpus) then Ok(AlreadyPersisted) else Err(RunIncomplete);
      }
      var done := WriteDocumentation(corpus, claim, began);
      if done.Err? { Rollback(saved); return Err(done.error); }
      outcome := Ok(Persisted);
    }

    method PersistOpenApi(pipeline: Pipeline, claim: Claim, result: Ingestion, target: ContractId, began: Time)
      returns (outcome: Result<Outcome, Error>)
      modifies this
      ensures match CrawlStore.PersistOpenApi(pipeline, old(Contents()), claim, result, target, began)
              case Err(error) => outcome == Err(error) && Contents() == old(Contents())
              case Ok((db, value)) => outcome == Ok(value) && Contents() == db
    {
      if |result.pages| == 0 { return Err(DocumentInvalid); }
      var built := pipeline.contract(result.pages[0].html);
      if built.None? { return Err(DocumentInvalid); }
      if CandidateExists(Contents(), target, built.value) { return Ok(UnchangedContract); }
      var saved := Contents();
      var complete := EnsureRunningRun(claim, Contract(target), ManifestOf(result.pages), began);
      if complete.Err? { Rollback(saved); return Err(complete.error); }
      if complete.value {
        return if |RowsForTarget(candidates, claim.job, target)| == 1 then Ok(AlreadyPersisted) else Err(RunIncomplete);
      }
      candidates := candidates + [CandidateRow(claim.job, target, built.value)];
      var done := MarkReviewReady(claim, began);
      if done.Err? { Rollback(saved); return Err(done.error); }
      outcome := Ok(Persisted);
    }

    method PersistDeveloperAssetCandidates(pipeline: Pipeline, claim: Claim, result: Ingestion, began: Time)
      returns (outcome: Result<Outcome, Error>)
      modifies this
      ensures match PersistTx(pipeline, old(Contents()), claim, result, began)
              case Err(error) => outcome == Err(error) && Contents() == old(Contents())
              case Ok((db, value)) => outcome == Ok(value) && Contents() == db
    {
      if claim.kind == Git { return Ok(PendingTarget); }
      if !Owned(Contents(), claim.job, claim.owner, began) { return Err(LeaseLost); }
      if claim.kind == Website {
        outcome := PersistDocumentation(pipeline, claim, result, began);
        return;
      }
      var target := ResolveContractTarget(Contents(), claim.source);
      if target.Err? { return Err(target.error); }
      if target.value.Some? {
        outcome := PersistOpenApi(pipeline, claim, result, target.value.value, began);
      } else if claim.kind == OpenApi {
        outcome := Ok(PendingTarget);
      } else {
        outcome := PersistDocumentation(pipeline, claim, result, began);
      }
    }
  }
}
