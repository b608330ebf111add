/** Every step of the crawl protocol keeps its invariant. */
module CrawlProofs {
  import opened Prelude
  import opened CrawlStore
  import opened CrawlProtocol

  // ---------------------------------------------------------------- rows of a run

  lemma {:induction false} RowsOfConcat(a: seq<Output>, b: seq<Output>, job: JobId)
    ensures RowsOf(a + b, job) == RowsOf(a, job) + RowsOf(b, job)
  {
    if b == [] {
      assert a + b == a;
    } else {
      assert (a + b)[..|a + b| - 1] == a + b[..|b| - 1];
      RowsOfConcat(a, b[..|b| - 1], job);
    }
  }

  lemma {:induction false} RowsOfUniform(rows: seq<Output>, own: JobId, job: JobId)
    requires forall row :: row in rows ==> row.run == own
    ensures RowsOf(rows, job) == if job == own then rows else []
  {
    if rows != [] {
      RowsOfUniform(rows[..|rows| - 1], own, job);
      assert rows == rows[..|rows| - 1] + [rows[|rows| - 1]];
    }
  }

  lemma RowsOfAppend(rows: seq<Output>, more: seq<Output>, own: JobId, job: JobId)
    requires forall row :: row in more ==> row.run == own
    ensures RowsOf(rows + more, job) == if job == own then RowsOf(rows, job) + more else RowsOf(rows, job)
  {
    RowsOfConcat(rows, more, job);
    RowsOfUniform(more, own, job);
  }

  lemma {:induction false} RowsOfMember(rows: seq<Output>, row: Output)
    requires row in rows
    ensures row in RowsOf(rows, row.run)
  {
    if rows[|rows| - 1] != row {
      assert row in rows[..|rows| - 1];
      RowsOfMember(rows[..|rows| - 1], row);
    }
  }

  lemma {:induction false} MemberOfRows(rows: seq<Output>, job: JobId, row: Output)
    requires row in RowsOf(rows, job)
    ensures row in rows
  {
    if rows != [] && row in RowsOf(rows[..|rows| - 1], job) {
      MemberOfRows(rows[..|rows| - 1], job, row);
    }
  }

  // ---------------------------------------------------------------- keys of pages

  lemma {:induction false} PageKeysSize(source: SourceId, pages: seq<Page>)
    requires DistinctUrls(pages)
    ensures |PageKeys(source, pages)| == |pages|
  {
    if pages != [] {
      var front, last := pages[..|pages| - 1], pages[|pages| - 1];
      PageKeysSize(source, front);
      PageKeysExtend(source, pages, |pages| - 1);
      assert pages[..|pages|] == pages;
      assert KeyOf(source, last) !in PageKeys(source, front);
    } else {
      assert PageKeys(source, pages) == {};
    }
  }

  lemma PageKeysExtend(source: SourceId, pages: seq<Page>, n: nat)
    requires n < |pages|
    ensures PageKeys(source, pages[..n + 1]) == PageKeys(source, pages[..n]) + {KeyOf(source, pages[n])}
  {
    var longer, shorter := pages[..n + 1], pages[..n];
    forall key | key in PageKeys(source, longer) ensures key in PageKeys(source, shorter) + {KeyOf(source, pages[n])} {
      var i :| 0 <= i < |longer| && key == KeyOf(source, longer[i]);
      if i < n { assert shorter[i] == longer[i]; }
    }
    forall key | key in PageKeys(source, shorter) ensures key in PageKeys(source, longer) {
      var i :| 0 <= i < |shorter| && key == KeyOf(source, shorter[i]);
      assert longer[i] == shorter[i];
    }
    assert longer[n] == pages[n];
  }

  lemma {:induction false} ManifestKeysAre(source: SourceId, pages: seq<Page>)
    requires DistinctUrls(pages)
    ensures ManifestKeys(source, ManifestOf(pages)) == PageKeys(source, pages)
    ensures forall url :: url in ManifestOf(pages) ==> exists i :: 0 <= i < |pages| && pages[i].url == url
  {
    if pages == [] {
      assert PageKeys(source, pages) == {};
    } else {
      var front, last := pages[..|pages| - 1], pages[|pages| - 1];
      ManifestKeysAre(source, front);
      PageKeysExtend(source, pages, |pages| - 1);
      assert pages[..|pages|] == pages;
      var before, after := ManifestOf(front), ManifestOf(pages);
      assert last.url !in before;
      forall key | key in ManifestKeys(source, after) ensures key in PageKeys(source, pages) {
        var url :| url in after && key == KeyOf(source, after[url]);
        if url != last.url { assert url in before && before[url] == after[url]; }
      }
      forall key | key in PageKeys(source, front) ensures key in ManifestKeys(source, after) {
        var url :| url in before && key == KeyOf(source, before[url]);
        assert after[url] == before[url];
      }
      assert after[last.url] == last;
      forall url | url in after ensures exists i :: 0 <= i < |pages| && pages[i].url == url {
        if url == last.url { assert pages[|pages| - 1].url == url; }
        else {
          var i :| 0 <= i < |front| && front[i].url == url;
          assert pages[i].url == url;
        }
      }
    }
  }

  // ---------------------------------------------------------------- what a transaction touches

  ghost predicate TouchesOnly(db: Db, next: Db, job: JobId) {
    && (forall other :: other != job && other in db.jobs ==> other in next.jobs && next.jobs[other] == db.jobs[other])
    && (forall link: (JobId, DocKey) :: link.0 != job ==>
          (link in next.links <==> link in db.links) && (link in db.links ==> next.links[link] == db.links[link]))
    && (forall other :: other != job && other in db.runs ==> other in next.runs && next.runs[other] == db.runs[other])
  }

  lemma OwnedIsCurrent(db: Db, owner: string, claim: Claim, began: Time)
    requires ClaimMatches(db, owner, claim) && Owned(db, claim.job, claim.owner, began)
    ensures Current(db, claim)
  {
  }

  lemma SessionUntouched(db: Db, next: Db, job: JobId, owner: string, session: Session)
    requires TouchesOnly(db, next, job) && session.claim.job != job
    requires ClaimMatches(db, owner, session.claim) && ProgressMatches(db, session)
    ensures ClaimMatches(next, owner, session.claim) && ProgressMatches(next, session)
  {
    assert LinkedKeys(next, session.claim.job) == LinkedKeys(db, session.claim.job);
  }

  // A transaction of process `pid` on `job` leaves every other session consistent.
  lemma SessionsKept(w: World, next: World, pid: Pid, job: JobId)
    requires DistinctOwners(w) && SessionsMatch(w) && TouchesOnly(w.db, next.db, job)
    requires pid in w.procs && pid in next.procs && next.procs == w.procs[pid := w.procs[pid].(session := next.procs[pid].session)]
    requires job in w.db.jobs && job in next.db.jobs
    requires next.db.jobs[job].owner in {"", w.procs[pid].owner}
    requires next.db.jobs[job].attempt >= w.db.jobs[job].attempt && next.db.jobs[job].state != Queued
    requires || next.db.jobs[job].attempt > w.db.jobs[job].attempt || w.db.jobs[job].state == Queued
             || (w.db.jobs[job].state == Running && w.db.jobs[job].owner == w.procs[pid].owner)
    requires next.db.jobs[job].source == w.db.jobs[job].source && next.db.jobs[job].kind == w.db.jobs[job].kind
    requires next.procs[pid].session.Some? ==>
               && ClaimMatches(next.db, w.procs[pid].owner, next.procs[pid].session.value.claim)
               && ProgressMatches(next.db, next.procs[pid].session.value)
    ensures DistinctOwners(next) && SessionsMatch(next)
  {
    forall other | other in next.procs && next.procs[other].session.Some?
      ensures ClaimMatches(next.db, next.procs[other].owner, next.procs[other].session.value.claim)
      ensures ProgressMatches(next.db, next.procs[other].session.value)
    {
      if other != pid && next.procs[other].session.value.claim.job != job {
        SessionUntouched(w.db, next.db, job, w.procs[other].owner, w.procs[other].session.value);
      }
    }
  }

  // ---------------------------------------------------------------- each transaction keeps the database invariant

  lemma ClaimKeepsDb(pipeline: Pipeline, db: Db, job: JobId, owner: string, began: Time, duration: nat)
    requires DbInv(pipeline, db) && job in db.jobs && Claimable(db.jobs[job], began) && owner != ""
    ensures DbInv(pipeline, ClaimTx(db, job, owner, began, duration).0)
    ensures TouchesOnly(db, ClaimTx(db, job, owner, began, duration).0, job)
    ensures LinkedKeys(ClaimTx(db, job, owner, began, duration).0, job) == {}
  {
    var next := ClaimTx(db, job, owner, began, duration).0;
    forall other | other in next.jobs && other != job ensures LinkedKeys(next, other) == LinkedKeys(db, other) {}
    RunsUnchanged(pipeline, db, next);
  }

  // The run and output tables are untouched and no job changed its source.
  lemma RunsUnchanged(pipeline: Pipeline, db: Db, next: Db)
    requires RunsComplete(pipeline, db) && CandidatesUnique(db)
    requires next.runs == db.runs && next.documents == db.documents && next.sections == db.sections
    requires next.maps == db.maps && next.candidates == db.candidates
    requires forall job :: job in db.jobs ==> job in next.jobs && next.jobs[job].source == db.jobs[job].source
    ensures RunsComplete(pipeline, next) && CandidatesUnique(next)
  {
    forall job ensures RunComplete(pipeline, next, job) {
      assert RunComplete(pipeline, db, job);
    }
  }

  lemma HeartbeatKeepsDb(pipeline: Pipeline, db: Db, claim: Claim, began: Time, duration: nat)
    requires DbInv(pipeline, db) && HeartbeatTx(db, claim, began, duration).Some?
    ensures DbInv(pipeline, HeartbeatTx(db, claim, began, duration).value)
    ensures TouchesOnly(db, HeartbeatTx(db, claim, began, duration).value, claim.job)
  {
    var next := HeartbeatTx(db, claim, began, duration).value;
    forall other | other in next.jobs ensures LinkedKeys(next, other) == LinkedKeys(db, other) {}
    RunsUnchanged(pipeline, db, next);
  }

  lemma StoreKeepsDb(pipeline: Pipeline, db: Db, claim: Claim, page: Page, began: Time)
    requires DbInv(pipeline, db) && Current(db, claim) && StorePageTx(db, claim, page, began).Ok?
    ensures DbInv(pipeline, StorePageTx(db, claim, page, began).value.0)
    ensures TouchesOnly(db, StorePageTx(db, claim, page, began).value.0, claim.job)
    ensures LinkedKeys(StorePageTx(db, claim, page, began).value.0, claim.job)
         == LinkedKeys(db, claim.job) + {KeyOf(claim.source, page)}
  {
    var next := StorePageTx(db, claim, page, began).value.0;
    var key := KeyOf(claim.source, page);
    assert next.links.Keys == db.links.Keys + {(claim.job, key)};
    forall other | other in next.jobs && other != claim.job ensures LinkedKeys(next, other) == LinkedKeys(db, other) {}
    RunsUnchanged(pipeline, db, next);
  }

  lemma FailKeepsDb(pipeline: Pipeline, db: Db, claim: Claim, result: Ingestion, error: Error, began: Time)
    requires DbInv(pipeline, db) && FailTx(db, claim, result, error, began).Some?
    ensures DbInv(pipeline, FailTx(db, claim, result, error, began).value)
    ensures TouchesOnly(db, FailTx(db, claim, result, error, began).value, claim.job)
  {
    var next := FailTx(db, claim, result, error, began).value;
    forall other | other in next.jobs ensures LinkedKeys(next, other) == LinkedKeys(db, other) {}
    RunsUnchanged(pipeline, db, next);
  }

  lemma CompleteKeepsDb(pipeline: Pipeline, db: Db, claim: Claim, result: Ingestion, changed: nat, began: Time)
    requires DbInv(pipeline, db) && CompleteTx(db, claim, result, changed, began).Ok?
    requires claim.source == db.jobs[claim.job].source && claim.kind == db.jobs[claim.job].kind
    requires Current(db, claim) && DistinctUrls(result.pages)
    requires LinkedKeys(db, claim.job) == PageKeys(claim.source, result.pages)
    requires claim.kind == Website ==> claim.job in db.runs && db.runs[claim.job].manifest == ManifestOf(result.pages)
    ensures DbInv(pipeline, CompleteTx(db, claim, result, changed, began).value)
    ensures TouchesOnly(db, CompleteTx(db, claim, result, changed, began).value, claim.job)
  {
    var next := CompleteTx(db, claim, result, changed, began).value;
    RunsUnchanged(pipeline, db, next);
    assert ReviewComplete(next) by {
      PageKeysSize(claim.source, result.pages);
      ManifestKeysAre(claim.source, result.pages);
      forall job | job in next.jobs && next.jobs[job].state == Review
        ensures |LinkedKeys(next, job)| == next.jobs[job].fetched
        ensures next.jobs[job].kind == Website ==>
                  job in next.runs && LinkedKeys(next, job) == ManifestKeys(next.jobs[job].source, next.runs[job].manifest)
      {
        assert LinkedKeys(next, job) == LinkedKeys(db, job);
        if job != claim.job { assert next.jobs[job] == db.jobs[job]; }
      }
    }
  }

  // Committed runs are never queued or running, so a run either is there complete or is started from nothing.
  lemma EnsureRunningRunCases(pipeline: Pipeline, db: Db, claim: Claim, asset: Asset, manifest: Manifest, began: Time)
    requires RunsComplete(pipeline, db) && Owned(db, claim.job, claim.owner, began)
    ensures match EnsureRunningRun(db, claim, asset, manifest, began)
            case Err(_) => claim.job in db.runs
            case Ok(Complete) =>
              && claim.job in db.runs && db.runs[claim.job].asset == asset && db.runs[claim.job].manifest == manifest
              && db.runs[claim.job].state in {ReviewReady, RunPublished}
            case Ok(Proceed(started)) =>
              && claim.job !in db.runs
              && started == db.(runs := db.runs[claim.job :=
                                                  RunRow(claim.source, asset, RunRunning, claim.attempt, claim.owner, manifest)])
  {
    if claim.job in db.runs {
      assert RunComplete(pipeline, db, claim.job);
    } else {
      FirstRunStarts(db, claim, asset, manifest, began);
    }
  }

  lemma FirstRunStarts(db: Db, claim: Claim, asset: Asset, manifest: Manifest, began: Time)
    requires claim.job !in db.runs && Owned(db, claim.job, claim.owner, began)
    ensures EnsureRunningRun(db, claim, asset, manifest, began)
         == Ok(Proceed(db.(runs := db.runs[claim.job :=
                                             RunRow(claim.source, asset, RunRunning, claim.attempt, claim.owner, manifest)])))
  {
    var run := RunRow(claim.source, asset, RunRunning, claim.attempt, claim.owner, manifest);
    assert db.runs[claim.job := run][claim.job := run] == db.runs[claim.job := run];
  }

  // What a first persistence of documentation leaves behind.
  function DocumentationPersisted(pipeline: Pipeline, db: Db, claim: Claim, manifest: Manifest): Db {
    db.(runs := db.runs[claim.job := RunRow(claim.source, Documentation(claim.source), ReviewReady, claim.attempt, "", manifest)],
        documents := db.documents + DocumentRows(claim.job, pipeline.corpus(manifest).documents),
        sections := db.sections + SectionRows(claim.job, pipeline.corpus(manifest).sections),
        maps := db.maps + [MapRow(claim.job)])
  }

  function ContractPersisted(db: Db, claim: Claim, manifest: Manifest, target: ContractId, content: string): Db {
    db.(runs := db.runs[claim.job := RunRow(claim.source, Contract(target), ReviewReady, claim.attempt, "", manifest)],
        candidates := db.candidates + [CandidateRow(claim.job, target, content)])
  }

  lemma PersistDocumentationCases(pipeline: Pipeline, db: Db, claim: Claim, result: Ingestion, began: Time)
    requires RunsComplete(pipeline, db) && Owned(db, claim.job, claim.owner, began)
    ensures match PersistDocumentation(pipeline, db, claim, result, began)
            case Err(error) => claim.job in db.runs && error == RunConflict
            case Ok((next, outcome)) =>
              if claim.job in db.runs then
                && next == db && outcome == AlreadyPersisted
                && db.runs[claim.job].asset == Documentation(claim.source)
                && db.runs[claim.job].manifest == ManifestOf(result.pages)
              else
                outcome == Persisted && next == DocumentationPersisted(pipeline, db, claim, ManifestOf(result.pages))
  {
    var asset, manifest := Documentation(claim.source), ManifestOf(result.pages);
    EnsureRunningRunCases(pipeline, db, claim, asset, manifest, began);
    if claim.job in db.runs && db.runs[claim.job].asset == asset && db.runs[claim.job].manifest == manifest {
      CompleteRunHasOutput(pipeline, db, claim.job);
    }
  }

  lemma CompleteRunHasOutput(pipeline: Pipeline, db: Db, job: JobId)
    requires RunsComplete(pipeline, db) && job in db.runs && db.runs[job].asset.Documentation?
    ensures DocumentationOutputExists(db, job, pipeline.corpus(db.runs[job].manifest))
  {
    assert RunComplete(pipeline, db, job);
  }

  ghost predicate SameRows(db: Db, next: Db, job: JobId) {
    && RowsOf(next.documents, job) == RowsOf(db.documents, job)
    && RowsOf(next.sections, job) == RowsOf(db.sections, job)
    && RowsOf(next.maps, job) == RowsOf(db.maps, job)
    && RowsOf(next.candidates, job) == RowsOf(db.candidates, job)
  }

  lemma NewRunKeeps(pipeline: Pipeline, db: Db, next: Db, job: JobId)
    requires RunsComplete(pipeline, db) && RunComplete(pipeline, next, job)
    requires job in next.runs && next.runs == db.runs[job := next.runs[job]] && next.jobs == db.jobs
    requires forall other :: other != job ==> SameRows(db, next, other)
    ensures RunsComplete(pipeline, next)
  {
    forall other ensures RunComplete(pipeline, next, other) {
      if other != job {
        assert RunComplete(pipeline, db, other) && SameRows(db, next, other);
      }
    }
  }

  lemma DocumentationPersistedKeeps(pipeline: Pipeline, db: Db, claim: Claim, manifest: Manifest)
    requires RunsComplete(pipeline, db) && CandidatesUnique(db) && claim.job !in db.runs
    requires claim.job in db.jobs && db.jobs[claim.job].source == claim.source
    ensures RunsComplete(pipeline, DocumentationPersisted(pipeline, db, claim, manifest))
    ensures CandidatesUnique(DocumentationPersisted(pipeline, db, claim, manifest))
  {
    var next := DocumentationPersisted(pipeline, db, claim, manifest);
    var corpus := pipeline.corpus(manifest);
    forall other ensures other != claim.job ==> SameRows(db, next, other) {
      DocumentationRowsAdded(db, claim.job, corpus, other);
    }
    DocumentationRowsAdded(db, claim.job, corpus, claim.job);
    assert RunComplete(pipeline, db, claim.job);
    assert RunComplete(pipeline, next, claim.job);
    NewRunKeeps(pipeline, db, next, claim.job);
  }

  lemma DocumentationRowsAdded(db: Db, job: JobId, corpus: Corpus, other: JobId)
    ensures RowsOf(db.documents + DocumentRows(job, corpus.documents), other)
         == RowsOf(db.documents, other) + if other == job then DocumentRows(job, corpus.documents) else []
    ensures RowsOf(db.sections + SectionRows(job, corpus.sections), other)
         == RowsOf(db.sections, other) + if other == job then SectionRows(job, corpus.sections) else []
    ensures RowsOf(db.maps + [MapRow(job)], other) == RowsOf(db.maps, other) + if other == job then [MapRow(job)] else []
  {
    RowsOfAppend(db.documents, DocumentRows(job, corpus.documents), job, other);
    RowsOfAppend(db.sections, SectionRows(job, corpus.sections), job, other);
    RowsOfAppend(db.maps, [MapRow(job)], job, other);
  }

  lemma ContractPersistedKeeps(pipeline: Pipeline, db: Db, claim: Claim, page: Page, target: ContractId)
    requires RunsComplete(pipeline, db) && CandidatesUnique(db) && claim.job !in db.runs
    requires claim.job in db.jobs && db.jobs[claim.job].source == claim.source
    requires pipeline.contract(page.html).Some?
    requires !CandidateExists(db, target, pipeline.contract(page.html).value)
    ensures var next := ContractPersisted(db, claim, map[page.url := page], target, pipeline.contract(page.html).value);
            RunsComplete(pipeline, next) && CandidatesUnique(next)
  {
    var content := pipeline.contract(page.html).value;
    var next := ContractPersisted(db, claim, map[page.url := page], target, content);
    var row := CandidateRow(claim.job, target, content);
    forall other ensures other != claim.job ==> SameRows(db, next, other) {
      RowsOfAppend(db.candidates, [row], claim.job, other);
    }
    RowsOfAppend(db.candidates, [row], claim.job, claim.job);
    assert RunComplete(pipeline, db, claim.job);
    assert RowsOf(next.candidates, claim.job) == [row];
    assert CandidateOfPage(pipeline, claim.job, target, map[page.url := page], RowsOf(next.candidates, claim.job), page);
    assert RunComplete(pipeline, next, claim.job);
    NewRunKeeps(pipeline, db, next, claim.job);
    NewCandidateIsUnique(db, next, row);
  }

  lemma NewCandidateIsUnique(db: Db, next: Db, row: Output)
    requires CandidatesUnique(db) && row.CandidateRow? && !CandidateExists(db, row.contract, row.content)
    requires next.candidates == db.candidates + [row]
    ensures CandidatesUnique(next)
  {
    forall i | 0 <= i < |db.candidates|
      ensures db.candidates[i].CandidateRow?
           && !(db.candidates[i].contract == row.contract && db.candidates[i].content == row.content)
    {
      assert db.candidates[i] in db.candidates;
    }
  }

  // The candidate of a complete contract run is still there, so the earlier content check ends the transaction.
  lemma PersistOpenApiCases(pipeline: Pipeline, db: Db, claim: Claim, result: Ingestion, target: ContractId, began: Time)
    requires RunsComplete(pipeline, db) && Owned(db, claim.job, claim.owner, began)
    requires |result.pages| <= 1
    ensures match PersistOpenApi(pipeline, db, claim, result, target, began)
            case Err(error) => error == RunConflict || error == DocumentInvalid
            case Ok((next, outcome)) =>
              && |result.pages| == 1 && pipeline.contract(result.pages[0].html).Some?
              && var page := result.pages[0];
              if CandidateExists(db, target, pipeline.contract(page.html).value)
              then next == db && outcome == UnchangedContract
              else
                && claim.job !in db.runs && outcome == Persisted
                && next == ContractPersisted(db, claim, map[page.url := page], target, pipeline.contract(page.html).value)
  {
    if |result.pages| == 1 && pipeline.contract(result.pages[0].html).Some? {
      var page := result.pages[0];
      assert result.pages[..0] == [];
      assert ManifestOf(result.pages) == map[page.url := page];
      EnsureRunningRunCases(pipeline, db, claim, Contract(target), ManifestOf(result.pages), began);
      if claim.job in db.runs && db.runs[claim.job].asset == Contract(target)
         && db.runs[claim.job].manifest == ManifestOf(result.pages) {
        CompleteContractRunHasCandidate(pipeline, db, claim.job, page);
      }
    }
  }

  lemma CompleteContractRunHasCandidate(pipeline: Pipeline, db: Db, job: JobId, page: Page)
    requires RunsComplete(pipeline, db) && job in db.runs && db.runs[job].asset.Contract?
    requires db.runs[job].manifest == map[page.url := page]
    ensures pipeline.contract(page.html).Some?
    ensures CandidateExists(db, db.runs[job].asset.target, pipeline.contract(page.html).value)
  {
    assert RunComplete(pipeline, db, job);
    var target, manifest := db.runs[job].asset.target, db.runs[job].manifest;
    var known :| CandidateOfPage(pipeline, job, target, manifest, RowsOf(db.candidates, job), known);
    assert known.url in manifest;
    assert known == page;
    var row := CandidateRow(job, target, pipeline.contract(page.html).value);
    assert row in RowsOf(db.candidates, job);
    MemberOfRows(db.candidates, job, row);
  }

  // Only the run table, at this job, and the output tables differ.
  ghost predicate RunStarted(db: Db, next: Db, job: JobId) {
    && next.jobs == db.jobs && next.links == db.links
    && job !in db.runs && job in next.runs && next.runs == db.runs[job := next.runs[job]]
  }

  lemma RunStartedKeeps(pipeline: Pipeline, db: Db, next: Db, job: JobId)
    requires DbInv(pipeline, db) && RunsComplete(pipeline, next) && CandidatesUnique(next)
    requires RunStarted(db, next, job)
    ensures DbInv(pipeline, next) && TouchesOnly(db, next, job)
  {
    forall job ensures LinkedKeys(next, job) == LinkedKeys(db, job) {}
  }

  lemma PersistDocumentationKeepsDb(pipeline: Pipeline, db: Db, claim: Claim, result: Ingestion, began: Time)
    requires DbInv(pipeline, db) && Owned(db, claim.job, claim.owner, began)
    requires claim.source == db.jobs[claim.job].source
    requires PersistDocumentation(pipeline, db, claim, result, began).Ok?
    ensures var next := PersistDocumentation(pipeline, db, claim, result, began).value.0;
            && DbInv(pipeline, next) && (next == db || RunStarted(db, next, claim.job))
            && claim.job in next.runs && next.runs[claim.job].manifest == ManifestOf(result.pages)
  {
    var next := PersistDocumentation(pipeline, db, claim, result, began).value.0;
    PersistDocumentationCases(pipeline, db, claim, result, began);
    if claim.job !in db.runs {
      DocumentationPersistedKeeps(pipeline, db, claim, ManifestOf(result.pages));
      RunStartedKeeps(pipeline, db, next, claim.job);
    }
  }

  lemma PersistOpenApiKeepsDb(pipeline: Pipeline, db: Db, claim: Claim, result: Ingestion, target: ContractId, began: Time)
    requires DbInv(pipeline, db) && Owned(db, claim.job, claim.owner, began)
    requires claim.source == db.jobs[claim.job].source && |result.pages| <= 1
    requires PersistOpenApi(pipeline, db, claim, result, target, began).Ok?
    ensures var next := PersistOpenApi(pipeline, db, claim, result, target, began).value.0;
            DbInv(pipeline, next) && (next == db || RunStarted(db, next, claim.job))
  {
    var next := PersistOpenApi(pipeline, db, claim, result, target, began).value.0;
    PersistOpenApiCases(pipeline, db, claim, result, target, began);
    if next != db {
      ContractPersistedKeeps(pipeline, db, claim, result.pages[0], target);
      RunStartedKeeps(pipeline, db, next, claim.job);
    }
  }

  lemma PersistKeepsDb(pipeline: Pipeline, db: Db, claim: Claim, result: Ingestion, began: Time)
    requires DbInv(pipeline, db) && ValidIngestion(claim.kind, result)
    requires claim.job in db.jobs && claim.source == db.jobs[claim.job].source
    requires PersistTx(pipeline, db, claim, result, began).Ok?
    ensures var next := PersistTx(pipeline, db, claim, result, began).value.0;
            && DbInv(pipeline, next) && (next == db || RunStarted(db, next, claim.job))
            && (claim.kind == Website ==>
                  claim.job in next.runs && next.runs[claim.job].manifest == ManifestOf(result.pages))
  {
    var target := ResolveContractTarget(db, claim.source);
    if claim.kind != Git {
      if claim.kind == Website || target == Ok(None) {
        if PersistDocumentation(pipeline, db, claim, result, began).Ok? {
          PersistDocumentationKeepsDb(pipeline, db, claim, result, began);
        }
      } else if target.Ok? {
        PersistOpenApiKeepsDb(pipeline, db, claim, result, target.value.value, began);
      }
    }
  }
}
