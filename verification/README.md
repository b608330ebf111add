# A verified model of the crawler, its ingestion pipeline and the recovery protocols

The project models, in Dafny, the parts of the repository where many cases meet: the lease protocol of
the crawl workers with exactly-once persistence of candidates; the pipeline that cuts documents into
sections; the YAML, Markdown and HTML parsers; canonical JSON and OpenAPI extraction; and four small
protocols that survive lost answers, repeated requests and oversized bodies. `dafny verify dfyconfig.toml`
checks the whole project.

## How the parts fit

- `CrawlStore` has the rows and the transactions of `crawler/index.ts` and `crawler/candidate-persistence.ts`
  as functions; `CrawlDatabase` has them as methods that update tables in place and are proved equal to the
  functions. `CrawlProtocol` adds worker processes, a clock, crashes, heartbeats, takeovers, lost responses and
  reviews; a run is any sequence of such steps. Each `BEGIN ... COMMIT` is one step, and `now()` is a start
  time at or before the time of the step. `CrawlProofs` and `CrawlTheorems` hold the invariants and what
  follows from them, `CrawlPublication` what crawling does to documents and sources. The guards compare owner ids only, so owner ids of live processes are assumed distinct;
  `SharedOwnerBreaksTheLease` is a run that shows the assumption is needed.
- `Outline`, `Segment`, `Slugs` and `Parents` cover headings: the outline forest, the sections, the anchors and
  the parent links.
- `YamlBlocks`, `Lines`, `Markdown`, `CodeText`, `Fence` and `Html` cover the parsers, `Canonical`, `OpenApi` and
  `ContractMap` the values. `Text` has JavaScript strings as sequences of UTF-16 code units.
- `ContractSetup` (with `Ways`), `Webhook`, `Counter` and `BoundedBody` are the small protocols.
- `YamlMeaning`, `MarkdownBlocks`, `HtmlNesting`, `CanonicalForm`, `OpenApiContents`, `OpenApiRecords`,
  `ContractMapContents`, `ContractReview` and `WebhookAnswers` say what the results are in terms of the input alone:
  lines, printed trees, places in a document, the records an attempt was given, the requests that came in.

Where the source updates things step by step, a method with a loop, or a class with fields, is proved equal to
a function, and the properties are proved of the function. Hashes are injective, so a hash is modelled by what
it is taken of.

## Where the code differs from what it promises

The model follows the code. The members named say when the two part, with the exact condition where one decides.

- Lines of Markdown, and of YAML at `crawler/ingestion/structured.ts:66`, are split at `\n` by a pattern that also
  stops at `\r`, U+2028 and U+2029 and then drops text; the stripping of `\r` is never reached
  (`Lines.LinesTileIff`, `Fence.FenceRoundTrip`).
- A paragraph whose inline text is empty swallows the line after it (`Markdown.UncoveredLines`,
  `Markdown.EmptyParagraphTakesNextLine`, `Markdown.EmptyLineHidesBlock`).
- `uniqueSlug` can repeat an anchor (`Slugs.AnchorsDistinctIff`, `Slugs.UniqueSlugRepeats`).
- In the YAML subset `- k:` takes the next, deeper key as its value. A tree whose first keys stand on the dash's
  line reads back exactly when no list item is an object with further keys whose first has no value
  (`YamlBlocks.YamlRoundTrip`, `YamlBlocks.DashKeyTakesSibling`).
- A list at the indent of its key is not read as the key's value. With objects below their dashes, a document
  that has one is refused, whatever its depth (`YamlBlocks.FlushListsAreRefused`); below a key without a value on a
  dash's line it is accepted, as another member of the item, named `value` (`YamlBlocks.FlushListUnderDashKey`).
- A closing tag without a match closes every open element (`Html.StrayClosingTagClosesAll`).
- `normalizeCode` is not idempotent as a whole, because NUL is removed after composition
  (`CodeText.NormalizingTwiceMayDiffer`). It is exactly when removing the NULs leaves the text composed, and so for
  every text without NUL (`CodeText.NormalizingTwiceIff`); its trimming always is (`CodeText.TidyIsIdempotent`).
- Cutting prose prefers paragraph and sentence ends in name only: the last blank of any kind wins
  (`Segment.BoundaryIsLastBlank`).
- The message of `section_oversized` names code blocks and tables; the sections reported are exactly those of the
  code blocks, tables and headings that print to more than the limit (`Segment.SegmentDocument`,
  `Segment.InOversizedBlocks`), so a document of one long heading has it reported (`Segment.LongHeadingsAreOversized`).
- Canonical JSON prints numbers beyond the range of a double as `null`, and lists array-index keys first
  (`Canonical.CanonicalTextIdentifies`, `Canonical.EnumeratedOrder`).

## Model

| member | source | states |
|---|---|---|
| `CrawlDatabase.Database.ClaimJob` | crawler/index.ts:495-561 | The oldest unlocked job that is queued or whose lease has run out is taken, or there is none; its row starts over under the new owner, with one more attempt if it was running, and its links go; all other rows stay |
| `CrawlDatabase.Database.HeartbeatJob` | crawler/index.ts:563-581 | The expiry of this job is renewed exactly under the lease guard; every other field, row and table stays |
| `CrawlDatabase.Database.StoreDocument` | crawler/index.ts:642-704 | A page's document is quarantined at trust 10 exactly if the page has indicators, and otherwise at trust 70, published only if it was; it is reported as changed exactly if it is new or its snapshot, state, trust or indicators differ; all others stay |
| `CrawlDatabase.Database.StorePageWithReference` | crawler/index.ts:610-726 | Document and job link are written together under the lease, or nothing is; the link says what the document was assessed as and whether it changed |
| `CrawlDatabase.Database.CompleteJob` | crawler/index.ts:732-810 | Under the lease the job goes to review with its counts and without its lease; its source is quarantined if a page failed, was skipped or has indicators, and is otherwise published if it was and validated if not; its revision grows exactly for a new state or changed pages; all other rows stay |
| `CrawlDatabase.Database.FailJob` | crawler/index.ts:898-951 | Exactly under the lease guard the job fails with its error, at least one failure counted and the number of changed pages kept; all other rows stay |
| `CrawlDatabase.Database.EnsureRunningRun` | crawler/candidate-persistence.ts:371-469 | A run is started, resumed, found complete with the same manifest, or refused |
| `CrawlDatabase.Database.MarkReviewReady` | crawler/candidate-persistence.ts:500-511 | Exactly a running run of this owner becomes ready under the lease and loses its owner; its other fields and all other runs stay |
| `CrawlDatabase.Database.PersistDocumentation` | crawler/candidate-persistence.ts:621-800 | Run, documents, sections and map are written together; any error leaves the tables as they were |
| `CrawlDatabase.Database.PersistOpenApi` | crawler/candidate-persistence.ts:857-1040 | Run and contract candidate are written together; a candidate with the same content ends the transaction; any error leaves the tables as they were |
| `CrawlDatabase.Database.PersistDeveloperAssetCandidates` | crawler/candidate-persistence.ts:1042-1075 | The kind of source and its bound contract decide what is persisted, all of it or nothing |
| `CrawlTheorems.StepKeepsInv` | crawler/index.ts:821-876 | Every step of a worker, a review or the clock keeps the invariant of rows, links, sessions, runs and outputs |
| `CrawlTheorems.RunKeepsInv` | crawler/index.ts:953-975 | So does every run with distinct owner ids |
| `CrawlTheorems.LinksBelongToCurrentAttempt` | crawler/index.ts:706-717 | All document links of a job were written by the attempt now on its row |
| `CrawlTheorems.AtMostOneHolder` | crawler/index.ts:595-608 | Of all live workers at most one passes the lease guard of a job, and its attempt is the row's |
| `CrawlTheorems.StaleWorkerChangesNothing` | crawler/index.ts:785-788 | A worker whose claim is no longer the row's changes nothing, whatever it tries |
| `CrawlTheorems.LostClaimsStayLost` | crawler/index.ts:595-608 | A lost claim never becomes current again |
| `CrawlTheorems.RowsAdvance` | crawler/index.ts:511-545 | An attempt grows by one only, only when an expired lease is taken over, and the links are cleared with it |
| `CrawlTheorems.TerminalJobsAreFrozen` | crawler/index.ts:732-810 | A job in review or failed keeps its row and links for the rest of every run |
| `CrawlTheorems.ReviewedJobsAreComplete` | crawler/index.ts:770-800 | A job in review has one link for each page it fetched; a website job also has a run for exactly those pages |
| `CrawlTheorems.RunsAreAllOrNothing` | crawler/candidate-persistence.ts:677-683 | Every committed run has its whole typed output once and is past running; without a run there is no output |
| `CrawlTheorems.PersistedRunsAreFrozen` | crawler/candidate-persistence.ts:371-469 | The manifest, asset and output of a persisted run never change |
| `CrawlTheorems.PersistedJobsWriteNothing` | crawler/candidate-persistence.ts:1042-1075 | For a job that has a run, of every kind of source, a transaction that succeeds changes no table and is not a first persistence |
| `CrawlTheorems.RetriedDocumentationWritesNothing` | crawler/candidate-persistence.ts:371-469 | A later attempt for a website or an unbound upload writes nothing: it succeeds exactly for the same asset and manifest of a run that is not cancelled, and is refused otherwise |
| `CrawlTheorems.RetriedContractWritesNothing` | crawler/candidate-persistence.ts:857-1040 | A later attempt for a bound contract writes nothing: it is unchanged exactly if a candidate of that content exists, an invalid document or a conflict otherwise; the run's own page is always unchanged, even after its run was cancelled |
| `CrawlTheorems.CandidatesAreUnique` | crawler/candidate-persistence.ts:883-932 | No contract has two candidates with the same content and no run has two |
| `CrawlTheorems.ContractNeverAlreadyPersisted` | crawler/candidate-persistence.ts:883-932 | The exit for an already persisted contract run is unreachable |
| `CrawlTheorems.OutputNeverMissing` | crawler/candidate-persistence.ts:677-683 | The errors for a complete run without its output are unreachable |
| `CrawlTheorems.SharedOwnerBreaksTheLease` | crawler/index.ts:595-608 | Two live workers with one owner id: a link of attempt 1 ends up on a row of attempt 2 |
| `CrawlPublication.CrawlingPublishesNothing` | crawler/index.ts:755-765 | Over any run a document or source becomes published only by a step that publishes one; no step of a worker does |
| `CrawlPublication.FlaggedContentIsQuarantined` | crawler/index.ts:643-704 | After every run exactly the documents and links with injection indicators are quarantined, at trust 10, so nothing published has any |
| `Segment.Boundary` | crawler/ingestion/segment.ts:32-43 | A cut lies between 1 and the maximum, and takes all that fits |
| `Segment.BoundaryIsLastBlank` | crawler/ingestion/segment.ts:32-43 | The cut is the last newline or space in the upper half of what fits, or the limit if there is none |
| `Segment.CutSlice` | crawler/ingestion/segment.ts:115-130 | A slice is trimmed, within what is available, and the cut always moves on; what is left out is whitespace |
| `Segment.PackProse` | crawler/ingestion/segment.ts:107-131 | Prose becomes slices in order, disjoint, omitting only whitespace; the character count is that of the joined text; sections are not closed early |
| `Segment.PackAtomic` | crawler/ingestion/segment.ts:98-105 | An indivisible piece is added whole, in a section of its own if it exceeds the target |
| `Segment.PackLogicalSection` | crawler/ingestion/segment.ts:88-135 | Sections hold the groups of their pieces in order; each fits the target or is one atomic piece; none is closed while the next would have fitted |
| `Segment.MergeSlices` | crawler/ingestion/segment.ts:45-53 | The loop computes the merged slices |
| `Segment.MergedSlicesCover` | crawler/ingestion/segment.ts:45-53 | Merging keeps the covered positions of every block and leaves no two mergeable neighbours |
| `Segment.SplitSections` | crawler/ingestion/segment.ts:66-86 | The loop with its path stack computes the logical sections |
| `Segment.SplitKeepsPieces` | crawler/ingestion/segment.ts:66-86 | The logical sections hold every block once, in order |
| `Segment.SectionsFollowHeadings` | crawler/ingestion/segment.ts:74-84 | One section for the text above all headings if any, then one for each heading, which starts with it and has its outline path |
| `Segment.SegmentDocument` | crawler/ingestion/segment.ts:137-182 | Both option errors; otherwise sections are packed in order from every block and together equal all rendered blocks without whitespace; the reported sections are, one for one and in order, the headings, code blocks and tables that print to more than the oversized limit |
| `Segment.InOversizedBlocks` | crawler/ingestion/segment.ts:55-64 | A block counts as oversized exactly when it is not prose and prints to more than the limit |
| `Segment.LongHeadingsAreOversized` | crawler/ingestion/segment.ts:168-180 | A heading is oversized exactly when its marks, a blank and its text exceed the limit; a document of just that heading has it reported |
| `Segment.HeadingPrints` | crawler/ingestion/render.ts:9-10 | A heading prints as as many marks as its level, a blank and its text |
| `Segment.ContentIsJoined` | crawler/ingestion/segment.ts:148 | The content of a section is the texts of its pieces with a blank line between any two |
| `Segment.LeadingTextHasTitle` | crawler/ingestion/segment.ts:69 | Text above all headings stands in a first section with the title of the document and the anchor document |
| `Outline.StackHoldsEnclosing` | crawler/ingestion/documentation-map.ts:32-45 | After a heading the stack holds exactly the headings that enclose it |
| `Outline.PoppedStackEndsInParent` | crawler/ingestion/documentation-map.ts:34-43 | What popping leaves ends in the nearest earlier heading of lower level, as that heading left it, and nothing is left exactly at a root |
| `Outline.BuildOutline` | crawler/ingestion/documentation-map.ts:29-47 | The loop gives every node its children and the roots, in order |
| `Outline.OutlinePreorderIsHeadings` | crawler/ingestion/documentation-map.ts:29-47 | Read in preorder the outline is the heading sequence |
| `Outline.ChainIsHeadingPath` | crawler/ingestion/documentation-map.ts:29-47 | The way from a root to a heading is the heading path the segmenter keeps |
| `Outline.HeadingPathIsChain` | crawler/ingestion/segment.ts:77-80 | Every heading path is such a way in the outline |
| `Slugs.UniqueSlug` | crawler/ingestion/canonical.ts:68-73 | The anchor is the base or the base numbered by its uses, and only its count grows |
| `Slugs.AnchorHeadings` | crawler/ingestion/normalize.ts:112-127 | The anchors of a document are the bases numbered by their earlier uses |
| `Slugs.AnchorsDistinctIff` | crawler/ingestion/canonical.ts:68-73 | Anchors are distinct exactly when no base is another one with a number that the other reaches |
| `Slugs.UniqueSlugRepeats` | crawler/ingestion/canonical.ts:68-73 | Bases a, a and a-2 give a, a-2 and a-2 |
| `Parents.LinkParents` | crawler/candidate-persistence.ts:728-779 | Each section is linked to the first earlier section of its document whose path is its own minus the last heading, and to none if there is none |
| `Parents.ParentExists` | crawler/candidate-persistence.ts:735-737 | A section below another heading has such an earlier section, of the nearest enclosing heading |
| `Parents.ParentsNeverMissing` | crawler/candidate-persistence.ts:728-779 | Exactly the sections with a path longer than one have a parent, earlier and one heading shorter |
| `Parents.ParentIsNearestHeading` | crawler/candidate-persistence.ts:728-779 | When no base slug clashes, the parent is the first section of the nearest enclosing heading |
| `YamlBlocks.YamlAccepts` | crawler/ingestion/structured.ts:145-208 | A stream of lines is accepted exactly when a wellformed block prints it, every line once in order, and the value is that block's |
| `YamlBlocks.PrintedReadsAs` | crawler/ingestion/structured.ts:145-208 | What any such printed tree is read as, the ones that do not read back included |
| `YamlBlocks.YamlRoundTrip` | crawler/ingestion/structured.ts:145-208 | For every tree of non-empty maps with distinct keys, non-empty lists and leaves, at any indent and step: parsing undoes printing when first keys go below the dash, or on its line where that is safe; when they always go on its line, exactly if no list item is an object with further keys whose first has no value |
| `YamlBlocks.DashKeyTakesSibling` | crawler/ingestion/structured.ts:159-163 | At any indent, a key without a value on a dash's line takes the deeper key below as its value |
| `YamlBlocks.SequenceAtKeyIndentIsRejected` | crawler/ingestion/structured.ts:195-208 | A sequence at the indent of a document's first key is rejected, whatever follows |
| `YamlBlocks.FlushListsAreRefused` | crawler/ingestion/structured.ts:195-208 | Printed with lists at the indent of their keys and objects below their dashes, a tree reads back exactly if none of its fields, at any depth, has a list as its value, and is refused exactly otherwise |
| `YamlBlocks.FlushListUnderDashKey` | crawler/ingestion/structured.ts:159-171 | Below a key without a value on a dash's line, a list at the indent of a deeper key is accepted and becomes the member named value of the item |
| `YamlBlocks.ReadSequence` | crawler/ingestion/structured.ts:151-190 | The loop over dashes reads the sequence the grammar has there, and where it ends |
| `YamlBlocks.ReadMapping` | crawler/ingestion/structured.ts:192-205 | The loop over keys reads the mapping the grammar has there, with later keys replacing earlier ones, and the error for a missing key |
| `YamlBlocks.ReadYaml` | crawler/ingestion/structured.ts:145-208 | The recursive parser over indices computes the value or error of the grammar, for every stream, and ends |
| `YamlMeaning.YamlMeans` | crawler/ingestion/structured.ts:145-208 | The value of an accepted stream is what its block means: fields in the order in which keys first occur, each with the value assigned last; below a dash's key a mapping adds its fields and anything else becomes the field value; a block below a scalar item is an item of its own |
| `Canonical.SortedIsUnique` | crawler/ingestion/canonical.ts:9-21 | Sorting by code units gives one representative of the fields |
| `Canonical.EnumeratedOrder` | crawler/ingestion/canonical.ts:16-21 | Keys are listed with array indices first in ascending order, then by text |
| `Canonical.LessIsFirstDifference` | crawler/ingestion/canonical.ts:8-11 | Texts are ordered by their first different code unit, and a text comes before its continuations |
| `Canonical.UnitsReadBack` | crawler/ingestion/canonical.ts:26-28 | An escaped string reads back, lone and paired surrogates included |
| `Canonical.ValueReadsBack` | crawler/ingestion/canonical.ts:26-28 | Printed text is read back in one way |
| `Canonical.CanonicalTextIdentifies` | crawler/ingestion/canonical.ts:13-28 | Two values have the same canonical text exactly when they are equal up to key order |
| `Canonical.CanonicalTwice` | crawler/ingestion/canonical.ts:13-24 | Canonicalising twice changes nothing |
| `Canonical.CanonicalTextIsStable` | crawler/ingestion/openapi-candidate.ts:374-375 | Parsing the canonical text and printing it canonically gives the same text |
| `CanonicalForm.ValuesPrint` | crawler/ingestion/canonical.ts:26-28 | Words and numbers print as they are, arrays and objects in their brackets with commas and colons and no blanks |
| `CanonicalForm.StringsPrint` | crawler/ingestion/canonical.ts:26-28 | Strings print unit by unit: pairs of surrogates and ordinary units as themselves, quotes, backslashes, controls and lone surrogates by their escapes |
| `CanonicalForm.PrintedIsPlain` | crawler/ingestion/canonical.ts:26-28 | The text of every value is free of control characters and of unpaired surrogates |
| `OpenApi.VisitCollects` | crawler/ingestion/openapi-candidate.ts:102-116 | The visit collects exactly the references in a value, sorted and once |
| `OpenApi.SortNormalObject` | crawler/ingestion/openapi-candidate.ts:382-385 | Sorted entries do not depend on the order they were in |
| `OpenApi.ExtractOperations` | crawler/ingestion/openapi-candidate.ts:382-429 | The nested loops compute the operations, duplicate diagnostics and examples |
| `OpenApi.ExtractSchemas` | crawler/ingestion/openapi-candidate.ts:431-444 | The loop computes the schemas and the diagnostics for those skipped |
| `OpenApi.BuildCandidate` | crawler/ingestion/openapi-candidate.ts:367-463 | Both refusals, and the candidate otherwise |
| `OpenApi.CandidateOfNormal` | crawler/ingestion/openapi-candidate.ts:367-463 | Extraction commutes with putting a document in one key order |
| `OpenApi.PathErrorsNormal` | crawler/ingestion/openapi-candidate.ts:219-249 | The documented error responses do not depend on key order |
| `OpenApi.KeyOrderDoesNotMatter` | crawler/ingestion/openapi-candidate.ts:367-463 | Documents with the same canonical text give the same candidate or the same refusal, but for key order inside the values it retains |
| `OpenApi.OperationIdsKeptOnce` | crawler/ingestion/openapi-candidate.ts:393-406 | Operations are numbered in sorted order, and each keeps its operationId exactly if no earlier one has it |
| `OpenApi.DuplicatesAreReported` | crawler/ingestion/openapi-candidate.ts:394-403 | Every operationId left out has a diagnostic, and nothing else has |
| `OpenApiRecords.AcceptedIff` | crawler/ingestion/openapi-candidate.ts:367-377 | A document is taken exactly if it is an object with a version and an object of paths, and is refused for the first that is missing |
| `OpenApiContents.OperationsAreLocated` | crawler/ingestion/openapi-candidate.ts:382-429 | The operations are the objects under an HTTP method of a path with a leading slash, each once, in order of path and method; each record has the method, path, texts and rising tags found there, its own security or that of the document, as request references exactly those in parameters and request body and as response references exactly those in responses, and its id unless an earlier one has it |
| `OpenApiRecords.SchemasAreLocated` | crawler/ingestion/openapi-candidate.ts:431-444 | The schemas are the objects below components.schemas, or below definitions without it, each once in the order of keys, with key, document and content |
| `OpenApiRecords.SkippedSchemasAreReported` | crawler/ingestion/openapi-candidate.ts:433-438 | A schema has a diagnostic exactly if it is not an object |
| `OpenApiRecords.RepeatedIdsAreReported` | crawler/ingestion/openapi-candidate.ts:393-403 | An operation has a diagnostic for its id exactly if an earlier operation has that id |
| `OpenApiRecords.ExamplesAreLocated` | crawler/ingestion/openapi-candidate.ts:118-171 | The examples are those below the content of request bodies and responses, each once in the order of their places, with kind, status, media type, name and the value found there, unwrapped |
| `OpenApiRecords.ErrorsAreLocated` | crawler/ingestion/openapi-candidate.ts:219-249 | The error entries are the responses with an error status below an HTTP method of any path, each once in the order of their places, with the description found there and the last operation of that key |
| `ContractMap.GroupByTag` | crawler/ingestion/openapi-candidate.ts:260-269 | The nested loops put each operation's entry under each of its tags, in order, and under no other |
| `ContractMap.BuildCapabilities` | crawler/ingestion/openapi-candidate.ts:260-279 | The capabilities are the tags in use, sorted, each with its entries |
| `ContractMap.AuthenticationNormal` | crawler/ingestion/openapi-candidate.ts:281-304 | The security schemes defined and referred to do not depend on key order |
| `ContractMap.KeyOrderDoesNotChangeTheMap` | crawler/ingestion/openapi-candidate.ts:251-365 | Documents with the same canonical text have the same map |
| `ContractMapContents.OperationEntriesAre` | crawler/ingestion/openapi-candidate.ts:202-217 | Every operation has its entry in order: id or else key as title, summary or description or else the standard sentence, and its names, method, path and tags as aliases |
| `ContractMapContents.CapabilitiesAre` | crawler/ingestion/openapi-candidate.ts:259-279 | The capabilities are the tags in use, rising, with General for operations without tags, and under each are the entries of the operations that have it, in order |
| `ContractMapContents.AuthenticationIs` | crawler/ingestion/openapi-candidate.ts:281-304 | The authentication entries are, rising, the schemes that are defined and those that requirements of operations name, each with what is defined of it |
| `ContractMapContents.SchemaEntriesAre` | crawler/ingestion/openapi-candidate.ts:306-315 | Every schema has its entry in order, with its key and the description and type it has |
| `ContractMapContents.ServersAndPagingAre` | crawler/ingestion/openapi-candidate.ts:316-326 | The servers are the addresses given, rising and once; the paging entries are those of the operations in whose texts or references a paging word is found |
| `ContractMapContents.WebhooksAreLocated` | crawler/ingestion/openapi-candidate.ts:327-336 | The webhooks are those of the document, each once in the order of names |
| `Lines.ReadSourceLines` | crawler/ingestion/markdown.ts:11-22 | The loop over matches computes the lines and their ranges |
| `Lines.LinesTileIff` | crawler/ingestion/markdown.ts:11-22 | The lines make up the content exactly when it has no carriage return and no Unicode separator; a carriage return is never stripped |
| `Lines.LineRanges` | crawler/ingestion/markdown.ts:17-19 | In such content each range is its line and starts where the one before ends |
| `Markdown.ReadBlock` | crawler/ingestion/markdown.ts:122-287 | Each turn of the loop takes the branch, the lines and the end that the block at that line has |
| `Markdown.ParseMarkdown` | crawler/ingestion/markdown.ts:115-291 | The loop ends and computes the blocks after the front matter |
| `Markdown.BlocksInOrder` | crawler/ingestion/markdown.ts:115-291 | Block ranges are whole lines, increasing and disjoint |
| `Markdown.FatesOfLines` | crawler/ingestion/markdown.ts:121-291 | Which lines are covered by a block, blank, or in a paragraph without inline text |
| `Markdown.UncoveredLines` | crawler/ingestion/markdown.ts:283-287 | Beyond front matter the only uncovered lines that are not blank are those of paragraphs without inline text and the line after each |
| `Markdown.EmptyParagraphTakesNextLine` | crawler/ingestion/markdown.ts:283-287 | In any document exactly the line at which a paragraph without inline text ends is lost behind it: no block has it, and parsing goes on with the line after |
| `Markdown.EmptyLineHidesBlock` | crawler/ingestion/markdown.ts:283-287 | One line without inline text in front of a heading, fence, list or other block start is such a paragraph, at any place |
| `MarkdownBlocks.BlocksAreWhatTheirLinesSay` | crawler/ingestion/markdown.ts:121-291 | Every block is of the kind that its first line and the next decide, in the order of precedence, and ends after one line, two lines, its closing fence or the longest run of rows, items, quote lines, lines of text or plain lines; code is the text in between |
| `MarkdownBlocks.TextIsInBlocks` | crawler/ingestion/markdown.ts:283-287 | A line with text that is in no block is in a paragraph without inline text or is the line at which one ends |
| `MarkdownBlocks.FrontMatterIsBetweenMarks` | crawler/ingestion/markdown.ts:104-113 | Parsing starts behind the second line of three hyphens if the first line is one, and at the first line otherwise |
| `CodeText.TidyIsIdempotent` | crawler/ingestion/canonical.ts:42-44 | Trimming is idempotent, and its results are exactly the texts without carriage returns, blanks before a line end, and outer newlines |
| `CodeText.NormalizingTwiceIff` | crawler/ingestion/canonical.ts:38-45 | Normalising twice is normalising once exactly if composition fixes the composed text without its NULs, which it does for every text without NUL |
| `CodeText.NormalizingTwiceMayDiffer` | crawler/ingestion/canonical.ts:38-45 | Normalising a second time can compose what a NUL kept apart |
| `Fence.NoLineCloses` | crawler/ingestion/render.ts:28-30 | No line of the code closes the fence that is printed around it |
| `Fence.LanguageReadsBack` | crawler/ingestion/markdown.ts:133-134 | A plain language is read back from the opening line |
| `Fence.FenceRoundTrip` | crawler/ingestion/render.ts:27-31 | Normalised code in a plain language, printed and parsed, is one block with the same code and language exactly when it has no Unicode line or paragraph separator |
| `Html.TokensTile` | crawler/ingestion/html.ts:58-62 | The tokens tile the input |
| `Html.StrayClosingTagClosesAll` | crawler/ingestion/html.ts:67-72 | A closing tag that no open element has closes every element |
| `Html.ClosingTagClosesToItsElement` | crawler/ingestion/html.ts:67-72 | A closing tag takes off all elements down to the topmost open one of its name and none below |
| `Html.CloseTag` | crawler/ingestion/html.ts:64-74 | Closing pops and ends the elements down to the topmost one of that name |
| `Html.ReadToken` | crawler/ingestion/html.ts:59-91 | One token appends a node to the innermost open element, pops, or does nothing, and keeps the tree laminar |
| `Html.ParseHtml` | crawler/ingestion/html.ts:55-94 | For every input the tree is that of its tokens; preorder visits text and opening tags once in source order; children lie inside their parent, siblings in order and apart |
| `HtmlNesting.NestingReadsBack` | crawler/ingestion/html.ts:55-94 | For every list of trees of texts, elements with any attributes, comments and declarations: its printed text is parsed to exactly these elements and texts with exactly this nesting and these ranges, where only void elements and those that end in a slash are bare |
| `ContractSetup.OnlyReviewedIsWritten` | app/lib/contract-setup.ts:59-101 | Whatever others write and whichever calls are lost, each write was sent for what was reviewed and found contract and binding at the reviewed revisions |
| `ContractReview.CheckedIsSame` | app/lib/contract-setup.ts:26-31 | The check of the fingerprint passes exactly for a review with the same source, run and clean counts as the input whose documents are the same by id, hash and indicators, all validated or published and without indicators |
| `ContractReview.WritesAreJustified` | app/lib/contract-setup.ts:59-101 | Whatever others write and whichever calls are lost, each publication follows a read of such a review and of a fitting contract at the reviewed revision and names just what was read; each binding pins a revision of the candidate, with the asked visibility, in place of what was shown |
| `ContractReview.ChangedReviewWritesNothing` | app/lib/contract-setup.ts:75-82 | An attempt whose reads arrive and that finds the candidate unpublished goes on to write exactly when API, contract and review are as reviewed; otherwise it commits nothing and says that they changed |
| `ContractReview.SuccessIsWhatWasAsked` | app/lib/contract-setup.ts:84-101 | Success returns a revision that holds the candidate, and with an API leaves a binding that attaches it as asked |
| `ContractReview.ReadySetupSucceeds` | app/lib/contract-setup.ts:59-101 | When nothing is in the way and nothing is lost, an attempt succeeds |
| `ContractSetup.MoveRaisesRank` | app/lib/contract-setup.ts:75-99 | Each write that is taken brings the setup to a later stage |
| `ContractSetup.FinishFollows` | app/lib/contract-setup.ts:59-101 | Without other writers an attempt goes some way along the planned writes, to their end if it succeeds or nothing is lost |
| `ContractSetup.AtMostOnePublicationRevisionAndAttachment` | app/lib/contract-setup.ts:57-101 | Any number of attempts commit a prefix of the same writes: source, contract, binding, each at most once |
| `ContractSetup.AttemptsConverge` | app/lib/contract-setup.ts:57-101 | A successful attempt, and every attempt on which nothing is lost, leaves the state of a run without faults |
| `ContractSetup.FinishContractSetup` | app/lib/contract-setup.ts:59-101 | The client's sequence of calls and checks is the specified one, on every connection |
| `Webhook.Application.Handle` | examples/integration-evaluation/webhook-app.js:8-30 | A request is answered, joins the pending operation of its event or starts one; the size limit is kept while reading |
| `Webhook.RunKeepsInv` | examples/integration-evaluation/webhook-app.js:5-31 | Every interleaving keeps the bookkeeping of operations, pending and accepted events |
| `Webhook.OneInFlight` | examples/integration-evaluation/webhook-app.js:23-27 | At most one onEvent is in flight for an event |
| `Webhook.NoneStartsAfterSuccess` | examples/integration-evaluation/webhook-app.js:22-27 | No onEvent starts for an event for which one has succeeded |
| `Webhook.OneSuccess` | examples/integration-evaluation/webhook-app.js:22-27 | At most one onEvent succeeds for an event |
| `Webhook.AnsweredOnlyAfterSuccess` | examples/integration-evaluation/webhook-app.js:22-29 | 200 is sent only for an event whose onEvent has succeeded |
| `Webhook.FailureAllowsRetry` | examples/integration-evaluation/webhook-app.js:23-29 | After failures only, the next delivery starts a new operation |
| `WebhookAnswers.StatusSaysWhatHappened` | examples/integration-evaluation/webhook-app.js:9-30 | In every run 404, 413 and 400 answer exactly other routes, large bodies and unverified ones, and a verified delivery gets 200 only after a success and 500 only after a failure for its event |
| `WebhookAnswers.DeliveryGetsItsResult` | examples/integration-evaluation/webhook-app.js:22-30 | A delivery of an accepted event is answered at once; any other waits for the pending operation of its event, or a new one, and is answered with its result when it is over |
| `WebhookAnswers.OverMeansRecorded` | examples/integration-evaluation/webhook-app.js:25 | An operation that is over has its event accepted exactly if its call succeeded, and is no longer pending |
| `WebhookAnswers.RefusalsAreInOrder` | examples/integration-evaluation/webhook-app.js:9-21 | Requests are refused for their route, then for more than 64 KiB as soon as so much was read, then for their signature, and for nothing else |
| `Counter.KeyTextsDiffer` | examples/native-tool-plugin/plugin.go:93-98 | Counter keys and idempotency keys never coincide |
| `Counter.Scope.IncrementOnce` | examples/native-tool-plugin/plugin.go:89-119 | The transaction counts once, replays or leaves the state unchanged |
| `Counter.CountIsConserved` | examples/native-tool-plugin/plugin.go:89-119 | After any calls each counter is the number of keys first used with its name, and all counters together are the number of distinct keys |
| `Counter.ReplaysReturnTheFirstResult` | examples/native-tool-plugin/plugin.go:94-96 | A used key returns its first result under any name and changes nothing |
| `Counter.FirstUseCounts` | examples/native-tool-plugin/plugin.go:98-116 | A new key returns the number of keys used with its name so far |
| `Counter.FirstUseSucceedsIff` | examples/native-tool-plugin/plugin.go:75-119 | A new key succeeds exactly if name and key are given, the host accepts the counter key, the transaction commits, and the added records fit into 1000 |
| `Counter.ReplaySucceedsIff` | examples/native-tool-plugin/plugin.go:94-96 | A used key succeeds exactly if a name is given and the transaction commits |
| `Counter.CountsAreSmall` | internal/store/memory_native_plugins.go:123-133 | Counts stay within the records a scope may hold, so int64 never wraps |
| `BoundedBody.DeliversPrefix` | internal/ai/native.go:20-37 | Whatever the reads and closes, also after an end or a failure, a prefix of the source within the limit is delivered and the source is closed at most once |
| `BoundedBody.TooLargeIsSticky` | internal/ai/native.go:21-23 | After the size error every read returns it and delivers nothing |
| `BoundedBody.EndTellsSize` | internal/ai/native.go:20-37 | A read to an end gets all of the source exactly when it is within the limit, and otherwise exactly the limit and the size error |
| `BoundedBody.AdaptersAgree` | internal/ai/compatible.go:92-95 | The compatible adapter's loop accepts exactly the bodies that end without the size error, with the same bytes |
| `BoundedBody.AcceptedBodiesAreWhole` | internal/ai/compatible.go:92-95 | Neither accepts less than the whole source, even if the source may fail |
| `BoundedBody.ResponseBody.Read` | internal/ai/native.go:20-37 | The method fills the front of the buffer with what is delivered and keeps its state |

## Left out

- CrawlDatabase.Database.ClaimJob: owner ids are taken as given; trimming them and cutting them to 255 characters is not modelled, nor are row locks other than as a set of locked jobs.
- CrawlDatabase.Database.EnsureRunningRun: one pipeline build is modelled, so processor versions, schema versions and product id are not part of a run's identity; counts, diagnostics and stages are not kept.
- CrawlDatabase.Database.PersistDocumentation: output rows keep their run, document and section identity; titles, text, hashes, legacy ids and the body of the map are not kept.
- CrawlTheorems.ReviewedJobsAreComplete: runs of uploaded documents are covered by RunsAreAllOrNothing; only website jobs are said to have one.
- Segment.SegmentDocument: section ids, content hashes, token estimates and lineage are not kept; blocks other than headings come with their rendered text.
- Parents.LinkParents: documents have distinct ids, which the insertion of documents before the linking enforces; a section is named by its ordinal.
- YamlBlocks.ReadYaml: lines are given as tokens; splitting text into tokens, comments, block scalars and the reading of leaves are not modelled, a leaf stands for what its text denotes; assigning to the key `__proto__` makes no field and its prototype is not kept; fields are in order of assignment, not in JavaScript's enumeration order.
- Canonical.CanonicalTextIdentifies: members that are undefined cannot occur in parsed JSON and are not modelled; a finite number is named by the text printed for it.
- OpenApi.BuildCandidate: the agent text and the map hash are not built; the map is a function of its own, `ContractMap.MapOf`.
- ContractMap.BuildCapabilities: ids and wording of entries are reduced to what they are made of; the overview, gaps and quality warnings of the map, which only count and repeat the diagnostics, are not built; the search for paging words is a parameter.
- Markdown.ParseMarkdown: the patterns for headings, underlines, table delimiters and list items, and inline text, are parameters; titles, links, list items and table cells are not kept.
- Fence.FenceRoundTrip: Unicode composition is a parameter that is only assumed to make no line terminator.
- Html.ParseHtml: attributes and the decoding of entities are not kept; nodes are named by indices in the order of their creation instead of references.
- ContractSetup.FinishContractSetup: the server part is limited to one contract, one source and run, and the bindings of one API; ids are counted instead of random; the call that remembers the revision in the address bar is not modelled.
- Counter.Scope.IncrementOnce: values are integers rather than their JSON text, and expiry is not used by the plugin.
- BoundedBody.ResponseBody.Read: the source is a byte sequence with a script of short, early-ending and failing reads.
- Webhook.Application.Handle: signature verification is a parameter, and promise callbacks are separate steps in any order their dependencies allow.
- SQL text, the pg driver, Crawlee, Playwright, DNS, HTTP, files and clocks: only the atomic guarded steps they carry out.
- `documentation-setup.ts` and `sdk-setup.ts`: the same recovery scheme as contract setup with other records.
- CodeText.NormalizingTwiceIff: Unicode composition is a parameter; assumed is that it is idempotent, makes no NUL, keeps trimmed text trimmed, and changes a text exactly if it changes the trimmed text.
- ContractMap.AuthenticationNormal: looking up a security scheme named `__proto__` reaches the prototype object in JavaScript; here it finds nothing.
- SHA-256, UUIDv5 and Unicode normalisation: injective or uninterpreted.
- Quality wording, entry points, injection heuristics, link resolution and the rendering of blocks other than headings and code.
