# Verification of the Knowledge corpus, Ask evidence and card generation

This project models the parts of the application that carry its guarantees and proves them in Dafny 4.11.
`dafny verify dfyconfig.toml` checks all of it.

**The corpus.** Documents, content revisions, pages, index revisions, chunks, index jobs, Subjects, embedding
spaces and storage counters live in tables guarded by database triggers. Writes are serialised by one advisory
lock, so one admitted statement is one atomic step. `KnowledgeTables` has the rows and their check constraints;
`KnowledgeStatements` says what each statement does, with its triggers and cascades, or that it is refused;
`KnowledgeStore` has the triggers as methods that change the tables in place, proved against those statements,
down to the nested updates and the loop over the counter scopes. `KnowledgeInvariants` is what every statement
keeps; `KnowledgeEffects`, `KnowledgeRefs`, `KnowledgeMeasures`, `KnowledgeCounters` and `KnowledgeRuns` prove
that it does. On top stand `VersionStamp` (the corpus revision is a sound version stamp of what readers may
cite), `StampPrecision` (and a precise one), `KnowledgeAdmission` (the guards admit what a recount of the tables
would admit), `IndexJobs`, `FrozenContent` and `ReservedPositions`.

**Ask jobs.** `AskTables` and `AskStatements` (one file) put questions, answer jobs, provider stages and evidence
rows beside the corpus, with the guards as the current answer policy leaves them; a step is a corpus statement or
a statement on an Ask table. `AskEvidence` proves that completion is evidence-safe, from the insertion check, the
completion check and the corpus stamp together; `AskCompletion` says exactly when jobs, stages, excerpts and
completions are admitted, and `AskExample` runs from nothing to an answer; `AskRequests` bounds the provider requests.

**Generation.** `Budget` is the reserve, complete and fail protocol of concurrent calls under every interleaving;
`SummaryTree`, `Batching`, `Preflight`, `Grounding` and `Acceptance` are the run around it, for any provider.

**Chunking.** `TextWords`, `Chunking`, `PageChunks`, `DocumentChunks`, `Packing`, `Hamilton` and `Adaptive`, for
any token estimator; `Ordering` and `Chunks` are shared.

**Two small parts.** `Windows` chooses exact evidence windows; `PdfArchive` is the block archive of original files
with its deferred check at commit. `Prelude` holds options, sums over maps and finite sets.

How to read the contracts:

- A refused statement leaves the state as it was. Runs start from the empty database and may contain refused statements.
- The token estimator, prompt sizes, text normalisation, card similarity, term finder and provider are arbitrary
  functions. Theorems that need more (a monotone estimator, answers within their reservation, non-negative prices)
  say so as a hypothesis.
- `World.read` and `World.rulings` in the Ask model are history variables: the page text an evidence row was checked against,
  and the judgments that evidence was ever admitted on. No table holds them. So are `ceilings` and `answers` of a generation
  run: what its calls could answer at most, and what they did.
- Document titles are not part of the fenced view: a title may change without moving the corpus revision.
- Ghost results such as word ranges, first units, traces and candidates describe a result further; no code uses them.

Where the code is weaker than it may look:

- A reserved page or chunk count may be lowered while its rows exist. Captured pages are then not 1..n, and ready chunks not
  0..n-1; the exact conditions and runs that show it are in `FrozenContent` and `ReservedPositions`.
- A judgment stage may be deleted, or moved to another job or epoch, after evidence was admitted on it. `AskRequests.SameRuling`
  says when later evidence still rests on the same judgment.
- The estimate and the checks after a call round the cost limit to the nearest integer, admission compares it exactly.
  `Budget.RoundingsAgree` says when this makes no difference; the checks after a call never fire either way.
- At completion the guard compares neither `bundle_size` with the number of evidence rows nor their retry number with
  that of the job. Evidence left from an earlier retry still passes, and is still safe: it is fenced by the corpus stamp.
- With several evidence packs the estimate is made with placeholder prompts and does not bound the run, so only its
  lower bounds are stated.

## Model

| member | source | states |
|---|---|---|
| `VersionStamp.SoundStamp` | backend/alembic/versions/20260918_0010_subject_knowledge.py:624-710 | Along any run of statements from the empty database, while a Subject exists its `corpus_revision` never falls; if it is equal at two moments, the eligible chunks of that Subject (rows, vectors, page text) are the same at both. Covers edits, activation, publication, cascades and space cutover |
| `VersionStamp.StepStamps` | backend/alembic/versions/20260918_0010_subject_knowledge.py:624-661 | One statement, admitted or refused, keeps the stamp sound in any state that satisfies the invariant, including deletion of another Subject |
| `VersionStamp.DocumentsStamp` | backend/alembic/versions/20260918_0010_subject_knowledge.py:624-648 | Cascaded deletion of any list of documents keeps the stamp sound |
| `VersionStamp.StampNeverFalls` | backend/alembic/versions/20260918_0010_subject_knowledge.py:651-655 | No admitted statement lowers the stamp of a Subject that stays |
| `VersionStamp.UpdateContentKeepsShown` | backend/alembic/versions/20260918_0010_subject_knowledge.py:628-634 | A content update that leaves the stamp leaves every chunk of the Subject as it was shown: the five compared columns are enough |
| `VersionStamp.UpdateIndexKeepsShown` | backend/alembic/versions/20260918_0010_subject_knowledge.py:636-644 | The same for an index update: status, activity, live content and the served space are enough |
| `VersionStamp.DeleteContentKeepsShown` | backend/alembic/versions/20260918_0010_subject_knowledge.py:633-634 | The same for the deletion of a revision with its cascades |
| `VersionStamp.DeleteIndexKeepsShown` | backend/alembic/versions/20260918_0010_subject_knowledge.py:638-644 | The same for the deletion of an index with its cascades |
| `VersionStamp.DeleteDocumentKeepsShown` | backend/alembic/versions/20260918_0010_subject_knowledge.py:624-648 | The same for the deletion of a document, whose bumps come from its revisions alone |
| `VersionStamp.OwnerKeepsShown` | backend/alembic/versions/20260918_0010_subject_knowledge.py:651-661 | Statements on users, spaces, Subjects and documents change what is shown only with a change of space, which moves the stamp |
| `VersionStamp.CaptureKeepsShown` | backend/alembic/versions/20260918_0010_subject_knowledge.py:502-530 | Statements that capture content reach no page under a chunk |
| `VersionStamp.EligibleMeans` | backend/alembic/versions/20260918_0010_subject_knowledge.py:695-710 | In a good state the ten joins and conditions of the view come down to four: live content, serving index, embedded chunk, and the Subject serving the index's space |
| `VersionStamp.OneSourcePerDocument` | backend/alembic/versions/20260918_0010_subject_knowledge.py:215-221 | All eligible chunks of a document come from one content revision and one index revision |
| `StampPrecision.StampCounts` | backend/alembic/versions/20260918_0010_subject_knowledge.py:624-661 | Over any run that does not edit the Subject itself, the stamp counts: it rises by exactly one for each admitted change of published content or of an index in its reach, and nothing else of the Subject changes |
| `StampPrecision.StampMoves` | backend/alembic/versions/20260918_0010_subject_knowledge.py:624-648 | One admitted statement of any kind moves a stamp by what the columns of the changed row say, and by nothing for users, spaces, documents, capture, chunks, jobs and other Subjects |
| `StampPrecision.EditContentMoves` | backend/alembic/versions/20260918_0010_subject_knowledge.py:628-634 | Editing a revision moves the stamp by one if it was or becomes active, ready and published and one of five columns changes, and not at all otherwise |
| `StampPrecision.DropContentMoves` | backend/alembic/versions/20260918_0010_subject_knowledge.py:633-634 | Deleting a revision moves the stamp by one exactly if it was active, ready and published, whatever its indexes were |
| `StampPrecision.EditIndexMoves` | backend/alembic/versions/20260918_0010_subject_knowledge.py:636-644 | Editing an index moves the stamp by one exactly if its status or activity changes, it served or serves, its content is published and the Subject reads its space |
| `StampPrecision.DropIndexMoves` | backend/alembic/versions/20260918_0010_subject_knowledge.py:638-644 | Deleting an index moves the stamp by one exactly if it served published content in the space that the Subject reads |
| `StampPrecision.DropDocumentMoves` | backend/alembic/versions/20260918_0010_subject_knowledge.py:624-648 | Deleting a document moves the stamp by the number of its published active revisions |
| `StampPrecision.EditSubjectMoves` | backend/alembic/versions/20260918_0010_subject_knowledge.py:651-661 | Editing a Subject gives it the stamp asked for, or one more than it had if a space changes and the stamp asked for is no greater |
| `KnowledgeRuns.StepKeepsInv` | backend/alembic/versions/20260918_0010_subject_knowledge.py:370-621 | Every statement keeps references, row checks, uniqueness, measured columns and storage counters right |
| `KnowledgeRuns.ReachableInv` | backend/alembic/versions/20260918_0010_subject_knowledge.py:370-621 | Hence they hold in every reachable state |
| `KnowledgeRuns.StorageConservation` | backend/alembic/versions/20260918_0010_subject_knowledge.py:322-342 | In every reachable state the global, Subject and uploader counters equal the number of documents and the sum of reserved page and index bytes of that scope, within the caps and never negative; no scoped row is kept at zero; no document exceeds its 64 MiB |
| `KnowledgeRuns.DocumentRemovalIsNeverRefused` | backend/alembic/versions/20260918_0010_subject_knowledge.py:386-393 | A document can be deleted exactly when it exists: giving back its charges can never break a counter check |
| `KnowledgeRuns.DeleteDocumentsKeepsInv` | backend/alembic/versions/20260918_0010_subject_knowledge.py:370-394 | Deleting documents in any order keeps the invariant and removes exactly those documents |
| `KnowledgeRuns.PartOfCharge` | backend/alembic/versions/20260918_0010_subject_knowledge.py:386-391 | What a document is charged is part of what every scope it belongs to is charged |
| `KnowledgeAdmission.CountersDecide` | backend/alembic/versions/20260918_0010_subject_knowledge.py:322-342 | In every reachable state the three counters admit a change exactly when a recount of documents and reserved bytes in all, of the Subject and of the uploader stays within the caps |
| `KnowledgeAdmission.DocumentAdmitted` | backend/alembic/versions/20260918_0010_subject_knowledge.py:379-384 | A document is admitted exactly for an instructor in an own Subject with room by recount |
| `KnowledgeAdmission.ContentAdmitted` | backend/alembic/versions/20260918_0010_subject_knowledge.py:401-498 | A revision is admitted exactly if it is blank, numbered anew, at most the fourth of its document, and its bytes fit the document and the recounted scopes |
| `KnowledgeAdmission.ContentEditAdmitted` | backend/alembic/versions/20260918_0010_subject_knowledge.py:401-498 | In every reachable state an edit of a revision is admitted exactly under written-out conditions on its columns, the other revisions, the ready indexes and the recounted charges, whichever way it changes them |
| `KnowledgeAdmission.PublishingAdmitted` | backend/alembic/versions/20260918_0010_subject_knowledge.py:434-441 | Making captured content ready, active, reviewed or published: admitted exactly if one of its indexes is ready, the review is by the uploader, nothing is published unreviewed and no other revision is active |
| `KnowledgeAdmission.IndexAdmitted` | backend/alembic/versions/20260918_0010_subject_knowledge.py:443-498 | An index is admitted exactly for captured content of the same owner, in a known space, numbered anew, at most the eighth, with room by recount |
| `KnowledgeAdmission.IndexEditAdmitted` | backend/alembic/versions/20260918_0010_subject_knowledge.py:443-498 | An edit of an index is admitted exactly under written-out conditions on its columns, the other indexes of the content and the recounted charges |
| `KnowledgeAdmission.ReadyingAdmitted` | backend/alembic/versions/20260918_0010_subject_knowledge.py:443-451 | An index becomes ready exactly when as many chunks as it reserves are stored, at least one, each with an embedding, and none other is active if it is |
| `KnowledgeAdmission.PageAdmitted` | backend/alembic/versions/20260918_0010_subject_knowledge.py:502-530 | A page is admitted exactly while its content is processed, within the reservations counted from the stored pages |
| `KnowledgeAdmission.ChunkAdmitted` | backend/alembic/versions/20260918_0010_subject_knowledge.py:533-573 | A chunk is admitted exactly into a free position of an open index, from a stored page, within the reservations counted from the stored chunks |
| `KnowledgeAdmission.JobEditAdmitted` | backend/alembic/versions/20260918_0010_subject_knowledge.py:585-621 | An edit of a job is admitted exactly by the table of claims, retries, ends and cancellations, on the same target, with a ready index if it completes |
| `KnowledgeStore.ContentReleases` | backend/alembic/versions/20260918_0010_subject_knowledge.py:401-404 | A content revision can be deleted exactly when it exists; its own charge and those of its indexes can always be given back |
| `KnowledgeStore.ReleasedTwice` | backend/alembic/versions/20260918_0010_subject_knowledge.py:487-498 | Giving back a revision and then its indexes one by one leaves the counters as giving back the sum at once: each charge is subtracted exactly once |
| `KnowledgeStore.CountersDetermined` | backend/alembic/versions/20260918_0010_subject_knowledge.py:339-340 | Counter rows are canonical: equal amounts mean equal tables, because scoped rows at zero are deleted |
| `KnowledgeCounters.DeleteContentKeepsCounters` | backend/alembic/versions/20260918_0010_subject_knowledge.py:487-498 | Deleting a content revision with its indexes keeps every counter equal to what remains |
| `KnowledgeCounters.DeleteDocumentKeepsCounters` | backend/alembic/versions/20260918_0010_subject_knowledge.py:386-393 | Deleting a document with everything under it keeps every counter equal to what remains |
| `KnowledgeMeasures.PagesMoved` | backend/alembic/versions/20260918_0010_subject_knowledge.py:521-528 | A page insert, edit or delete moves the measured page, character and byte columns of its revision to the new sums |
| `KnowledgeMeasures.ChunksMoved` | backend/alembic/versions/20260918_0010_subject_knowledge.py:559-571 | The same for chunk count, embedded count and index bytes |
| `KnowledgeStore.Store.AdjustUsage` | backend/alembic/versions/20260918_0010_subject_knowledge.py:322-342 | The loop over the three scopes: creates missing counter rows, adds, checks, drops scoped rows at zero, and is refused exactly when a bound would break |
| `KnowledgeStore.Store.SumCharges` | backend/alembic/versions/20260918_0010_subject_knowledge.py:386-390 | The selected total is the sum of reserved page and index bytes of the document |
| `KnowledgeStore.Store.InsertContent` | backend/alembic/versions/20260918_0010_subject_knowledge.py:401-498 | New content is private and unmeasured, within the revision, document and scope limits; the whole new state, or refusal |
| `KnowledgeStore.Store.UpdateContent` | backend/alembic/versions/20260918_0010_subject_knowledge.py:401-498 | Allowed transitions, frozen identity, measurements that only page triggers may move, completeness, the reservation difference charged, the bump; the whole new state, or refusal |
| `KnowledgeStore.Store.DeleteContent` | backend/alembic/versions/20260918_0010_subject_knowledge.py:401-498 | Charges of the revision and, one by one, of its indexes are given back; pages, indexes, chunks and jobs go; live content bumps once |
| `KnowledgeStore.Store.ReleaseIndexes` | backend/alembic/versions/20260918_0010_subject_knowledge.py:487-498 | The cascade over the indexes of a revision, in any order, gives back exactly their reserved bytes |
| `KnowledgeStore.Store.InsertPage` | backend/alembic/versions/20260918_0010_subject_knowledge.py:502-530 | Page insert with the nested measurement update of its revision |
| `KnowledgeStore.Store.UpdatePage` | backend/alembic/versions/20260918_0010_subject_knowledge.py:502-530 | Page edit with the difference in characters and UTF-8 bytes |
| `KnowledgeStore.Store.DeletePage` | backend/alembic/versions/20260918_0010_subject_knowledge.py:502-530 | Page delete with the nested measurement update |
| `KnowledgeStore.Store.InsertIndex` | backend/alembic/versions/20260918_0010_subject_knowledge.py:443-498 | New index is staged and unmeasured, of captured content, with the identity of a known space, within the limits |
| `KnowledgeStore.Store.UpdateIndex` | backend/alembic/versions/20260918_0010_subject_knowledge.py:443-498 | Allowed transitions, frozen identity, measurements that only chunk triggers may move, the reservation difference charged, the bump |
| `KnowledgeStore.Store.DeleteIndex` | backend/alembic/versions/20260918_0010_subject_knowledge.py:443-498 | Its charge is given back, chunks and jobs go, the bump if it was exposed |
| `KnowledgeStore.Store.InsertChunk` | backend/alembic/versions/20260918_0010_subject_knowledge.py:533-573 | Chunk insert with the nested update of count, embedded count and bytes (6408 per row) |
| `KnowledgeStore.Store.UpdateChunk` | backend/alembic/versions/20260918_0010_subject_knowledge.py:533-573 | Chunk edit: frozen membership, differences of text, section and embedding |
| `KnowledgeStore.Store.DeleteChunk` | backend/alembic/versions/20260918_0010_subject_knowledge.py:533-573 | Chunk delete with the nested measurement update |
| `KnowledgeStore.Store.InsertDocument` | backend/alembic/versions/20260918_0010_subject_knowledge.py:379-384 | Instructor ownership and one more document in all three scopes |
| `KnowledgeStore.Store.DeleteDocument` | backend/alembic/versions/20260918_0010_subject_knowledge.py:386-393 | One document and all its reserved bytes given back at once, cascades that charge nothing again, one bump for each live revision |
| `KnowledgeStore.Store.DropContentsOf` | backend/alembic/versions/20260918_0010_subject_knowledge.py:624-648 | The cascade over the content revisions of a document, in any order, bumps the Subject once for each live one |
| `KnowledgeStore.Store.UpdateSubject` | backend/alembic/versions/20260918_0010_subject_knowledge.py:651-661 | The whole new state, or refusal; no stamp falls, and a Subject whose active or staged space changes gets a higher stamp |
| `KnowledgeStore.Store.UpdateJob` | backend/alembic/versions/20260918_0010_subject_knowledge.py:576-621 | The whole new state, or refusal; terminal and other jobs stay as they are, claims raise the attempts by exactly one and nothing else does, and every status change is paid for |
| `KnowledgeStore.NestedContent` | backend/alembic/versions/20260918_0010_subject_knowledge.py:524-528 | Inside the trigger chain, the page trigger's update of its revision amounts to moving three columns or to refusal |
| `KnowledgeStore.NestedIndex` | backend/alembic/versions/20260918_0010_subject_knowledge.py:567-571 | The same for the chunk trigger's update of its index |
| `IndexJobs.IndexJobsRunDown` | backend/alembic/versions/20260918_0010_subject_knowledge.py:592-600 | In any history a job has at most 2 * `max_attempts` + 1 status changes, and its claims are exactly its attempts |
| `IndexJobs.ChangesAreSpent` | backend/alembic/versions/20260918_0010_subject_knowledge.py:588-600 | Status changes so far never exceed what attempts and status account for |
| `IndexJobs.ClaimIsFixed` | backend/alembic/versions/20260918_0010_subject_knowledge.py:601-604 | While a job stays running its claim token and worker do not change, whatever else happens |
| `IndexJobs.EndedJobIsFrozen` | backend/alembic/versions/20260918_0010_subject_knowledge.py:585-587 | A terminal job that is not deleted never changes |
| `IndexJobs.CompletedJobHasReadyIndex` | backend/alembic/versions/20260918_0010_subject_knowledge.py:617-619 | In every state after completion, until deleted, the job names a ready index |
| `IndexJobs.JobMoves` | backend/alembic/versions/20260918_0010_subject_knowledge.py:576-621 | The only statement that changes a job row is an update of that job which passes the guard; new jobs are queued and unattempted |
| `FrozenContent.PagesAreFrozen` | backend/alembic/versions/20260918_0010_subject_knowledge.py:502-530 | Along any run, once content has left `processing` its page rows never change as long as the revision is there, whatever becomes of its indexes |
| `FrozenContent.IndexedChunksAreFrozen` | backend/alembic/versions/20260918_0010_subject_knowledge.py:533-573 | Along any run, the chunks of a ready index never change as long as the index is there |
| `FrozenContent.StepKeepsCapture` | backend/alembic/versions/20260918_0010_subject_knowledge.py:502-573 | One statement of any kind touches neither captured pages nor the chunks of a ready index |
| `FrozenContent.FinishedPagesAreConsecutive` | backend/alembic/versions/20260918_0010_subject_knowledge.py:434-438 | In every reachable state, captured pages are exactly 1..n if and only if no stored page number exceeds the reserved count |
| `FrozenContent.ReadyChunksAreConsecutive` | backend/alembic/versions/20260918_0010_subject_knowledge.py:148-149 | In every reachable state all chunks of a ready index are embedded, and their positions are exactly 0..n-1 if and only if none reaches the reserved count |
| `ReservedPositions.NeverLoweredIsConsecutive` | backend/alembic/versions/20260918_0010_subject_knowledge.py:513-550 | In runs that never lower a reserved count, pages of captured content are exactly 1..n and ready chunks exactly 0..n-1 |
| `ReservedPositions.StepReserves` | backend/alembic/versions/20260918_0010_subject_knowledge.py:513-550 | One statement that lowers no reserved count keeps every page and chunk position within the reservation |
| `ReservedPositions.LoweredReservationLeavesGap` | backend/alembic/versions/20260918_0010_subject_knowledge.py:425-438 | A run of seven statements that captures a revision whose only page is page 2: the guards do not stop a reserved count from being lowered |
| `ReservedPositions.LoweredReservationLeavesChunkGap` | backend/alembic/versions/20260918_0010_subject_knowledge.py:448-485 | Four more statements make an index ready whose one reserved chunk stands in the second place |
| `AskEvidence.CompletionIsEvidenceSafe` | backend/alembic/versions/20260927_0027_source_navigation_policy.py:163-177 | Whenever a job completes as `related_knowledge`, in any reachable state, its evidence orders are exactly 1..n with n in 1..3, each of a different chunk that is eligible now, with the page text it was checked against, and a non-blank window of at most 480 characters inside it |
| `AskEvidence.ReachableAskInv` | backend/alembic/versions/20260927_0027_source_navigation_policy.py:274-343 | In every reachable state each evidence row still shows what was read, or the Subject's stamp has moved past the job's |
| `AskEvidence.TakeKeepsInv` | backend/alembic/versions/20260927_0027_source_navigation_policy.py:274-343 | One step of any kind, on the corpus or the Ask tables, keeps that |
| `AskEvidence.CorpusKeepsEvidence` | backend/alembic/versions/20260927_0027_source_navigation_policy.py:314-329 | A corpus statement cannot change what an evidence row shows without moving the stamp past the job's revision |
| `AskEvidence.NewEvidenceHolds` | backend/alembic/versions/20260927_0027_source_navigation_policy.py:283-339 | Admission establishes it: eligible chunk, matching revision and space, window inside the canonical page |
| `AskEvidence.CompletedIsSafe` | backend/alembic/versions/20260927_0027_source_navigation_policy.py:163-177 | The completion check turns it into safety at that moment |
| `AskEvidence.OrdersAreOneTo` | backend/alembic/versions/20260927_0027_source_navigation_policy.py:166-175 | Count, minimum and maximum as the guard reads them mean that the orders are exactly 1..n |
| `AskCompletion.CompletionAdmitted` | backend/alembic/versions/20260927_0027_source_navigation_policy.py:127-177 | A running job is completed exactly when its row keeps target, session, attempts and retries and passes the row check, its Subject still has the revision and the space, and the evidence fits the result: orders 1 to n with n in 1..3, or none, with the stage condition for a clarification |
| `AskCompletion.AskEditAdmitted` | backend/alembic/versions/20260927_0027_source_navigation_policy.py:127-177 | Every edit of a job is admitted exactly by the table of claims, returns, ends and manual retries, and if a completion is borne out |
| `AskCompletion.EvidenceAdmitted` | backend/alembic/versions/20260927_0027_source_navigation_policy.py:274-343 | In every reachable state an excerpt is admitted exactly for a live job underway, in its scope, judged in time, for the Subject's instructor or an enrolled student, of a passage in the view of the Subject at the job's stamp and space, with a window that shows something |
| `AskExample.AnswerWithThreeExcerpts` | backend/alembic/versions/20260927_0027_source_navigation_policy.py:163-177 | A run of 22 steps from nothing, in which a student's job completes as related Knowledge with exactly three excerpts |
| `AskRequests.RequestsAreBounded` | backend/alembic/versions/20261002_0033_visual_clarity_policy.py:28-36 | In every reachable state the recorded provider requests of a job are at most 2 * (`manual_retry_count` + 1), hence at most 22 |
| `AskRequests.EpochBound` | backend/alembic/versions/20261002_0033_visual_clarity_policy.py:28-36 | At most one embedding and one judgment request in each retry epoch |
| `AskRequests.KindBound` | backend/alembic/versions/20261002_0033_visual_clarity_policy.py:28-36 | Per epoch and kind: none for retrieval, at most one for the others |
| `AskRequests.ReachableStageInv` | backend/alembic/versions/20260928_0029_source_judgment_policy.py:126-145 | In every reachable state stages belong to existing jobs and to epochs that have begun, remote stages are unique per epoch, retries stay within 0..10 |
| `AskRequests.ClosedEpochIsFrozen` | backend/alembic/versions/20260928_0029_source_judgment_policy.py:126-145 | A stage of a past epoch can only be changed by moving it into the current epoch and attempt |
| `AskRequests.EvidenceIsJudged` | backend/alembic/versions/20260928_0029_source_judgment_policy.py:90-105 | An evidence row is admitted only for a running job in its current epoch, with a completed, certain, one-request judgment of the same attempt |
| `AskRequests.OneJudgmentPerEpoch` | backend/alembic/versions/20260928_0029_source_judgment_policy.py:90-105 | Over any run that neither removes nor gives away its judgment stages, all evidence ever admitted for a job in one epoch rests on one and the same judgment |
| `AskRequests.SameRuling` | backend/alembic/versions/20260928_0029_source_judgment_policy.py:90-105 | Later evidence of an epoch rests on the same judgment as earlier evidence if and only if that judgment still stands |
| `AskRequests.NewRuling` | backend/alembic/versions/20260928_0029_source_judgment_policy.py:90-105 | Evidence is only ever admitted on a judgment that is completed, certain and of the current attempt |
| `Budget.BudgetIsSafe` | backend/app/ai/pipeline.py:453-529 | Under every interleaving of admissions, answers and losses in which answers stay within their reservations, usage, pending and uncertain together stay within token and cost limits, and the checks after a call never fire |
| `Budget.LedgerBalances` | backend/app/ai/pipeline.py:463-501 | Under every interleaving, pending is the sum of the calls in flight, admitted calls are those answered, uncertain and in flight, concurrency is kept, and uncertain amounts never shrink |
| `Budget.StepStaysWithin` | backend/app/ai/pipeline.py:469-501 | One step keeps the limits |
| `Budget.NoOverrun` | backend/app/ai/pipeline.py:506-529 | Within the limits, none of the three checks after a call can fire, whichever way the cost limit is rounded |
| `Budget.CostGrows` | backend/app/ai/pipeline.py:130-137 | More tokens never cost less, through the ceiling |
| `Budget.CostIsLeast` | backend/app/ai/pipeline.py:130-137 | There is a cost exactly when there are prices; it is the least integer not below input tokens at the input price plus output tokens at the output price |
| `Budget.HalfEvenIsNearest` | backend/app/ai/pipeline.py:443-446 | The rounded cost limit is a nearest integer, the even one of two |
| `Budget.RoundingsAgree` | backend/app/ai/pipeline.py:443-476 | The exact check before a call and the rounded checks agree on all costs if and only if rounding the limit does not go up |
| `Budget.RoundingsDisagree` | backend/app/ai/pipeline.py:443-476 | A limit of 0.6 micro-dollars, on which they differ |
| `Budget.OutputWithinAsked` | backend/app/ai/pipeline.py:463-501 | Output accounted for never exceeds the output asked for so far |
| `Budget.ReservedOutputSuffices` | backend/app/ai/pipeline.py:470-474 | If all output asked for fits the job limit, no call is refused for output tokens |
| `Budget.CeilingsSuffice` | backend/app/ai/pipeline.py:470-474 | If the output ceilings of a run add up to no more than the job limit, no call of it is ever refused for output tokens, under any interleaving in which calls wait, succeed within their ceilings, fail or are cancelled |
| `Budget.AskedIsAdmitted` | backend/app/ai/pipeline.py:478-484 | What a run has asked for is the sum of the ceilings of its admitted calls |
| `Budget.Calls.Admit` | backend/app/ai/pipeline.py:453-484 | Decided field by field: the context window first, then a free slot, then input, output and cost; denied for cost exactly when planned tokens at their prices exceed the last integer within the limit. The ledger step, or nothing changes |
| `Budget.Calls.Complete` | backend/app/ai/pipeline.py:499-530 | An answer moves its reservation to usage; each error is raised exactly for its total, for cost when the usage at its prices exceeds the rounded limit; within its reservation it keeps the limits and raises none |
| `Budget.Calls.Fail` | backend/app/ai/pipeline.py:485-498 | A failed or cancelled call stays charged: uncertain rises by its envelope, pending and uncertain together do not change, and the limits are kept |
| `SummaryTree.ReduceCallCount` | backend/app/ai/pipeline.py:365-373 | The loop computes the calls of the 8-ary reduction |
| `SummaryTree.ReduceLevel` | backend/app/ai/pipeline.py:587-610 | One level: each group of eight becomes what the provider makes of its texts with all its sources, a group of one stays; sources keep their order, one call per group of at least two; a provider that only joins texts loses none |
| `SummaryTree.ReduceSummaries` | backend/app/ai/pipeline.py:584-611 | The reduction ends, makes exactly the estimated number of calls, and the final summary names all source ids in order; with a provider that only joins texts it is all texts in order |
| `SummaryTree.ReduceCallsBounds` | backend/app/ai/pipeline.py:365-373 | That number lies between ceil((n-1)/7) and n-1 |
| `Batching.GenerationBatches` | backend/app/ai/pipeline.py:302-363 | Ends; per-chunk requests over all batches equal the allocation; each batch asks for 1..`cards_per_request` cards of distinct chunks; several chunks without shared context fit the token target with the reserve; no batch is closed early; with shared context all but the last are full |
| `Batching.CutIntoWaves` | backend/app/ai/pipeline.py:741-751 | The waves concatenate to the batches, no two batches of a wave share a chunk, and a wave is only begun because of one that does |
| `Batching.AskedByChunk` | backend/app/ai/pipeline.py:302-363 | Counting cards batch by batch or chunk by chunk gives the same total |
| `Preflight.Estimated` | backend/app/ai/pipeline.py:391-451 | The no-yield simulation: each round allocates the whole target fairly after the earlier rounds, in batches never closed early; requests, prompt sizes with their reserve, output ceilings (512 a card and 256, at most the model's) and the cost add up over all of them and the summaries, and each refusal is for exactly its amount. With one pack, requests and output have a closed form |
| `Preflight.AcceptedEstimateSuffices` | backend/app/ai/pipeline.py:428-451 | Usage within an accepted estimate meets none of the checks behind a call, cost included |
| `Preflight.ContextualBatches` | backend/app/ai/pipeline.py:328-363 | Full batches: their number and output reserve follow from the number of cards alone |
| `Preflight.BatchesNeeded` | backend/app/ai/pipeline.py:328-363 | No batching needs fewer requests than full batches |
| `Preflight.OutputGrows` | backend/app/ai/pipeline.py:420-423 | Asking for more cards never reserves less output |
| `Preflight.AddCounts` | backend/app/ai/pipeline.py:404-405 | The tallies after one more round |
| `Acceptance.GenerationRun` | backend/app/ai/pipeline.py:652-812 | For any provider: refused before any call exactly for the limit that the estimate breaks, otherwise the traced rounds: exactly the target or an error with fewer cards, all grounded, distinct, and each with the front, back, options and quote of a candidate that the provider returned in this run and the page and section of the chunk it named; with one pack, the calls made stay within the estimate, and no interleaving of them is ever refused for output tokens |
| `Acceptance.RunRounds` | backend/app/ai/pipeline.py:712-813 | For any provider: never more than the target, `Finished` exactly on the target; all cards grounded, taken from the answers of this run and pairwise distinct, accepted per chunk at most requested, every rejection counted; gives up only when every round ran, having asked in each for at least what is missing in the end |
| `Acceptance.RunRound` | backend/app/ai/pipeline.py:716-804 | A round asks for a fair allocation of what is missing, all of it unless the target is met on the way, and never overshoots although the inner `break` leaves one batch only |
| `Acceptance.RunWave` | backend/app/ai/pipeline.py:752-804 | All calls of a wave see the same accepted cards; their answers are consumed in batch order |
| `Acceptance.ConsumeBatch` | backend/app/ai/pipeline.py:768-804 | Candidates in order: one of a requested chunk within quota is accepted exactly when its own quote, answer, question and options meet the conditions and no accepted card is too similar, and then kept whole; any other is counted under the first condition it breaks; stops at the acceptance that reaches the target |
| `Acceptance.NothingWasted` | backend/app/ai/pipeline.py:773-804 | If the target is still unmet, each candidate was of no requested chunk, over quota, invalid, accepted, or too similar to an accepted card |
| `Acceptance.NoMoreWaves` | backend/app/ai/pipeline.py:752-754 | Once the target is met the remaining waves change nothing |
| `Acceptance.RunIsGiven` | backend/app/ai/pipeline.py:752-767 | Every answer a traced run has consumed is one the provider gave at some call |
| `Grounding.ValidIsGrounded` | backend/app/ai/grounding.py:63-98 | A card that passes quotes a chunk it could come from, answers from the quote, and has a distinct question |
| `Grounding.InspectionDecides` | backend/app/ai/grounding.py:63-98 | A candidate is valid exactly when it meets the conditions on quote, answer, question and options, written on its own fields; it is then kept whole, else the first it breaks is named |
| `Grounding.WithinMeans` | backend/app/ai/grounding.py:63-98 | Containment is standing somewhere in the text, to the letter |
| `Grounding.AppendIfDistinct` | backend/app/ai/grounding.py:101-110 | Appends exactly when no accepted card reaches the threshold, so accepted cards stay pairwise distinct |
| `DocumentChunks.NothingIsLost` | backend/app/ai/chunking.py:164-204 | For each page, dropping the recorded overlaps and reading the chunks in order gives exactly the words of its units |
| `DocumentChunks.ChunkDocument` | backend/app/ai/chunking.py:164-216 | Refused exactly for a bad ceiling or overlap; otherwise every page is covered under the budgets and laid out to the letter, and chunks are numbered without gaps and with distinct ids |
| `DocumentChunks.ChunkKeepsSection` | backend/app/ai/chunking.py:181-204 | No chunk crosses a section: the units that begin in it stand under its heading, whatever overlap it repeats |
| `DocumentChunks.AllSpeak` | backend/app/ai/chunking.py:206-215 | No chunk is blank, so the final filter drops nothing |
| `PageChunks.ChunkPage` | backend/app/ai/chunking.py:178-204 | Chunks of a page are gap-free ranges of its words, within `max_tokens` or a single word, each of one section, closed only before another section, an oversized unit or a unit that does not fit. To the letter: a gathered chunk is the longest tail of the gathered chunk before it within the overlap budget, if there is one and it fits beside the first unit, then its units, blank lines between; the pieces of an oversized unit overlap as far as allowed and, for a monotone estimator, are as long as can be |
| `PageChunks.TailWithinBudget` | backend/app/ai/chunking.py:71-81 | The longest tail of whole words in the budget |
| `Chunking.SplitOversizedUnit` | backend/app/ai/chunking.py:84-123 | Ends with gap-free ranges within the budget or of one word, written with single spaces; overlaps fit and are as long as allowed; with a monotone estimator every piece is maximal and piece ends never go back |
| `Chunking.LongestPiece` | backend/app/ai/chunking.py:93-109 | The binary search finds a fitting piece, the longest one if the estimator is monotone |
| `Chunking.NextStart` | backend/app/ai/chunking.py:113-122 | The next piece starts as far back as the overlap budget allows, but past the last start |
| `TextWords.WordsOfJoin` | backend/app/ai/chunking.py:85-104 | Words joined by spaces split back into the same words |
| `TextWords.WordsAcross` | backend/app/ai/chunking.py:193-198 | Texts joined by white space have the words of both |
| `Packing.PackChunks` | backend/app/ai/chunking.py:290-324 | Refused exactly for a bad limit; packs concatenate to the input, packs of several chunks meet both limits, and none could have taken the next chunk |
| `Packing.GreedyIsOptimal` | backend/app/ai/chunking.py:290-324 | With an estimator monotone on contiguous runs, no contiguous partition (singletons allowed) uses fewer packs |
| `Packing.StaysAhead` | backend/app/ai/chunking.py:310-324 | After k packs the greedy partition is at least as far as any other |
| `Hamilton.AllocateCardTargets` | backend/app/ai/chunking.py:219-239 | Shares sum to the target, each is the floor of its exact quota or one more, and an extra seat goes to no chunk before one with a larger remainder (ties by position) |
| `Hamilton.SeatsLeft` | backend/app/ai/chunking.py:229-232 | Fewer seats than chunks remain after flooring |
| `Hamilton.QuotasAddUp` | backend/app/ai/chunking.py:229-232 | Floors and remainders add up to the target over the common denominator |
| `Adaptive.AllocateAdaptive` | backend/app/ai/chunking.py:242-287 | Shares sum to the target and differ by at most one; a chunk asked before never gets more than a new one; no page is two new chunks ahead of a page that waits; of the chunks asked before, the more productive come first |
| `Adaptive.RoundRobin` | backend/app/ai/chunking.py:265-271 | The page loop ends and lists every chunk once, in rounds over the pages |
| `Adaptive.GroupByPage` | backend/app/ai/chunking.py:260-264 | Each page lists its chunks once, the least requested first |
| `Adaptive.PagesInTurn` | backend/app/ai/chunking.py:265-284 | No page gets another new slot while a page with a waiting new chunk is behind by one |
| `Adaptive.DealtEvenly` | backend/app/ai/chunking.py:280-287 | Dealing in turn keeps shares within one and favours earlier priorities |
| `Adaptive.DealtProductively` | backend/app/ai/chunking.py:273-279 | Accepted cards, then fewer requests, decide among chunks asked before |
| `Ordering.SortSorts` | backend/app/ai/chunking.py:264-264 | Sorting by key gives a sorted permutation |
| `Windows.BestWindow` | backend/app/ai/related_evidence.py:124-146 | Of all windows its anchors offer, the one with most distinct terms, then the earliest; none exactly when none shows anything; always non-blank, in bounds and at most 480 characters |
| `Windows.BestIsUnique` | backend/app/ai/related_evidence.py:134-146 | That description determines the result |
| `Windows.WindowBounds` | backend/app/ai/related_evidence.py:102-121 | The trimmed window of an anchor; it contains the anchor unless that is white space |
| `Windows.LeadingCut` | backend/app/ai/related_evidence.py:105-110 | A window starts eighty characters before its anchor, or right behind the last line or sentence end in the eighty before that |
| `Windows.TrailingCut` | backend/app/ai/related_evidence.py:111-120 | A window ends at the first line end near 420 characters, or else at the last space shortly before, or else right there, or with the text |
| `Windows.OneWindowEach` | backend/app/ai/related_evidence.py:102-121 | An anchor has one window |
| `Windows.TrimBounds` | backend/app/ai/related_evidence.py:94-99 | Exactly the white space at both ends is dropped |
| `Windows.Anchors` | backend/app/ai/related_evidence.py:127-133 | The beginning and the first 64 places of question terms |
| `Windows.SelectRelated` | backend/app/ai/related_evidence.py:149-170 | In rank order at most two best windows of different pages; every earlier chunk is shown, on a shown page, or offers none |
| `Windows.SelectSourceFirst` | backend/app/ai/related_evidence.py:190-211 | The three candidates with most terms, ties by rank, where candidates are exactly the best windows of different pages with enough terms |
| `Windows.WindowPassesGuard` | backend/alembic/versions/20260927_0027_source_navigation_policy.py:334-339 | Every such window passes the database's evidence check |
| `PdfArchive.CommittedArchivesAreWhole` | backend/alembic/versions/20260927_0026_original_knowledge_pdfs.py:60-110 | After any sequence of transactions, every archive has exactly the blocks 0..`block_count`-1 with the canonical sizes, and all storage caps hold |
| `PdfArchive.CountDecides` | backend/alembic/versions/20260927_0026_original_knowledge_pdfs.py:97-107 | Within a transaction, an archive is complete exactly when it has the right number of blocks: the size comparison then follows |
| `PdfArchive.OperationKeeps` | backend/alembic/versions/20260927_0026_original_knowledge_pdfs.py:60-96 | Every admitted operation keeps sizes canonical and caps satisfied, complete or not |
| `PdfArchive.TransactionSettles` | backend/alembic/versions/20260927_0026_original_knowledge_pdfs.py:97-115 | A transaction ends with complete archives or leaves no trace |
| `PdfArchive.SplitIsCanonical` | backend/alembic/versions/20260927_0026_original_knowledge_pdfs.py:89-94 | Cutting a file into blocks is canonical, and joining the blocks gives the file back |
| `PdfArchive.CanonicalIsSplit` | backend/alembic/versions/20260927_0026_original_knowledge_pdfs.py:89-94 | Blocks of canonical sizes are the split of what they join to: splitting and joining are inverse |
| `PdfArchive.Archives.AddArchive` | backend/alembic/versions/20260927_0026_original_knowledge_pdfs.py:60-79 | The insert guard with its three sums |
| `PdfArchive.Archives.AddBlock` | backend/alembic/versions/20260927_0026_original_knowledge_pdfs.py:81-95 | Admits exactly the pieces that a file of the archive's size is cut into, each once, and keeps the transaction consistent |
| `PdfArchive.BlockIsPiece` | backend/alembic/versions/20260927_0026_original_knowledge_pdfs.py:89-94 | The block guard agrees with cutting: number and size of a block are those of the cut of any file of that size |
| `PdfArchive.Archives.Commit` | backend/alembic/versions/20260927_0026_original_knowledge_pdfs.py:97-115 | The deferred check of every touched archive: commit exactly when all are complete, otherwise back to the saved state |

## Left out

- Acceptance.GenerationRun: its precondition asks for chunks with distinct identities, a positive target and non-empty packs: empty documents are refused before this point, and `DocumentChunks.ChunkDocument` and `Packing.PackChunks` provide the rest. The estimate is not claimed to bound the input tokens of a run: later rounds show accepted cards, and their prompts are arbitrary.
- Acceptance.RunWave: the provider's answer is a function of the round, the wave, the position, the batch and the accepted cards shown; a call that raises ends the whole run and is a `Lose` event of `Budget`, not part of the acceptance loop.
- Budget.Calls.Admit: waiting for a slot is a result (`Waits`); the semaphore is taken to serve one run.
- Budget.CostGrows: prices and limits are exact reals; the decimal context's precision is not modelled.
- Hamilton.AllocateCardTargets: quotas and remainders are exact fractions over the common total, not floating-point numbers; the code's float division may order near-ties differently.
- KnowledgeStore.Store.InsertContent: columns are checked for range and shape as the constraints state, but formats of hashes and names that no guard depends on are not.
- PdfArchive.CommittedArchivesAreWhole: nonces, ciphertexts and keys are not modelled, only sizes; a removed content revision takes its archive along.
- VersionStamp.SoundStamp: holds while the Subject exists; deleting and creating a Subject under the same identity starts a new stamp.
- Windows.SelectSourceFirst: begins with the terms of the local query; how a follow-up question is resolved, and which words are terms, are regular expressions over the question.
- The Ask tables are values: their guards only read and compare rows, and each statement writes one row, so there is no update in place to capture.
- Statements are single-row; a multi-row statement is a sequence of them, which refuses in part where the database would roll back all.
- Users are a set of instructors and a set of students; changes of accounts, threads, sessions and message history are reduced to what the guards read.
- `rag_embedding_spaces`: the identity is one opaque profile; that the key is its SHA-256 is not modelled.
- `generation_jobs` and `flashcard_sets`: detaching them when a document is deleted touches nothing modelled here.
- Earlier answer policies, their message sources, the question-context tables and the judge snapshot columns: only the current policy of the Ask guards is modelled.
- Telemetry: cached tokens, retry counters, rate-limit waits, round diagnostics.
- Cancellation of sibling calls is the `Lose` event; the order in which tasks are drained is not modelled.
- Page text to units (blank-line blocks, headings, regular expressions): units are the input, and heading lines are not part of them.
- Provider SDK, prompts, token estimation, NFKC normalisation and `SequenceMatcher`.
- Embedding retries, evaluation scripts, HTTP routes, authentication, e-mail, frontend and deployment.
- Migration mechanics: patching of installed functions and downgrade paths.
