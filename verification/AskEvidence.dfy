/**
 * A source-only Ask job completes with related Knowledge only while every excerpt it shows is current:
 * the check at insertion, the check at completion and the corpus stamp add up.
 */
module AskEvidence {
  import opened Prelude
  import opened KnowledgeTables
  import opened KnowledgeStatements
  import opened KnowledgeEffects
  import opened KnowledgeInvariants
  import opened KnowledgeRuns
  import opened VersionStamp
  import opened AskTables
  import opened AskStatements

  /** The chunk is shown to the Subject's readers, with this page text. */
  predicate ShownWith(db: Db, subject: Id, chunk: Id, text: string) {
    chunk in View(db, subject) && View(db, subject)[chunk].page == text
  }

  /**
   * One evidence row: its job and chunk exist, its window fits the text it was admitted with, the Subject
   * has not gone back behind the job's revision, and while it is still at that revision nothing moved.
   */
  ghost predicate EvidenceHolds(w: World, key: EvidenceKey) {
    && key in w.evidence && key in w.read
    && key.job in w.jobs
    && var row, target := w.evidence[key], w.jobs[key.job].target;
    && EvidenceCheck(key, row)
    && row.subject == target.subject
    && (target.documents == {} || row.document in target.documents)
    && row.chunk in w.db.chunks && w.db.chunks[row.chunk].document == row.document
    && WindowIn(w.read[key], row.start, row.end)
    && target.subject in w.db.subjects
    && target.corpusRevision <= w.db.subjects[target.subject].corpusRevision
    && (target.corpusRevision == w.db.subjects[target.subject].corpusRevision ==>
          ShownWith(w.db, target.subject, row.chunk, w.read[key]))
  }

  ghost predicate AllEvidenceHolds(w: World) {
    forall key :: key in w.evidence ==> EvidenceHolds(w, key)
  }

  /** Every job hangs on a question of its own Subject. */
  ghost predicate JobsAsk(w: World) {
    forall j :: j in w.jobs ==>
      && w.jobs[j].target.question in w.questions
      && w.questions[w.jobs[j].target.question].subject == w.jobs[j].target.subject
  }

  /** The excerpts of one job come from one bundle and one retry epoch, and cite different chunks. */
  ghost predicate Bundled(evidence: map<EvidenceKey, Evidence>) {
    forall k, l :: k in evidence && l in evidence && k != l && k.job == l.job ==>
      && evidence[k].bundle == evidence[l].bundle && evidence[k].retry == evidence[l].retry
      && evidence[k].chunk != evidence[l].chunk
  }

  ghost predicate AskInv(w: World) {
    Inv(w.db) && JobsAsk(w) && AllEvidenceHolds(w) && Bundled(w.evidence)
  }

  // Steps

  lemma ChunksUntouched(s: Db, q: Statement)
    requires Attempt(s, q).Some? && !OnChunk(q) && !Cascades(q)
    ensures Attempt(s, q).value.chunks == s.chunks
  {
    hide Attempt;
    if OnOwner(q) {
      OwnerStatementEffect(s, q);
    } else if OnContent(q) {
      ContentStatementEffect(s, q);
    } else if OnJob(q) {
      JobStatementEffect(s, q);
    } else {
      IndexStatementEffect(s, q);
    }
  }

  lemma CascadeTakesChunks(s: Db, q: Statement, k: Id)
    requires Attempt(s, q).Some? && Cascades(q) && k in Attempt(s, q).value.chunks
    ensures k in s.chunks && Attempt(s, q).value.chunks[k] == s.chunks[k]
  {
    hide AdjustUsage, Charged, ContentCheck, IndexCheck, ChunkCheck, PageCheck, DocumentCheck, SubjectCheck, JobCheck, JobGuard;
    hide UniqueContent, UniqueIndex, UniqueJob, HasReadyIndex, IndexBump, ContentBump, Exposed, Utf8Length, ChunkBytes, Bump;
    hide ContentsOf, IndexesOf, IndexesOfContent, LiveContents, SameContentIdentity, SameIndexIdentity, ResultReady;
    hide InsertContent, UpdateContent, InsertPage, UpdatePage, DeletePage, InsertIndex, UpdateIndex, InsertChunk, UpdateChunk;
    hide DeleteChunk, InsertJob, UpdateJob, DeleteJob, DeleteSubject;
    if q.DropSubject? {
      SubjectKeepsChunk(s, q.id, q.order, k);
    }
  }

  lemma AttemptKeepsDocument(s: Db, q: Statement, k: Id)
    requires Attempt(s, q).Some? && k in s.chunks && k in Attempt(s, q).value.chunks
    ensures Attempt(s, q).value.chunks[k].document == s.chunks[k].document
  {
    hide InsertContent, UpdateContent, DeleteContent, InsertPage, UpdatePage, DeletePage, DeleteDocument, DeleteSubject;
    hide InsertIndex, UpdateIndex, DeleteIndex, ChunkCheck, IndexCheck, ChunkBytes, Embedded;
    if Cascades(q) {
      CascadeTakesChunks(s, q, k);
    } else if !OnChunk(q) {
      ChunksUntouched(s, q);
    }
  }

  lemma SubjectKeepsChunk(s: Db, id: Id, order: seq<Id>, k: Id)
    requires DeleteSubject(s, id, order).Some? && k in DeleteSubject(s, id, order).value.chunks
    ensures k in s.chunks && DeleteSubject(s, id, order).value.chunks[k] == s.chunks[k]
  {
    hide DeleteDocuments;
    DocumentsKeepChunk(s, order, k);
  }

  lemma {:induction false} DocumentsKeepChunk(s: Db, order: seq<Id>, k: Id)
    requires DeleteDocuments(s, order).Some?
    ensures k in DeleteDocuments(s, order).value.chunks ==>
              k in s.chunks && DeleteDocuments(s, order).value.chunks[k] == s.chunks[k]
    decreases |order|
  {
    hide AdjustUsage, Charged, Bump, LiveContents;
    if order != [] {
      DocumentsKeepChunk(DeleteDocument(s, order[0]).value, order[1..], k);
    }
  }

  lemma KeptChunkHasDocument(s: Db, q: Statement, k: Id)
    requires Inv(s) && Attempt(s, q).Some? && k in s.chunks && k in Attempt(s, q).value.chunks
    ensures Attempt(s, q).value.chunks[k].document == s.chunks[k].document
  {
    hide Inv, Attempt;
    AttemptKeepsDocument(s, q, k);
  }

  lemma KeptSubjectIsStamped(s: Db, q: Statement, subject: Id)
    requires Inv(s) && Attempt(s, q).Some? && subject in s.subjects && subject in Attempt(s, q).value.subjects
    ensures Stamped(s, Attempt(s, q).value, subject)
  {
    hide Inv, Attempt, Stamped;
    if q.DropSubject? && q.id == subject {
      DroppedSubjectIsGone(s, q.id, q.order);
      assert false;
    } else {
      StepStamps(s, q, subject);
      assert Execute(s, q) == Attempt(s, q).value;
    }
  }

  /** An excerpt survives any corpus statement that leaves its Subject and its chunk in place. */
  lemma CorpusKeepsEvidence(w: World, q: Statement, key: EvidenceKey)
    requires Inv(w.db) && EvidenceHolds(w, key) && Attempt(w.db, q).Some?
    requires w.jobs[key.job].target.subject in Attempt(w.db, q).value.subjects
    requires w.evidence[key].chunk in Attempt(w.db, q).value.chunks
    ensures EvidenceHolds(w.(db := Attempt(w.db, q).value), key)
  {
    hide Inv, Attempt, View, EvidenceCheck, WindowIn, Refs, Shown, PassageOf;
    var subject := w.jobs[key.job].target.subject;
    KeptSubjectIsStamped(w.db, q, subject);
    KeptChunkHasDocument(w.db, q, w.evidence[key].chunk);
  }

  lemma DroppedSubjectIsGone(s: Db, id: Id, order: seq<Id>)
    ensures var r := Attempt(s, DropSubject(id, order)); r.Some? ==> id !in r.value.subjects
  {
    hide DeleteDocuments;
  }

  /** Cascades only remove rows: what a remaining row says of its parents is untouched. */
  lemma CascadeKeepsInv(w: World)
    requires Inv(w.db) && Bundled(w.evidence)
    requires forall j :: j in Cascade(w).jobs ==> w.questions[w.jobs[j].target.question].subject == w.jobs[j].target.subject
    requires forall key :: key in Cascade(w).evidence ==> EvidenceHolds(w, key)
    ensures AskInv(Cascade(w))
  {
    hide Inv, View, EvidenceCheck, WindowIn;
    var c := Cascade(w);
    forall key | key in c.evidence ensures EvidenceHolds(c, key) {
      assert EvidenceHolds(w, key);
    }
  }

  lemma CorpusStepKeepsInv(w: World, q: Statement)
    requires AskInv(w) && Attempt(w.db, q).Some?
    ensures AskInv(Cascade(w.(db := Attempt(w.db, q).value)))
  {
    hide Inv, Attempt, View, EvidenceHolds;
    var next := w.(db := Attempt(w.db, q).value);
    StepKeepsInv(w.db, q);
    assert Execute(w.db, q) == next.db;
    forall key | key in Cascade(next).evidence ensures EvidenceHolds(next, key) {
      assert EvidenceHolds(w, key);
      EvidenceNamesItsJob(w, key);
      assert key.job in Cascade(next).jobs;
      CorpusKeepsEvidence(w, q, key);
    }
    CascadeKeepsInv(next);
  }

  lemma EvidenceNamesItsJob(w: World, key: EvidenceKey)
    requires EvidenceHolds(w, key)
    ensures key in w.evidence && key.job in w.jobs
  {
  }

  /** Evidence depends on the target of its job only. */
  lemma SameTargets(w: World, t: World, key: EvidenceKey)
    requires EvidenceHolds(w, key) && t.db == w.db
    requires key in t.evidence && t.evidence[key] == w.evidence[key] && key in t.read && t.read[key] == w.read[key]
    requires key.job in t.jobs && t.jobs[key.job].target == w.jobs[key.job].target
    ensures EvidenceHolds(t, key)
  {
    hide View, EvidenceCheck, WindowIn;
  }

  lemma JobStepKeepsInv(w: World, step: Step)
    requires AskInv(w) && Offer(w, step).Some?
    requires step.SetReaders? || step.AddQuestion? || step.EditQuestion? || step.AddAskJob? || step.EditAskJob?
             || step.AddStage? || step.EditStage? || step.DropStage? || step.EditEvidence? || step.DropEvidence?
    ensures AskInv(Offer(w, step).value)
  {
    hide Inv, AskJobCheck, CompletionGuard, UniqueAskJob, StageGuard, EvidenceHolds, Attempt, Cascade, InsertEvidence;
    hide AllEvidenceHolds, AskTransition;
    var t := Offer(w, step).value;
    KeptTargetsKeepEvidence(w, t);
  }

  lemma KeptTargetsKeepEvidence(w: World, t: World)
    requires AllEvidenceHolds(w) && t.db == w.db
    requires forall key :: key in t.evidence ==> key in w.evidence && t.evidence[key] == w.evidence[key]
    requires t.read == w.read
    requires forall j :: j in w.jobs ==> j in t.jobs && t.jobs[j].target == w.jobs[j].target
    ensures AllEvidenceHolds(t)
  {
    hide EvidenceHolds;
    forall key | key in t.evidence ensures EvidenceHolds(t, key) {
      assert EvidenceHolds(w, key);
      EvidenceNamesItsJob(w, key);
      EvidenceWasRead(w, key);
      SameTargets(w, t, key);
    }
  }

  lemma EvidenceWasRead(w: World, key: EvidenceKey)
    requires EvidenceHolds(w, key)
    ensures key in w.read
  {
  }

  lemma DropStepKeepsInv(w: World, step: Step)
    requires AskInv(w) && Offer(w, step).Some? && (step.DropQuestion? || step.DropAskJob?)
    ensures AskInv(Offer(w, step).value)
  {
    hide Inv, EvidenceHolds, InsertQuestion, UpdateQuestion, InsertAskJob, UpdateAskJob, InsertStage, UpdateStage, InsertEvidence, Attempt;
    var next := if step.DropQuestion? then w.(questions := w.questions - {step.id}) else w.(jobs := w.jobs - {step.id});
    forall key | key in Cascade(next).evidence ensures EvidenceHolds(next, key) {
      assert EvidenceHolds(w, key);
      EvidenceNamesItsJob(w, key);
      EvidenceWasRead(w, key);
      SameTargets(w, next, key);
    }
    CascadeKeepsInv(next);
  }

  lemma NewEvidenceHolds(w: World, key: EvidenceKey, row: Evidence, now: int)
    requires Inv(w.db) && InsertEvidence(w, key, row, now).Some?
    ensures EvidenceHolds(InsertEvidence(w, key, row, now).value, key)
  {
    hide Inv, Judged, MayRead, Blank, Eligible;
    var chunk := row.chunk;
    assert Shown(w.db, row.subject, chunk);
    ShownIsThere(w.db, row.subject, chunk);
    assert ShownWith(w.db, row.subject, chunk, PassageOf(w.db, chunk).page);
  }

  lemma ShownIsThere(db: Db, subject: Id, k: Id)
    requires Shown(db, subject, k)
    ensures k in db.chunks && subject in db.subjects
  {
  }

  lemma NewEvidenceFits(w: World, key: EvidenceKey, row: Evidence, now: int)
    requires EvidenceGuard(w, key, row, now) && Bundled(w.evidence) && key !in w.evidence
    ensures Bundled(w.evidence[key := row])
  {
    hide Judged, Cited, MayRead, WindowIn;
  }

  lemma EvidenceStepKeepsInv(w: World, key: EvidenceKey, row: Evidence, now: int)
    requires AskInv(w) && InsertEvidence(w, key, row, now).Some?
    ensures AskInv(InsertEvidence(w, key, row, now).value)
  {
    hide Inv, EvidenceHolds, EvidenceGuard, EvidenceCheck;
    var t := InsertEvidence(w, key, row, now).value;
    NewEvidenceHolds(w, key, row, now);
    NewEvidenceFits(w, key, row, now);
    forall k | k in w.evidence ensures EvidenceHolds(t, k) {
      assert EvidenceHolds(w, k);
      EvidenceNamesItsJob(w, k);
      EvidenceWasRead(w, k);
      SameTargets(w, t, k);
    }
  }

  lemma TakeKeepsInv(w: World, step: Step)
    requires AskInv(w)
    ensures AskInv(Take(w, step))
  {
    hide AskInv, Attempt, Cascade, InsertQuestion, UpdateQuestion, InsertAskJob, UpdateAskJob, InsertStage, UpdateStage, InsertEvidence;
    if Offer(w, step).Some? {
      match step {
        case Corpus(q) => CorpusStepKeepsInv(w, q);
        case DropQuestion(_) => DropStepKeepsInv(w, step);
        case DropAskJob(_) => DropStepKeepsInv(w, step);
        case AddEvidence(key, row, now) => EvidenceStepKeepsInv(w, key, row, now);
        case _ => JobStepKeepsInv(w, step);
      }
    }
  }

  lemma {:induction false} ReachableAskInv(steps: seq<Step>)
    ensures AskInv(Reach(EMPTY_WORLD, steps))
    decreases |steps|
  {
    hide Take, Inv, EvidenceHolds;
    if steps == [] {
      EmptyInv();
    } else {
      hide AskInv;
      ReachableAskInv(steps[..|steps| - 1]);
      TakeKeepsInv(Reach(EMPTY_WORLD, steps[..|steps| - 1]), steps[|steps| - 1]);
    }
  }

  // Completion

  /** One excerpt is safe to show: a current eligible chunk of the job's scope, with the text the window was checked on. */
  ghost predicate SafeExcerpt(w: World, job: AskJob, key: EvidenceKey) {
    && key in w.evidence && key in w.read
    && var row := w.evidence[key];
    && Eligible(w.db, row.chunk)
    && w.db.chunks[row.chunk].subject == job.target.subject
    && (job.target.documents == {} || w.db.chunks[row.chunk].document in job.target.documents)
    && PassageOf(w.db, row.chunk).page == w.read[key]
    && WindowIn(PassageOf(w.db, row.chunk).page, row.start, row.end)
  }

  ghost predicate NumberedTo(evidence: map<EvidenceKey, Evidence>, id: Id, n: nat) {
    forall o: int :: EvidenceKey(id, o) in evidence <==> 1 <= o <= n
  }

  /** The job's excerpts are numbered exactly 1 to n, with n from one to three, every one of them is safe, and no two cite the same chunk. */
  ghost predicate EvidenceSafe(w: World, id: Id) {
    && id in w.jobs
    && (NumberedTo(w.evidence, id, 1) || NumberedTo(w.evidence, id, 2) || NumberedTo(w.evidence, id, 3))
    && (forall key :: key in w.evidence && key.job == id ==> SafeExcerpt(w, w.jobs[id], key))
    && (forall k, l :: k in w.evidence && l in w.evidence && k != l && k.job == l.job == id ==>
          w.evidence[k].chunk != w.evidence[l].chunk)
  }

  lemma OrdersAreOneTo(evidence: map<EvidenceKey, Evidence>, id: Id)
    requires var orders := Orders(evidence, id);
             1 <= |orders| <= 3 && 1 in orders && |orders| in orders && forall o :: o in orders ==> 1 <= o <= |orders|
    ensures NumberedTo(evidence, id, |Orders(evidence, id)|)
  {
    var orders := Orders(evidence, id);
    forall o: int ensures EvidenceKey(id, o) in evidence <==> o in orders {
      if EvidenceKey(id, o) in evidence {
        assert EvidenceKey(id, o).order in orders;
      }
    }
    if |orders| == 3 {
      assert |orders - {1} - {3}| == 1;
      var o :| o in orders - {1} - {3};
      assert o == 2;
    }
    assert forall o: int :: o in orders <==> 1 <= o <= |orders|;
  }

  lemma CurrentEvidenceIsSafe(w: World, key: EvidenceKey)
    requires EvidenceHolds(w, key) && Current(w.db, w.jobs[key.job].target)
    ensures SafeExcerpt(w, w.jobs[key.job], key)
  {
    hide WindowIn, EvidenceCheck;
  }

  lemma CompletedIsSafe(w: World, id: Id, row: AskJob)
    requires UpdateAskJob(w, id, row).Some? && AskInv(UpdateAskJob(w, id, row).value)
    requires row.status == AskCompleted && row.result == Some(RelatedKnowledge)
    ensures EvidenceSafe(UpdateAskJob(w, id, row).value, id)
  {
    hide Inv, EvidenceHolds, SafeExcerpt, AskJobCheck, AskJobGuard, Orders, NumberedTo, Current, MayClarify;
    var t := UpdateAskJob(w, id, row).value;
    OrdersAreOneTo(t.evidence, id);
    forall key | key in t.evidence && key.job == id ensures SafeExcerpt(t, t.jobs[id], key) {
      assert EvidenceHolds(t, key);
      CurrentEvidenceIsSafe(t, key);
    }
  }

  /** Completing a job as related Knowledge is admitted only when its evidence is safe at that moment. */
  lemma CompletionIsEvidenceSafe(steps: seq<Step>, id: Id, row: AskJob)
    requires var w := Reach(EMPTY_WORLD, steps); UpdateAskJob(w, id, row).Some?
    requires row.status == AskCompleted && row.result == Some(RelatedKnowledge)
    ensures EvidenceSafe(Take(Reach(EMPTY_WORLD, steps), EditAskJob(id, row)), id)
  {
    hide Reach, AskInv, UpdateAskJob;
    var w := Reach(EMPTY_WORLD, steps);
    ReachableAskInv(steps);
    TakeKeepsInv(w, EditAskJob(id, row));
    CompletedIsSafe(w, id, row);
  }
}
