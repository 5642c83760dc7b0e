/**
 * When the Ask guards admit: completion and evidence, condition by condition; and a run that completes with
 * three excerpts.
 */
module AskCompletion {
  import opened Prelude
  import opened KnowledgeTables
  import opened KnowledgeStatements
  import opened KnowledgeInvariants
  import opened VersionStamp
  import opened AskTables
  import opened AskStatements
  import opened AskEvidence

  // Completion

  /** The evidence fits what the job says it found. */
  ghost predicate Fits(w: World, id: Id, row: AskJob) {
    match row.result
    case None => false
    case Some(RelatedKnowledge) => NumberedTo(w.evidence, id, 1) || NumberedTo(w.evidence, id, 2) || NumberedTo(w.evidence, id, 3)
    case Some(NoMatch) => forall key :: key in w.evidence ==> key.job != id
    case Some(ClarificationNeeded) =>
      && (forall key :: key in w.evidence ==> key.job != id)
      && ((forall t :: t in w.stages && w.stages[t].job == id ==> w.stages[t].kind == Retrieval)
          || exists t :: t in w.stages && JudgedInTime(w.stages[t], id, row.retries, row.attempts))
  }

  /** A judgment of this job, epoch and attempt that ended well after a single request. */
  predicate JudgedInTime(stage: Stage, id: Id, retry: int, attempt: int) {
    && (stage.job, stage.retry, stage.attempt, stage.kind) == (id, retry, attempt, SourceJudgment)
    && stage.completedAt.Some? && stage.requests == 1 && stage.requestRetries == 0
    && stage.errorCategory.None? && stage.failureReason.None? && !stage.uncertain
  }

  function UpTo(n: nat): set<int> {
    if n == 0 then {} else UpTo(n - 1) + {n}
  }

  lemma {:induction false} UpToMeans(n: nat)
    ensures |UpTo(n)| == n && forall o :: o in UpTo(n) <==> 1 <= o <= n
  {
    if n > 0 {
      UpToMeans(n - 1);
    }
  }

  lemma NumberedOrders(evidence: map<EvidenceKey, Evidence>, id: Id, n: nat)
    requires NumberedTo(evidence, id, n)
    ensures Orders(evidence, id) == UpTo(n) && |Orders(evidence, id)| == n
  {
    UpToMeans(n);
    forall k | k in evidence && k.job == id ensures 1 <= k.order <= n {
      assert k == EvidenceKey(id, k.order);
    }
    forall o | 1 <= o <= n ensures o in Orders(evidence, id) {
      assert EvidenceKey(id, o) in evidence && EvidenceKey(id, o).job == id;
    }
  }

  lemma NoOrders(evidence: map<EvidenceKey, Evidence>, id: Id)
    ensures Orders(evidence, id) == {} <==> forall key :: key in evidence ==> key.job != id
  {
    if Orders(evidence, id) == {} {
      forall key | key in evidence ensures key.job != id {
        assert key.job == id ==> key.order in Orders(evidence, id);
      }
    }
  }

  /** One to three excerpts, numbered without a gap from one. */
  lemma OrdersFit(evidence: map<EvidenceKey, Evidence>, id: Id)
    ensures var orders := Orders(evidence, id);
            (1 <= |orders| <= 3 && 1 in orders && |orders| in orders && forall o :: o in orders ==> 1 <= o <= |orders|)
            <==> NumberedTo(evidence, id, 1) || NumberedTo(evidence, id, 2) || NumberedTo(evidence, id, 3)
  {
    var orders := Orders(evidence, id);
    if 1 <= |orders| <= 3 && 1 in orders && |orders| in orders && forall o :: o in orders ==> 1 <= o <= |orders| {
      OrdersAreOneTo(evidence, id);
      hide NumberedTo, Orders;
    } else {
      hide Orders, NumberedTo;
      forall n: nat | 1 <= n <= 3 ensures !NumberedTo(evidence, id, n) {
        if NumberedTo(evidence, id, n) {
          NumberedOrders(evidence, id, n);
          UpToMeans(n);
        }
      }
    }
  }

  /** The Subject still has the revision and the space that the job was asked under. */
  predicate AskedOf(w: World, target: AskTarget) {
    && target.subject in w.db.subjects
    && w.db.subjects[target.subject].corpusRevision == target.corpusRevision
    && w.db.subjects[target.subject].activeSpace == Some(target.space)
  }

  /**
   * A running job is completed exactly when its row keeps what it must and passes the row check, its Subject
   * still has the revision and space it was asked under, and its evidence fits its result.
   */
  lemma CompletionAdmitted(w: World, id: Id, row: AskJob)
    requires id in w.jobs && w.jobs[id].status == AskRunning && row.status == AskCompleted
    ensures Offer(w, EditAskJob(id, row)).Some? <==>
              && (row.target, row.session, row.attempts, row.retries)
                 == (w.jobs[id].target, w.jobs[id].session, w.jobs[id].attempts, w.jobs[id].retries)
              && AskJobCheck(row)
              && AskedOf(w, row.target) && Fits(w, id, row)
    ensures Offer(w, EditAskJob(id, row)).Some? ==> Offer(w, EditAskJob(id, row)) == Some(w.(jobs := w.jobs[id := row]))
  {
    hide AskJobCheck, CompletionGuard, Fits, AskedOf;
    CompletionIsChecked(w, id, row);
  }

  lemma CompletionIsChecked(w: World, id: Id, row: AskJob)
    ensures CompletionGuard(w, id, row) <==> AskedOf(w, row.target) && Fits(w, id, row)
  {
    hide Orders, NumberedTo, MayClarify, JudgedInTime;
    OrdersFit(w.evidence, id);
    NoOrders(w.evidence, id);
    JudgmentsAgree(w, id, row);
  }

  /**
   * What may become of a job: a worker takes it, gives it back, ends it; a failed one is queued once more by
   * hand, for another session if need be, as one more retry.
   */
  predicate MayBecome(old_: AskJob, row: AskJob) {
    match old_.status
    case AskQueued =>
      && row.retries == old_.retries && row.session == old_.session
      && row.status != AskCompleted
      && (row.attempts == old_.attempts || (row.status == AskRunning && row.attempts == old_.attempts + 1))
    case AskRunning =>
      && row.retries == old_.retries && row.session == old_.session && row.attempts == old_.attempts
      && (row.status == AskRunning ==> row.worker == old_.worker && row.claimToken == old_.claimToken)
    case AskFailed =>
      if row.status == AskQueued then row.retries == old_.retries + 1 && (row.attempts == 0 || row.attempts == old_.attempts)
      else row.status == AskFailed && row.retries == old_.retries && row.session == old_.session && row.attempts == old_.attempts
    case _ => row == old_
  }

  /** An edit of a job is admitted exactly if it may become that of the same target, passes the row check, and is borne out if it is completed. */
  lemma AskEditAdmitted(w: World, id: Id, row: AskJob)
    requires id in w.jobs
    ensures Offer(w, EditAskJob(id, row)).Some? <==>
              && row.target == w.jobs[id].target && MayBecome(w.jobs[id], row) && AskJobCheck(row)
              && (row.status == AskCompleted ==> AskedOf(w, row.target) && Fits(w, id, row))
  {
    hide AskJobCheck, CompletionGuard, Fits, AskedOf;
    CompletionIsChecked(w, id, row);
  }

  /** A job is admitted exactly for a user's own question, fresh, the only one for it, under a key its user never used before. */
  lemma AskJobAdmitted(w: World, id: Id, row: AskJob)
    ensures Offer(w, AddAskJob(id, row)).Some? <==>
              && id !in w.jobs && AskJobCheck(row) && row.target.question in w.questions
              && var question := w.questions[row.target.question];
              && question.fromUser
              && row.target.thread == question.thread && row.target.user == question.user && row.target.subject == question.subject
              && row.status == AskQueued && row.attempts == 0 && row.worker == None && row.claimToken == None
              && forall j :: j in w.jobs ==>
                   && w.jobs[j].target.question != row.target.question
                   && !(w.jobs[j].target.user == row.target.user && w.jobs[j].target.operationKey == row.target.operationKey)
  {
    hide AskJobCheck;
  }

  /** A stage belongs to the current epoch and attempt of its job; an epoch has one of each kind, but one retrieval for each attempt. */
  lemma StageAdmitted(w: World, id: Id, row: Stage)
    ensures var fits := && StageCheck(row) && row.job in w.jobs
                        && row.retry == w.jobs[row.job].retries && row.attempt == w.jobs[row.job].attempts
                        && forall t :: t in w.stages && t != id && (w.stages[t].job, w.stages[t].retry, w.stages[t].kind) == (row.job, row.retry, row.kind)
                             ==> row.kind == Retrieval && w.stages[t].attempt != row.attempt;
            && (Offer(w, AddStage(id, row)).Some? <==> id !in w.stages && fits)
            && (Offer(w, EditStage(id, row)).Some? <==> id in w.stages && fits)
  {
    hide StageCheck;
  }

  lemma JudgmentsAgree(w: World, id: Id, row: AskJob)
    ensures MayClarify(w, id, row) <==>
              || (forall t :: t in w.stages && w.stages[t].job == id ==> w.stages[t].kind == Retrieval)
              || exists t :: t in w.stages && JudgedInTime(w.stages[t], id, row.retries, row.attempts)
  {
    forall t | t in w.stages ensures CleanJudgment(w.stages[t], id, row.retries, row.attempts)
                                <==> JudgedInTime(w.stages[t], id, row.retries, row.attempts) {
    }
    hide CleanJudgment, JudgedInTime;
  }

  // Evidence

  /** The job is being worked on in this epoch, has retrieved, and its lease and its question are still alive. */
  predicate Underway(w: World, key: EvidenceKey, row: Evidence, now: int) {
    && key.job in w.jobs
    && var job := w.jobs[key.job];
    && job.status == AskRunning && job.retries == row.retry && job.retrievalCompletedAt.Some?
    && job.leaseExpiresAt.Some? && now < job.leaseExpiresAt.value
    && (row.thread, row.user, row.subject) == (job.target.thread, job.target.user, job.target.subject)
    && job.target.question in w.questions
    && now < w.questions[job.target.question].expiresAt && row.expiresAt <= w.questions[job.target.question].expiresAt
  }

  /** The excerpts of the job so far are of the same bundle and epoch and cite other chunks. */
  predicate Joins(evidence: map<EvidenceKey, Evidence>, key: EvidenceKey, row: Evidence) {
    forall k | k in evidence && k.job == key.job ::
      evidence[k].bundle == row.bundle && evidence[k].retry == row.retry && evidence[k].chunk != row.chunk
  }

  /** The user teaches the Subject, or studies and is enrolled in it. */
  predicate Reader(w: World, user: Id, subject: Id) {
    || (user in w.db.instructors && subject in w.db.subjects && w.db.subjects[subject].instructor == user)
    || (user in w.students && (user, subject) in w.enrollments && subject in w.db.subjects)
  }

  /** The row names a passage that the Subject's readers may cite at the revision and in the space of the job, and shows some of its page. */
  ghost predicate Quotes(w: World, target: AskTarget, row: Evidence) {
    && row.chunk in View(w.db, row.subject)
    && row.subject in w.db.subjects && w.db.subjects[row.subject].corpusRevision == target.corpusRevision
    && var passage := View(w.db, row.subject)[row.chunk];
    && (passage.chunk.index, passage.chunk.content, passage.chunk.document) == (row.index, row.content, row.document)
    && passage.chunk.space == target.space
    && 0 <= row.start < row.end <= |passage.page| && row.end - row.start <= 480
    && exists i :: row.start <= i < row.end && passage.page[i] !in {' ', '\t', '\n', '\r'}
  }

  /** A new excerpt of a job underway, in its scope, judged in time, for a user who may read it, out of a passage that readers may cite. */
  ghost predicate MayBeShown(w: World, key: EvidenceKey, row: Evidence, now: int) {
    && key !in w.evidence && EvidenceCheck(key, row)
    && Underway(w, key, row, now) && Joins(w.evidence, key, row)
    && var target := w.jobs[key.job].target;
    && (target.documents == {} || row.document in target.documents)
    && row.source == CanonicalPage
    && (exists t :: t in w.stages && JudgedInTime(w.stages[t], key.job, row.retry, w.jobs[key.job].attempts))
    && Reader(w, target.user, row.subject)
    && Quotes(w, target, row)
  }

  /** In every reachable state, an excerpt is admitted exactly under these conditions. */
  lemma EvidenceAdmitted(w: World, key: EvidenceKey, row: Evidence, now: int)
    requires AskInv(w)
    ensures Offer(w, AddEvidence(key, row, now)).Some? <==> MayBeShown(w, key, row, now)
  {
    hide AskInv, EvidenceCheck, View, Cited, WindowIn, CleanJudgment, JudgedInTime, Quotes, Reader, MayRead;
    if key.job in w.jobs {
      JudgmentsAreClean(w, key.job, row.retry, w.jobs[key.job].attempts);
      QuoteIsCited(w, w.jobs[key.job].target, row);
      ReadersRead(w, w.jobs[key.job].target.user, row.subject);
    }
  }

  /** And then it is recorded with the text of its page. */
  lemma EvidenceIsRecorded(w: World, key: EvidenceKey, row: Evidence, now: int)
    requires Offer(w, AddEvidence(key, row, now)).Some?
    ensures row.chunk in View(w.db, row.subject)
    ensures var t := Offer(w, AddEvidence(key, row, now)).value;
            t == w.(evidence := w.evidence[key := row], read := w.read[key := View(w.db, row.subject)[row.chunk].page], rulings := t.rulings)
  {
    ShownInView(w.db, row.subject, row.chunk);
    hide View, Shown, PassageOf, WindowIn, MayRead, CleanJudgment, EvidenceCheck;
  }

  lemma ReadersRead(w: World, user: Id, subject: Id)
    ensures MayRead(w, user, subject) <==> Reader(w, user, subject)
  {
  }

  lemma JudgmentsAreClean(w: World, id: Id, retry: int, attempt: int)
    ensures (exists t :: t in w.stages && CleanJudgment(w.stages[t], id, retry, attempt))
            <==> exists t :: t in w.stages && JudgedInTime(w.stages[t], id, retry, attempt)
  {
    forall t | t in w.stages ensures CleanJudgment(w.stages[t], id, retry, attempt) <==> JudgedInTime(w.stages[t], id, retry, attempt) {
    }
    hide CleanJudgment, JudgedInTime;
  }

  lemma ShownInView(db: Db, subject: Id, k: Id)
    ensures k in View(db, subject) <==> Shown(db, subject, k)
    ensures Shown(db, subject, k) ==> k in db.chunks && subject in db.subjects && View(db, subject)[k] == PassageOf(db, k)
  {
  }

  /** A shown chunk has its page, which belongs to the same document. */
  lemma ShownHasPage(db: Db, subject: Id, k: Id)
    requires Inv(db) && Shown(db, subject, k)
    ensures k in db.chunks
    ensures var chunk, p := db.chunks[k], PageKey(db.chunks[k].content, db.chunks[k].pageNumber);
            p in db.pages
            && (db.pages[p].document, db.pages[p].subject, db.pages[p].uploader) == (chunk.document, chunk.subject, chunk.uploader)
  {
    hide SubjectRefs, DocumentRefs, ContentRefs, ChunkPositions, JobRefs, UniqueRevisions, Measures, Counters;
    var chunk, p := db.chunks[k], PageKey(db.chunks[k].content, db.chunks[k].pageNumber);
    assert ChunkRef(db.indexes, db.pages, chunk);
    assert IndexRef(db.spaces, db.contents, db.indexes[chunk.index]);
    assert PageRef(db.contents, p, db.pages[p]);
  }

  lemma WindowShows(text: string, start: int, end: int)
    ensures WindowIn(text, start, end)
            <==> && 0 <= start < end <= |text| && end - start <= 480
                 && exists i :: start <= i < end && text[i] !in {' ', '\t', '\n', '\r'}
  {
    if 0 <= start < end <= |text| {
      var part := text[start..end];
      if i :| start <= i < end && text[i] !in {' ', '\t', '\n', '\r'} {
        assert part[i - start] == text[i];
      }
      if j :| 0 <= j < |part| && part[j] !in {' ', '\t', '\n', '\r'} {
        assert text[start + j] == part[j];
      }
    }
  }

  lemma QuoteIsCited(w: World, target: AskTarget, row: Evidence)
    requires AskInv(w)
    ensures Cited(w, target, row) && WindowIn(PassageOf(w.db, row.chunk).page, row.start, row.end) <==> Quotes(w, target, row)
  {
    hide Inv, JobsAsk, AllEvidenceHolds, Bundled, Shown, View, WindowIn;
    ShownInView(w.db, row.subject, row.chunk);
    if Shown(w.db, row.subject, row.chunk) {
      ShownHasPage(w.db, row.subject, row.chunk);
      WindowShows(PassageOf(w.db, row.chunk).page, row.start, row.end);
    }
  }
}
