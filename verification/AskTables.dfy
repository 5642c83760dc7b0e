/**
 * Ask jobs, their provider stages and their evidence, at the current answer policy.
 *
 * Every job here carries the current policy, so the columns that only distinguish policies are gone:
 * a stage always names its parent's policy, and no job has an answer message.
 */
module AskTables {
  import opened Prelude
  import opened KnowledgeTables

  datatype Question = Question(thread: Id, user: Id, subject: Id, fromUser: bool, expiresAt: int)

  datatype AskStatus = AskQueued | AskRunning | AskCompleted | AskFailed | AskCancelled

  datatype ResultKind = RelatedKnowledge | NoMatch | ClarificationNeeded

  /** What a job asks about and under which snapshot; never rewritten. */
  datatype AskTarget = AskTarget(
    thread: Id,
    question: Id,
    user: Id,
    subject: Id,
    operationKey: Hash,
    fingerprint: Hash,
    documents: set<Id>,
    corpusRevision: int,
    space: Hash,
    profile: Profile,
    maxAttempts: int,
    createdAt: int)

  datatype AskJob = AskJob(
    target: AskTarget,
    session: Id,
    status: AskStatus,
    attempts: int,
    retries: int,
    availableAt: int,
    deadlineAt: int,
    worker: Option<string>,
    claimToken: Option<Hash>,
    heartbeatAt: Option<int>,
    leaseExpiresAt: Option<int>,
    retrievalCompletedAt: Option<int>,
    completedAt: Option<int>,
    result: Option<ResultKind>,
    error: Option<string>,
    errorRetryable: bool)
  {
    predicate Finished() {
      status == AskCompleted || status == AskFailed || status == AskCancelled
    }
  }

  predicate AskJobCheck(row: AskJob) {
    && row.target.corpusRevision >= 0
    && |row.target.documents| <= 50
    && 0 <= row.attempts <= row.target.maxAttempts
    && 1 <= row.target.maxAttempts <= 10
    && 0 <= row.retries <= 10
    && (row.status == AskRunning ==>
          && row.worker.Some? && 1 <= |TrimSpaces(row.worker.value)| <= 128
          && row.claimToken.Some?
          && row.attempts >= 1
          && row.heartbeatAt.Some? && row.leaseExpiresAt.Some?
          && row.heartbeatAt.value <= row.leaseExpiresAt.value <= row.deadlineAt)
    && (row.Finished() <==> row.completedAt.Some?)
    && (row.status == AskCompleted <==> row.result.Some?)
    && (row.status == AskFailed || row.status == AskCancelled <==> row.error.Some?)
    && (row.errorRetryable ==> row.status == AskFailed)
    && row.availableAt <= row.deadlineAt
    && row.target.createdAt <= row.deadlineAt
  }

  datatype StageKind = QueryEmbedding | Retrieval | SourceJudgment

  datatype Stage = Stage(
    job: Id,
    retry: int,
    attempt: int,
    kind: StageKind,
    completedAt: Option<int>,
    requests: int,
    requestRetries: int,
    errorCategory: Option<string>,
    failureReason: Option<string>,
    uncertain: bool)

  predicate StageCheck(row: Stage) {
    && 0 <= row.retry <= 10
    && 1 <= row.attempt <= 10
    && row.requests >= 0
    && row.requestRetries == 0
    && row.requests <= (if row.kind == Retrieval then 0 else 1)
  }

  /** A judgment that is finished, was asked once, and whose outcome is known. */
  predicate CleanJudgment(row: Stage, job: Id, retry: int, attempt: int) {
    && row.job == job && row.retry == retry && row.attempt == attempt
    && row.kind == SourceJudgment
    && row.completedAt.Some?
    && row.requests == 1 && row.requestRetries == 0
    && row.errorCategory.None? && row.failureReason.None?
    && !row.uncertain
  }

  datatype EvidenceKey = EvidenceKey(job: Id, order: int)

  datatype SourceKind = ChunkText | CanonicalPage

  datatype Evidence = Evidence(
    bundle: int,
    thread: Id,
    user: Id,
    subject: Id,
    chunk: Id,
    document: Id,
    content: Id,
    index: Id,
    source: SourceKind,
    start: int,
    end: int,
    retry: int,
    createdAt: int,
    expiresAt: int)

  const EXCERPT_CHARS := 480

  predicate EvidenceCheck(key: EvidenceKey, row: Evidence) {
    && 1 <= key.order <= row.bundle <= 3
    && 0 <= row.start < row.end <= row.start + EXCERPT_CHARS
    && 0 <= row.retry <= 10
    && row.expiresAt > row.createdAt
  }

  /** SQL `btrim` of these four characters leaves nothing. */
  predicate Blank(s: string) {
    forall i | 0 <= i < |s| :: s[i] == ' ' || s[i] == '\t' || s[i] == '\n' || s[i] == '\r'
  }

  /** The window lies inside the text, is short enough and shows something. */
  predicate WindowIn(text: string, start: int, end: int) {
    0 <= start < end <= |text| && end - start <= EXCERPT_CHARS && !Blank(text[start..end])
  }

  /** Evidence of this job and epoch was admitted on this judgment stage. */
  datatype Ruling = Ruling(job: Id, retry: int, stage: Id)

  /**
   * The corpus with the Ask tables beside it. Two fields are history variables, not tables: `read`, the text
   * each evidence row was checked against when it was admitted, and `rulings`, the judgments that evidence
   * was ever admitted on.
   */
  datatype World = World(
    db: Db,
    students: set<Id>,
    enrollments: set<(Id, Id)>,
    questions: map<Id, Question>,
    jobs: map<Id, AskJob>,
    stages: map<Id, Stage>,
    evidence: map<EvidenceKey, Evidence>,
    read: map<EvidenceKey, string>,
    rulings: set<Ruling>)

  const EMPTY_WORLD := World(EMPTY_DB, {}, {}, map[], map[], map[], map[], map[], {})
}

/** What each statement on the Ask tables does when it is admitted, and when it is refused (`None`). */
module AskStatements {
  import opened Prelude
  import opened KnowledgeTables
  import opened KnowledgeStatements
  import opened VersionStamp
  import opened AskTables

  // Cascades

  /** Rows whose parents are gone go too: questions, jobs, stages, evidence. */
  function Cascade(w: World): World {
    var questions := map q | q in w.questions && w.questions[q].subject in w.db.subjects :: w.questions[q];
    var jobs := map j | j in w.jobs && w.jobs[j].target.question in questions :: w.jobs[j];
    w.(
      questions := questions,
      jobs := jobs,
      stages := map t | t in w.stages && w.stages[t].job in jobs :: w.stages[t],
      evidence := map k | k in w.evidence && k.job in jobs && w.evidence[k].chunk in w.db.chunks :: w.evidence[k])
  }

  // Questions

  function InsertQuestion(w: World, id: Id, row: Question): Option<World> {
    if !(id !in w.questions && row.subject in w.db.subjects) then None else
    Some(w.(questions := w.questions[id := row]))
  }

  function UpdateQuestion(w: World, id: Id, row: Question): Option<World> {
    if id !in w.questions then None else
    var old_ := w.questions[id];
    :- Need((row.thread, row.user, row.subject) == (old_.thread, old_.user, old_.subject));
    Some(w.(questions := w.questions[id := row]))
  }

  // Jobs: rag_answer_job_guard

  predicate AskTransition(from: AskStatus, to: AskStatus) {
    || (from == AskQueued && (to == AskRunning || to == AskFailed || to == AskCancelled))
    || (from == AskRunning && (to == AskQueued || to == AskCompleted || to == AskFailed || to == AskCancelled))
    || (from == AskFailed && to == AskQueued)
  }

  predicate ManualRetry(old_: AskJob, row: AskJob) {
    old_.status == AskFailed && row.status == AskQueued
  }

  predicate AskJobGuard(old_: AskJob, row: AskJob) {
    && (old_.status == AskCompleted || old_.status == AskCancelled ==> row == old_)
    && (row.status == old_.status || AskTransition(old_.status, row.status))
    && (row.attempts == old_.attempts
        || (old_.status == AskQueued && row.status == AskRunning && row.attempts == old_.attempts + 1)
        || (ManualRetry(old_, row) && row.attempts == 0))
    && (old_.status == AskRunning && row.status == AskRunning ==> (row.worker, row.claimToken) == (old_.worker, old_.claimToken))
    && row.target == old_.target
    && (row.session == old_.session || ManualRetry(old_, row))
    && row.retries == old_.retries + (if ManualRetry(old_, row) then 1 else 0)
  }

  function Orders(evidence: map<EvidenceKey, Evidence>, job: Id): set<int> {
    set k | k in evidence && k.job == job :: k.order
  }

  predicate Current(db: Db, target: AskTarget) {
    && target.subject in db.subjects
    && db.subjects[target.subject].corpusRevision == target.corpusRevision
    && db.subjects[target.subject].activeSpace == Some(target.space)
  }

  /** Clarification is refused once a provider stage exists, unless this very attempt has a clean judgment. */
  predicate MayClarify(w: World, id: Id, row: AskJob) {
    || (forall t | t in w.stages :: w.stages[t].job != id || w.stages[t].kind == Retrieval)
    || (exists t | t in w.stages :: CleanJudgment(w.stages[t], id, row.retries, row.attempts))
  }

  predicate CompletionGuard(w: World, id: Id, row: AskJob) {
    && Current(w.db, row.target)
    && row.result.Some?
    && var orders := Orders(w.evidence, id);
    && match row.result.value
       case RelatedKnowledge =>
         1 <= |orders| <= 3 && 1 in orders && |orders| in orders && forall o | o in orders :: 1 <= o <= |orders|
       case NoMatch => orders == {}
       case ClarificationNeeded => orders == {} && MayClarify(w, id, row)
  }

  predicate UniqueAskJob(jobs: map<Id, AskJob>, id: Id, row: AskJob) {
    forall j | j in jobs && j != id ::
      && jobs[j].target.question != row.target.question
      && (jobs[j].target.user, jobs[j].target.operationKey) != (row.target.user, row.target.operationKey)
  }

  function InsertAskJob(w: World, id: Id, row: AskJob): Option<World> {
    if !(id !in w.jobs && AskJobCheck(row) && UniqueAskJob(w.jobs, id, row)) then None else
    :- Need(row.target.question in w.questions);
    var question := w.questions[row.target.question];
    :- Need((row.target.thread, row.target.user, row.target.subject) == (question.thread, question.user, question.subject));
    :- Need(question.fromUser && row.status == AskQueued && row.attempts == 0);
    :- Need(row.worker.None? && row.claimToken.None?);
    Some(w.(jobs := w.jobs[id := row]))
  }

  function UpdateAskJob(w: World, id: Id, row: AskJob): Option<World> {
    if !(id in w.jobs && AskJobGuard(w.jobs[id], row) && AskJobCheck(row)) then None else
    :- Need(row.status == AskCompleted ==> CompletionGuard(w, id, row));
    Some(w.(jobs := w.jobs[id := row]))
  }

  // Stages: enforce_rag_source_stage_parent_policy, the stage cap and the two unique indexes

  predicate UniqueStage(stages: map<Id, Stage>, id: Id, row: Stage) {
    forall t | t in stages && t != id && stages[t].job == row.job && stages[t].retry == row.retry && stages[t].kind == row.kind ::
      row.kind == Retrieval && stages[t].attempt != row.attempt
  }

  predicate StageGuard(w: World, id: Id, row: Stage) {
    && StageCheck(row) && row.job in w.jobs
    && row.retry == w.jobs[row.job].retries && row.attempt == w.jobs[row.job].attempts
    && UniqueStage(w.stages, id, row)
  }

  function InsertStage(w: World, id: Id, row: Stage): Option<World> {
    if !(id !in w.stages && StageGuard(w, id, row)) then None else
    Some(w.(stages := w.stages[id := row]))
  }

  function UpdateStage(w: World, id: Id, row: Stage): Option<World> {
    if !(id in w.stages && StageGuard(w, id, row)) then None else
    Some(w.(stages := w.stages[id := row]))
  }

  // Evidence: rag_related_evidence_guard

  predicate MayRead(w: World, user: Id, subject: Id) {
    && subject in w.db.subjects
    && ((user in w.db.instructors && w.db.subjects[subject].instructor == user)
        || (user in w.students && (user, subject) in w.enrollments))
  }

  predicate Judged(w: World, job: Id, retry: int) {
    job in w.jobs && exists t | t in w.stages :: CleanJudgment(w.stages[t], job, retry, w.jobs[job].attempts)
  }

  /** The eligible chunk the row names, in the job's revision and space, with its canonical page. */
  predicate Cited(w: World, target: AskTarget, row: Evidence) {
    && Shown(w.db, row.subject, row.chunk)
    && var chunk := w.db.chunks[row.chunk];
    && (chunk.index, chunk.content, chunk.document) == (row.index, row.content, row.document)
    && w.db.subjects[row.subject].corpusRevision == target.corpusRevision
    && chunk.space == target.space
    && var p := PageKey(chunk.content, chunk.pageNumber);
    && p in w.db.pages
    && (w.db.pages[p].document, w.db.pages[p].subject, w.db.pages[p].uploader) == (chunk.document, chunk.subject, chunk.uploader)
  }

  predicate EvidenceGuard(w: World, key: EvidenceKey, row: Evidence, now: int) {
    && key.job in w.jobs
    && var job := w.jobs[key.job];
    && (row.thread, row.user, row.subject) == (job.target.thread, job.target.user, job.target.subject)
    && job.status == AskRunning && job.retries == row.retry && job.retrievalCompletedAt.Some?
    && job.leaseExpiresAt.Some? && job.leaseExpiresAt.value > now
    && (forall k | k in w.evidence && k.job == key.job :: w.evidence[k].bundle == row.bundle && w.evidence[k].retry == row.retry)
    && (forall k | k in w.evidence && k.job == key.job :: w.evidence[k].chunk != row.chunk)
    && (job.target.documents == {} || row.document in job.target.documents)
    && job.target.question in w.questions
    && w.questions[job.target.question].expiresAt > now && row.expiresAt <= w.questions[job.target.question].expiresAt
    && row.source == CanonicalPage && Judged(w, key.job, row.retry)
    && Cited(w, job.target, row)
    && MayRead(w, job.target.user, row.subject)
    && WindowIn(PassageOf(w.db, row.chunk).page, row.start, row.end)
  }

  ghost function InsertEvidence(w: World, key: EvidenceKey, row: Evidence, now: int): Option<World> {
    if !(key !in w.evidence && EvidenceCheck(key, row) && EvidenceGuard(w, key, row, now)) then None else
    var t :| t in w.stages && CleanJudgment(w.stages[t], key.job, row.retry, w.jobs[key.job].attempts);
    Some(w.(
      evidence := w.evidence[key := row],
      read := w.read[key := PassageOf(w.db, row.chunk).page],
      rulings := w.rulings + {Ruling(key.job, row.retry, t)}))
  }

  // Steps and runs

  datatype Step =
    | Corpus(q: Statement)
    | SetReaders(students: set<Id>, enrollments: set<(Id, Id)>)
    | AddQuestion(id: Id, question: Question)
    | EditQuestion(id: Id, question: Question)
    | DropQuestion(id: Id)
    | AddAskJob(id: Id, job: AskJob)
    | EditAskJob(id: Id, job: AskJob)
    | DropAskJob(id: Id)
    | AddStage(id: Id, stage: Stage)
    | EditStage(id: Id, stage: Stage)
    | DropStage(id: Id)
    | AddEvidence(key: EvidenceKey, row: Evidence, now: int)
    | EditEvidence(key: EvidenceKey, row: Evidence)
    | DropEvidence(key: EvidenceKey)

  ghost function Offer(w: World, step: Step): Option<World> {
    match step
    case Corpus(q) =>
      var db :- Attempt(w.db, q);
      Some(Cascade(w.(db := db)))
    case SetReaders(students, enrollments) => Some(w.(students := students, enrollments := enrollments))
    case AddQuestion(id, row) => InsertQuestion(w, id, row)
    case EditQuestion(id, row) => UpdateQuestion(w, id, row)
    case DropQuestion(id) => Some(Cascade(w.(questions := w.questions - {id})))
    case AddAskJob(id, row) => InsertAskJob(w, id, row)
    case EditAskJob(id, row) => UpdateAskJob(w, id, row)
    case DropAskJob(id) => Some(Cascade(w.(jobs := w.jobs - {id})))
    case AddStage(id, row) => InsertStage(w, id, row)
    case EditStage(id, row) => UpdateStage(w, id, row)
    case DropStage(id) => Some(w.(stages := w.stages - {id}))
    case AddEvidence(key, row, now) => InsertEvidence(w, key, row, now)
    case EditEvidence(key, row) => None
    case DropEvidence(key) => Some(w.(evidence := w.evidence - {key}))
  }

  ghost function Take(w: World, step: Step): World {
    var r := Offer(w, step);
    if r.Some? then r.value else w
  }

  ghost function Reach(w: World, steps: seq<Step>): World {
    if steps == [] then w else Take(Reach(w, steps[..|steps| - 1]), steps[|steps| - 1])
  }
}
