/**
 * What each Knowledge statement does when the database admits it, and when it is refused (`None`).
 *
 * A statement is one row change together with everything its triggers and cascades do. Refused
 * statements change nothing. Each function names the triggers it stands for; KnowledgeStore holds
 * the triggers themselves, as methods that change tables in place, proved against these functions.
 */
module KnowledgeStatements {
  import opened Prelude
  import opened MapSums
  import opened KnowledgeTables

  // Charges

  /** The rows a sum ranges over: all of them, or those of one Subject, uploader or document. */
  datatype Slice = Everything | SubjectSlice(subject: Id) | UploaderSlice(uploader: Id) | DocumentSlice(document: Id) {
    predicate Covers(document: Id, subject: Id, uploader: Id) {
      match this
      case Everything => true
      case SubjectSlice(x) => x == subject
      case UploaderSlice(x) => x == uploader
      case DocumentSlice(x) => x == document
    }
  }

  ghost function ContentCharges(contents: map<Id, Content>, slice: Slice): map<Id, int> {
    map c | c in contents && slice.Covers(contents[c].document, contents[c].subject, contents[c].uploader)
      :: contents[c].reservedBytes
  }

  ghost function IndexCharges(indexes: map<Id, Index>, slice: Slice): map<Id, int> {
    map x | x in indexes && slice.Covers(indexes[x].document, indexes[x].subject, indexes[x].uploader)
      :: indexes[x].reservedBytes
  }

  /** Reserved page bytes and reserved index bytes in a slice. */
  ghost function Charged(contents: map<Id, Content>, indexes: map<Id, Index>, slice: Slice): int {
    Total(ContentCharges(contents, slice)) + Total(IndexCharges(indexes, slice))
  }

  // Storage counters: knowledge_adjust_usage

  function Lookup(usage: map<Scope, Usage>, scope: Scope): Usage {
    if scope in usage then usage[scope] else Usage(0, 0)
  }

  function AdjustScope(usage: map<Scope, Usage>, scope: Scope, documents: int, bytes: int): Option<map<Scope, Usage>> {
    var row := Usage(Lookup(usage, scope).documents + documents, Lookup(usage, scope).bytes + bytes);
    :- Need(UsageCheck(scope, row));
    Some(if scope != Global && row == Usage(0, 0) then usage - {scope} else usage[scope := row])
  }

  function AdjustScopes(usage: map<Scope, Usage>, scopes: seq<Scope>, documents: int, bytes: int): Option<map<Scope, Usage>>
    decreases |scopes|
  {
    if scopes == [] then Some(usage) else
      var next :- AdjustScope(usage, scopes[0], documents, bytes);
      AdjustScopes(next, scopes[1..], documents, bytes)
  }

  function AdjustUsage(usage: map<Scope, Usage>, subject: Id, uploader: Id, documents: int, bytes: int)
    : Option<map<Scope, Usage>>
  {
    AdjustScopes(usage, [Global, OfSubject(subject), OfUploader(uploader)], documents, bytes)
  }

  // The corpus stamp: knowledge_bump_corpus and knowledge_subject_guard

  function Bump(subjects: map<Id, Subject>, subject: Id, times: nat): map<Id, Subject> {
    if subject in subjects && times > 0
    then subjects[subject := subjects[subject].(corpusRevision := subjects[subject].corpusRevision + times)]
    else subjects
  }

  /** The five columns whose change may touch the corpus. */
  predicate SamePublication(old_: Content, new_: Content) {
    && new_.status == old_.status && new_.isActive == old_.isActive && new_.reviewedAt == old_.reviewedAt
    && new_.reviewedBy == old_.reviewedBy && new_.publishedAt == old_.publishedAt
  }

  function ContentBump(old_: Content, new_: Content): nat {
    if !SamePublication(old_, new_) && (old_.Live() || new_.Live()) then 1 else 0
  }

  /** An index matters to the corpus when its content is live and the Subject serves its space. */
  predicate Exposed(subjects: map<Id, Subject>, contents: map<Id, Content>, x: Index) {
    && x.content in contents && contents[x.content].Live()
    && contents[x.content].subject in subjects
    && subjects[contents[x.content].subject].activeSpace == Some(x.space)
  }

  function IndexBump(s: Db, old_: Index, new_: Index): nat {
    if !(old_.status == new_.status && old_.isActive == new_.isActive)
       && Exposed(s.subjects, s.contents, new_) && (old_.Serving() || new_.Serving()) then 1 else 0
  }

  // Spaces and Subjects

  function SpaceKnown(spaces: map<Hash, Profile>, space: Option<Hash>): bool {
    space.Some? ==> space.value in spaces
  }

  function InsertSpace(s: Db, hash: Hash, profile: Profile): Option<Db> {
    if !(hash !in s.spaces && |s.spaces| < SPACE_CAPACITY) then None else
    Some(s.(spaces := s.spaces[hash := profile]))
  }

  function DeleteSpace(s: Db, hash: Hash): Option<Db> {
    if !(forall k | k in s.subjects :: s.subjects[k].activeSpace != Some(hash) && s.subjects[k].stagedSpace != Some(hash)) then None else
    :- Need(forall x | x in s.indexes :: s.indexes[x].space != hash);
    Some(s.(spaces := s.spaces - {hash}))
  }

  function InsertSubject(s: Db, id: Id, row: Subject): Option<Db> {
    if !(id !in s.subjects && SubjectCheck(row)) then None else
    :- Need(SpaceKnown(s.spaces, row.activeSpace) && SpaceKnown(s.spaces, row.stagedSpace));
    Some(s.(subjects := s.subjects[id := row]))
  }

  /** knowledge_subject_guard: the stamp never falls, and changing a space moves it. */
  function StampedSubject(old_: Subject, row: Subject): Subject {
    if (row.activeSpace, row.stagedSpace) != (old_.activeSpace, old_.stagedSpace)
    then row.(corpusRevision := Max(row.corpusRevision, old_.corpusRevision + 1))
    else row
  }

  function UpdateSubject(s: Db, id: Id, row: Subject): Option<Db> {
    if !(id in s.subjects && row.corpusRevision >= s.subjects[id].corpusRevision) then None else
    var next := StampedSubject(s.subjects[id], row);
    :- Need(SubjectCheck(next));
    :- Need(SpaceKnown(s.spaces, row.activeSpace) && SpaceKnown(s.spaces, row.stagedSpace));
    :- Need(row.instructor == s.subjects[id].instructor || forall d | d in s.documents :: s.documents[d].subject != id);
    Some(s.(subjects := s.subjects[id := next]))
  }

  /** The cascade visits the Subject's documents one by one, in some order. */
  ghost function DeleteSubject(s: Db, id: Id, order: seq<Id>): Option<Db> {
    if id !in s.subjects then None else
    :- Need(forall d :: d in order <==> d in s.documents && s.documents[d].subject == id);
    var rest :- DeleteDocuments(s, order);
    Some(rest.(subjects := rest.subjects - {id}))
  }

  ghost function DeleteDocuments(s: Db, order: seq<Id>): Option<Db>
    decreases |order|
  {
    if order == [] then Some(s) else
      var next :- DeleteDocument(s, order[0]);
      DeleteDocuments(next, order[1..])
  }

  // Documents: knowledge_document_guard

  function InsertDocument(s: Db, id: Id, row: Document): Option<Db> {
    if !(id !in s.documents && DocumentCheck(row)) then None else
    :- Need(row.uploader in s.instructors);
    :- Need(row.subject in s.subjects && s.subjects[row.subject].instructor == row.uploader);
    var usage :- AdjustUsage(s.usage, row.subject, row.uploader, 1, 0);
    Some(s.(documents := s.documents[id := row], usage := usage))
  }

  function UpdateDocument(s: Db, id: Id, row: Document): Option<Db> {
    if !(id in s.documents && DocumentCheck(row)) then None else
    var old_ := s.documents[id];
    :- Need((row.subject, row.uploader, row.sourceHash, row.createdAt)
            == (old_.subject, old_.uploader, old_.sourceHash, old_.createdAt));
    Some(s.(documents := s.documents[id := row]))
  }

  function LiveContents(contents: map<Id, Content>, document: Id): set<Id> {
    set c | c in contents && contents[c].document == document && contents[c].Live()
  }

  ghost function DeleteDocument(s: Db, id: Id): Option<Db> {
    if id !in s.documents then None else
    var d := s.documents[id];
    var usage :- AdjustUsage(s.usage, d.subject, d.uploader, -1, -Charged(s.contents, s.indexes, DocumentSlice(id)));
    Some(s.(
      usage := usage,
      documents := s.documents - {id},
      contents := map c | c in s.contents && s.contents[c].document != id :: s.contents[c],
      pages := map p | p in s.pages && s.pages[p].document != id :: s.pages[p],
      indexes := map x | x in s.indexes && s.indexes[x].document != id :: s.indexes[x],
      chunks := map k | k in s.chunks && s.chunks[k].document != id :: s.chunks[k],
      jobs := map j | j in s.jobs && s.jobs[j].document != id :: s.jobs[j],
      subjects := Bump(s.subjects, d.subject, |LiveContents(s.contents, id)|)))
  }

  // Content revisions: knowledge_revision_guard, first branch

  predicate ContentTransition(from: ContentStatus, to: ContentStatus) {
    || (from == Processing && (to == PendingIndex || to == ExtractionFailed || to == ContentCancelled))
    || (from == PendingIndex && (to == ContentReady || to == ContentCancelled))
  }

  predicate UniqueContent(contents: map<Id, Content>, id: Id, row: Content) {
    forall c | c in contents && c != id && contents[c].document == row.document ::
      contents[c].revisionNo != row.revisionNo && !(contents[c].isActive && row.isActive)
  }

  function ContentsOf(contents: map<Id, Content>, document: Id): set<Id> {
    set c | c in contents && contents[c].document == document
  }

  predicate HasReadyIndex(indexes: map<Id, Index>, content: Id) {
    exists x | x in indexes :: indexes[x].content == content && indexes[x].status == IndexReady
  }

  ghost function InsertContent(s: Db, id: Id, row: Content): Option<Db> {
    if !(id !in s.contents && row.document in s.documents) then None else
    var d := s.documents[row.document];
    :- Need(row.subject == d.subject && row.uploader == d.uploader);
    :- Need(row.status == Processing && !row.isActive && row.actualPages == 0 && row.actualChars == 0 && row.actualBytes == 0);
    :- Need(row.reviewedAt.None? && row.reviewedBy.None? && row.publishedAt.None? && row.error.None?);
    :- Need(|ContentsOf(s.contents, row.document)| < CONTENT_REVISIONS);
    :- Need(Charged(s.contents, s.indexes, DocumentSlice(row.document)) + row.reservedBytes <= DOCUMENT_BYTES);
    var usage :- AdjustUsage(s.usage, d.subject, d.uploader, 0, row.reservedBytes);
    :- Need(ContentCheck(row) && UniqueContent(s.contents, id, row));
    Some(s.(usage := usage, contents := s.contents[id := row]))
  }

  predicate SameContentIdentity(old_: Content, row: Content) {
    && (row.document, row.subject, row.uploader, row.revisionNo, row.createdAt)
       == (old_.document, old_.subject, old_.uploader, old_.revisionNo, old_.createdAt)
    && (row.sourceHash, row.extractionVersion) == (old_.sourceHash, old_.extractionVersion)
  }

  predicate SameMeasures(old_: Content, row: Content) {
    (row.actualPages, row.actualChars, row.actualBytes) == (old_.actualPages, old_.actualChars, old_.actualBytes)
  }

  /** `nested` is true for the update a page trigger issues; only that one may move the measured columns. */
  ghost function UpdateContent(s: Db, id: Id, row: Content, nested: bool): Option<Db> {
    if !(id in s.contents && s.contents[id].document in s.documents) then None else
    var old_ := s.contents[id];
    var d := s.documents[old_.document];
    :- Need(SameContentIdentity(old_, row));
    :- Need(row.status == old_.status || ContentTransition(old_.status, row.status));
    :- Need(nested || SameMeasures(old_, row));
    :- Need(row.status == PendingIndex || row.status == ContentReady ==> row.Complete());
    :- Need(row.status == ContentReady ==> HasReadyIndex(s.indexes, id));
    var delta := row.reservedBytes - old_.reservedBytes;
    :- Need(Charged(s.contents, s.indexes, DocumentSlice(old_.document)) + delta <= DOCUMENT_BYTES);
    var usage :- AdjustUsage(s.usage, d.subject, d.uploader, 0, delta);
    :- Need(ContentCheck(row) && UniqueContent(s.contents, id, row));
    Some(s.(
      usage := usage,
      contents := s.contents[id := row],
      subjects := Bump(s.subjects, row.subject, ContentBump(old_, row))))
  }

  function IndexesOfContent(indexes: map<Id, Index>, content: Id): map<Id, int> {
    map x | x in indexes && indexes[x].content == content :: indexes[x].reservedBytes
  }

  ghost function DeleteContent(s: Db, id: Id): Option<Db> {
    if !(id in s.contents && s.contents[id].document in s.documents) then None else
    var old_ := s.contents[id];
    var d := s.documents[old_.document];
    var usage :- AdjustUsage(s.usage, d.subject, d.uploader, 0, -(old_.reservedBytes + Total(IndexesOfContent(s.indexes, id))));
    Some(s.(
      usage := usage,
      contents := s.contents - {id},
      pages := map p | p in s.pages && p.content != id :: s.pages[p],
      indexes := map x | x in s.indexes && s.indexes[x].content != id :: s.indexes[x],
      chunks := map k | k in s.chunks && s.chunks[k].content != id :: s.chunks[k],
      jobs := map j | j in s.jobs && s.jobs[j].content != id :: s.jobs[j],
      subjects := Bump(s.subjects, old_.subject, if old_.Live() then 1 else 0)))
  }

  // Pages: knowledge_page_guard

  function Measured(row: Content, pages: int, chars: int, bytes: int): Content {
    row.(actualPages := row.actualPages + pages, actualChars := row.actualChars + chars, actualBytes := row.actualBytes + bytes)
  }

  function InsertPage(s: Db, key: PageKey, row: Page): Option<Db> {
    if !(key !in s.pages && PageCheck(key, row) && key.content in s.contents) then None else
    var parent := s.contents[key.content];
    :- Need((row.document, row.subject, row.uploader) == (parent.document, parent.subject, parent.uploader));
    :- Need(parent.status == Processing && key.number <= parent.reservedPages);
    var next := Measured(parent, 1, |row.text|, Utf8Length(row.text));
    :- Need(ContentCheck(next));
    Some(s.(pages := s.pages[key := row], contents := s.contents[key.content := next]))
  }

  function UpdatePage(s: Db, key: PageKey, row: Page): Option<Db> {
    if !(key in s.pages && PageCheck(key, row) && key.content in s.contents) then None else
    var parent, old_ := s.contents[key.content], s.pages[key];
    :- Need((row.document, row.subject, row.uploader) == (old_.document, old_.subject, old_.uploader));
    :- Need(parent.status == Processing && key.number <= parent.reservedPages);
    var next := Measured(parent, 0, |row.text| - |old_.text|, Utf8Length(row.text) - Utf8Length(old_.text));
    :- Need(ContentCheck(next));
    Some(s.(pages := s.pages[key := row], contents := s.contents[key.content := next]))
  }

  function DeletePage(s: Db, key: PageKey): Option<Db> {
    if !(key in s.pages && key.content in s.contents) then None else
    var parent, old_ := s.contents[key.content], s.pages[key];
    :- Need(parent.status == Processing);
    var next := Measured(parent, -1, 0 - |old_.text|, 0 - Utf8Length(old_.text));
    :- Need(ContentCheck(next));
    Some(s.(pages := s.pages - {key}, contents := s.contents[key.content := next]))
  }

  // Index revisions: knowledge_revision_guard, second branch

  predicate IndexTransition(from: IndexStatus, to: IndexStatus) {
    || (from == Staged && (to == Indexing || to == IndexReady || to == IndexFailed || to == IndexCancelled))
    || (from == Indexing && (to == IndexReady || to == IndexFailed || to == IndexCancelled))
  }

  predicate UniqueIndex(indexes: map<Id, Index>, id: Id, row: Index) {
    forall x | x in indexes && x != id && indexes[x].content == row.content ::
      indexes[x].revisionNo != row.revisionNo && !(indexes[x].isActive && row.isActive)
  }

  function IndexesOf(indexes: map<Id, Index>, document: Id): set<Id> {
    set x | x in indexes && indexes[x].document == document
  }

  ghost function InsertIndex(s: Db, id: Id, row: Index): Option<Db> {
    if !(id !in s.indexes && row.document in s.documents && row.content in s.contents) then None else
    var d, c := s.documents[row.document], s.contents[row.content];
    :- Need((row.document, row.subject, row.uploader) == (c.document, c.subject, c.uploader));
    :- Need(row.status == Staged && !row.isActive && row.actualChunks == 0 && row.actualEmbedded == 0 && row.actualBytes == 0
            && row.error.None?);
    :- Need(row.space in s.spaces && s.spaces[row.space] == row.profile);
    :- Need(c.status == PendingIndex || c.status == ContentReady);
    :- Need(|IndexesOf(s.indexes, row.document)| < INDEX_REVISIONS);
    :- Need(Charged(s.contents, s.indexes, DocumentSlice(row.document)) + row.reservedBytes <= DOCUMENT_BYTES);
    var usage :- AdjustUsage(s.usage, d.subject, d.uploader, 0, row.reservedBytes);
    :- Need(IndexCheck(row) && UniqueIndex(s.indexes, id, row));
    Some(s.(usage := usage, indexes := s.indexes[id := row]))
  }

  predicate SameIndexIdentity(old_: Index, row: Index) {
    && (row.document, row.subject, row.uploader, row.revisionNo, row.createdAt)
       == (old_.document, old_.subject, old_.uploader, old_.revisionNo, old_.createdAt)
    && (row.content, row.chunkerVersion, row.profile, row.space)
       == (old_.content, old_.chunkerVersion, old_.profile, old_.space)
  }

  ghost function UpdateIndex(s: Db, id: Id, row: Index, nested: bool): Option<Db> {
    if !(id in s.indexes && s.indexes[id].document in s.documents) then None else
    var old_ := s.indexes[id];
    var d := s.documents[old_.document];
    :- Need(SameIndexIdentity(old_, row));
    :- Need(row.status == old_.status || IndexTransition(old_.status, row.status));
    :- Need(row.space in s.spaces && s.spaces[row.space] == row.profile);
    :- Need(nested || (row.actualChunks, row.actualEmbedded, row.actualBytes)
                      == (old_.actualChunks, old_.actualEmbedded, old_.actualBytes));
    var delta := row.reservedBytes - old_.reservedBytes;
    :- Need(Charged(s.contents, s.indexes, DocumentSlice(old_.document)) + delta <= DOCUMENT_BYTES);
    var usage :- AdjustUsage(s.usage, d.subject, d.uploader, 0, delta);
    :- Need(IndexCheck(row) && UniqueIndex(s.indexes, id, row));
    Some(s.(
      usage := usage,
      indexes := s.indexes[id := row],
      subjects := Bump(s.subjects, row.subject, IndexBump(s, old_, row))))
  }

  ghost function DeleteIndex(s: Db, id: Id): Option<Db> {
    if !(id in s.indexes && s.indexes[id].document in s.documents) then None else
    var old_ := s.indexes[id];
    var d := s.documents[old_.document];
    var usage :- AdjustUsage(s.usage, d.subject, d.uploader, 0, -old_.reservedBytes);
    Some(s.(
      usage := usage,
      indexes := s.indexes - {id},
      chunks := map k | k in s.chunks && s.chunks[k].index != id :: s.chunks[k],
      jobs := map j | j in s.jobs && s.jobs[j].index != id :: s.jobs[j],
      subjects := Bump(s.subjects, old_.subject, if Exposed(s.subjects, s.contents, old_) && old_.Serving() then 1 else 0)))
  }

  // Chunks: knowledge_chunk_guard

  function Filled(row: Index, chunks: int, embedded: int, bytes: int): Index {
    row.(actualChunks := row.actualChunks + chunks, actualEmbedded := row.actualEmbedded + embedded,
         actualBytes := row.actualBytes + bytes)
  }

  function InsertChunk(s: Db, id: Id, row: Chunk): Option<Db> {
    if !(id !in s.chunks && ChunkCheck(row) && row.index in s.indexes) then None else
    var parent := s.indexes[row.index];
    :- Need((row.content, row.document, row.subject, row.uploader, row.space)
            == (parent.content, parent.document, parent.subject, parent.uploader, parent.space));
    :- Need(PageKey(row.content, row.pageNumber) in s.pages);
    :- Need(forall k | k in s.chunks && s.chunks[k].index == row.index :: s.chunks[k].position != row.position);
    :- Need(parent.Open() && row.position < parent.reservedChunks);
    var next := Filled(parent, 1, Embedded(row), ChunkBytes(row));
    :- Need(IndexCheck(next));
    Some(s.(chunks := s.chunks[id := row], indexes := s.indexes[row.index := next]))
  }

  function UpdateChunk(s: Db, id: Id, row: Chunk): Option<Db> {
    if !(id in s.chunks && ChunkCheck(row) && s.chunks[id].index in s.indexes) then None else
    var old_ := s.chunks[id];
    var parent := s.indexes[old_.index];
    :- Need((row.index, row.content, row.document, row.subject, row.uploader, row.position, row.pageNumber, row.space)
            == (old_.index, old_.content, old_.document, old_.subject, old_.uploader, old_.position, old_.pageNumber, old_.space));
    :- Need(parent.Open() && row.position < parent.reservedChunks);
    var next := Filled(parent, 0, Embedded(row) - Embedded(old_), ChunkBytes(row) - ChunkBytes(old_));
    :- Need(IndexCheck(next));
    Some(s.(chunks := s.chunks[id := row], indexes := s.indexes[row.index := next]))
  }

  function DeleteChunk(s: Db, id: Id): Option<Db> {
    if !(id in s.chunks && s.chunks[id].index in s.indexes) then None else
    var old_ := s.chunks[id];
    var parent := s.indexes[old_.index];
    :- Need(parent.Open());
    var next := Filled(parent, -1, -Embedded(old_), -ChunkBytes(old_));
    :- Need(IndexCheck(next));
    Some(s.(chunks := s.chunks - {id}, indexes := s.indexes[old_.index := next]))
  }

  // Index jobs: knowledge_job_guard

  predicate JobTransition(from: JobStatus, to: JobStatus) {
    || (from == Queued && (to == Running || to == JobFailed || to == JobCancelled))
    || (from == Running && (to == Queued || to == JobCompleted || to == JobFailed || to == JobCancelled))
  }

  predicate UniqueJob(jobs: map<Id, Job>, id: Id, row: Job) {
    forall j | j in jobs && j != id ::
      jobs[j].index != row.index && (jobs[j].uploader, jobs[j].operationKey) != (row.uploader, row.operationKey)
  }

  predicate ResultReady(indexes: map<Id, Index>, row: Job) {
    row.status == JobCompleted ==> row.index in indexes && indexes[row.index].status == IndexReady
  }

  function InsertJob(s: Db, id: Id, row: Job): Option<Db> {
    if !(id !in s.jobs && JobCheck(row) && UniqueJob(s.jobs, id, row) && row.index in s.indexes) then None else
    var x := s.indexes[row.index];
    :- Need((row.content, row.document, row.subject, row.uploader) == (x.content, x.document, x.subject, x.uploader));
    :- Need(row.status == Queued && row.attempts == 0 && row.worker.None? && row.claimToken.None? && row.heartbeatAt.None?);
    :- Need(row.leaseExpiresAt.None? && row.cancellationRequestedAt.None? && row.completedAt.None? && row.error.None?);
    :- Need(row.subject in s.subjects && row.corpusRevision == s.subjects[row.subject].corpusRevision);
    Some(s.(jobs := s.jobs[id := row]))
  }

  predicate SameJobTarget(old_: Job, row: Job) {
    && (row.index, row.content, row.document, row.subject, row.uploader)
       == (old_.index, old_.content, old_.document, old_.subject, old_.uploader)
    && (row.operationKey, row.fingerprint, row.corpusRevision, row.createdAt, row.deadlineAt, row.maxAttempts)
       == (old_.operationKey, old_.fingerprint, old_.corpusRevision, old_.createdAt, old_.deadlineAt, old_.maxAttempts)
  }

  predicate JobGuard(old_: Job, row: Job) {
    && (old_.Terminal() ==> row == old_)
    && (row.status == old_.status || JobTransition(old_.status, row.status))
    && (row.attempts == old_.attempts
        || (old_.status == Queued && row.status == Running && row.attempts == old_.attempts + 1))
    && (old_.status == Queued && row.status == Running ==> row.attempts == old_.attempts + 1)
    && (old_.status == Running && row.status == Running ==> (row.worker, row.claimToken) == (old_.worker, old_.claimToken))
    && SameJobTarget(old_, row)
    && (old_.cancellationRequestedAt.Some? ==> row.cancellationRequestedAt == old_.cancellationRequestedAt)
  }

  function UpdateJob(s: Db, id: Id, row: Job): Option<Db> {
    if !(id in s.jobs && JobGuard(s.jobs[id], row)) then None else
    :- Need(ResultReady(s.indexes, row) && JobCheck(row));
    Some(s.(jobs := s.jobs[id := row]))
  }

  function DeleteJob(s: Db, id: Id): Option<Db> {
    Some(s.(jobs := s.jobs - {id}))
  }

  // Statements and runs

  datatype Statement =
    | SetInstructors(ids: set<Id>)
    | AddSpace(hash: Hash, profile: Profile)
    | DropSpace(hash: Hash)
    | AddSubject(id: Id, subject: Subject)
    | EditSubject(id: Id, subject: Subject)
    | DropSubject(id: Id, order: seq<Id>)
    | AddDocument(id: Id, document: Document)
    | EditDocument(id: Id, document: Document)
    | DropDocument(id: Id)
    | AddContent(id: Id, content: Content)
    | EditContent(id: Id, content: Content)
    | DropContent(id: Id)
    | AddPage(key: PageKey, page: Page)
    | EditPage(key: PageKey, page: Page)
    | DropPage(key: PageKey)
    | AddIndex(id: Id, index: Index)
    | EditIndex(id: Id, index: Index)
    | DropIndex(id: Id)
    | AddChunk(id: Id, chunk: Chunk)
    | EditChunk(id: Id, chunk: Chunk)
    | DropChunk(id: Id)
    | AddJob(id: Id, job: Job)
    | EditJob(id: Id, job: Job)
    | DropJob(id: Id)

  // Which rows a statement is about

  predicate OnContent(q: Statement) {
    q.AddContent? || q.EditContent? || q.AddPage? || q.EditPage? || q.DropPage?
  }

  predicate OnIndex(q: Statement) {
    q.AddIndex? || q.EditIndex? || q.DropIndex?
  }

  predicate OnChunk(q: Statement) {
    q.AddChunk? || q.EditChunk? || q.DropChunk?
  }

  predicate OnJob(q: Statement) {
    q.AddJob? || q.EditJob? || q.DropJob?
  }

  /** Deletions whose cascades reach other tables. */
  predicate Cascades(q: Statement) {
    q.DropSubject? || q.DropDocument? || q.DropContent? || q.DropIndex?
  }

  ghost function Attempt(s: Db, q: Statement): Option<Db> {
    match q
    case SetInstructors(ids) => Some(s.(instructors := ids))
    case AddSpace(hash, profile) => InsertSpace(s, hash, profile)
    case DropSpace(hash) => DeleteSpace(s, hash)
    case AddSubject(id, row) => InsertSubject(s, id, row)
    case EditSubject(id, row) => UpdateSubject(s, id, row)
    case DropSubject(id, order) => DeleteSubject(s, id, order)
    case AddDocument(id, row) => InsertDocument(s, id, row)
    case EditDocument(id, row) => UpdateDocument(s, id, row)
    case DropDocument(id) => DeleteDocument(s, id)
    case AddContent(id, row) => InsertContent(s, id, row)
    case EditContent(id, row) => UpdateContent(s, id, row, false)
    case DropContent(id) => DeleteContent(s, id)
    case AddPage(key, row) => InsertPage(s, key, row)
    case EditPage(key, row) => UpdatePage(s, key, row)
    case DropPage(key) => DeletePage(s, key)
    case AddIndex(id, row) => InsertIndex(s, id, row)
    case EditIndex(id, row) => UpdateIndex(s, id, row, false)
    case DropIndex(id) => DeleteIndex(s, id)
    case AddChunk(id, row) => InsertChunk(s, id, row)
    case EditChunk(id, row) => UpdateChunk(s, id, row)
    case DropChunk(id) => DeleteChunk(s, id)
    case AddJob(id, row) => InsertJob(s, id, row)
    case EditJob(id, row) => UpdateJob(s, id, row)
    case DropJob(id) => DeleteJob(s, id)
  }

  /** A refused statement leaves the database as it was. */
  ghost function Execute(s: Db, q: Statement): Db {
    var r := Attempt(s, q);
    if r.Some? then r.value else s
  }

  ghost function Run(s: Db, qs: seq<Statement>): Db {
    if qs == [] then s else Execute(Run(s, qs[..|qs| - 1]), qs[|qs| - 1])
  }
}
