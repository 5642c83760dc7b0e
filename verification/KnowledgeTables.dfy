/** The rows of the Knowledge tables, their check constraints, and the state of the database. */
module KnowledgeTables {
  import opened Prelude

  type Id = nat
  type Hash = string
  type Vector = seq<real>

  // Users and Subjects

  datatype Subject = Subject(
    instructor: Id,
    corpusRevision: int,
    activeSpace: Option<Hash>,
    stagedSpace: Option<Hash>)

  predicate SubjectCheck(row: Subject) {
    row.corpusRevision >= 0
  }

  // Embedding spaces: the eight (later ten) identity columns are one opaque profile

  type Profile = seq<string>

  const SPACE_CAPACITY := 64

  // Documents and content revisions

  datatype Document = Document(
    subject: Id,
    uploader: Id,
    title: string,
    sourceName: string,
    sourceHash: Hash,
    createdAt: int)

  predicate DocumentCheck(row: Document) {
    && 1 <= |TrimSpaces(row.title)| <= 255
    && 1 <= |row.sourceName| <= 255
  }

  datatype KnowledgeError =
    | ExtractionFault | IndexFault | CapacityExceeded | ProcessingCancelled | LeaseExpired

  datatype ContentStatus = Processing | PendingIndex | ContentReady | ExtractionFailed | ContentCancelled

  datatype Content = Content(
    document: Id,
    subject: Id,
    uploader: Id,
    revisionNo: int,
    sourceHash: Hash,
    extractionVersion: string,
    status: ContentStatus,
    isActive: bool,
    reservedPages: int,
    reservedChars: int,
    reservedBytes: int,
    actualPages: int,
    actualChars: int,
    actualBytes: int,
    reviewedBy: Option<Id>,
    reviewedAt: Option<int>,
    publishedAt: Option<int>,
    error: Option<KnowledgeError>,
    createdAt: int)
  {
    /** Active, ready and published: the content side of an eligible chunk, and what the corpus bump looks at. */
    predicate Live() {
      isActive && status == ContentReady && publishedAt.Some?
    }

    predicate Complete() {
      && actualPages != 0
      && actualPages == reservedPages
      && actualChars == reservedChars
      && actualBytes == reservedBytes
    }
  }

  predicate ContentCheck(row: Content) {
    && row.revisionNo >= 1
    && 1 <= |TrimSpaces(row.extractionVersion)| <= 64
    && 0 <= row.reservedPages <= 100
    && 0 <= row.reservedChars <= 500000
    && 0 <= row.reservedBytes <= 2097152
    && 0 <= row.actualPages <= row.reservedPages
    && 0 <= row.actualChars <= row.reservedChars
    && 0 <= row.actualBytes <= row.reservedBytes
    && (row.publishedAt.Some? ==> row.reviewedAt.Some?)
    && (row.reviewedAt.None? ==> row.reviewedBy.None?)
    && (row.reviewedAt.Some? ==> row.reviewedBy == Some(row.uploader) && row.status == ContentReady)
    && (row.status == ContentReady ==> row.Complete())
    && (row.isActive ==> row.status == ContentReady)
  }

  // Pages are keyed by their unique (content revision, page number) pair

  datatype PageKey = PageKey(content: Id, number: int)

  datatype Page = Page(document: Id, subject: Id, uploader: Id, text: string)

  predicate PageCheck(key: PageKey, row: Page) {
    1 <= key.number <= 100 && |row.text| <= 500000
  }

  // Index revisions and chunks

  datatype IndexStatus = Staged | Indexing | IndexReady | IndexFailed | IndexCancelled

  datatype Index = Index(
    content: Id,
    document: Id,
    subject: Id,
    uploader: Id,
    revisionNo: int,
    chunkerVersion: string,
    profile: Profile,
    space: Hash,
    status: IndexStatus,
    isActive: bool,
    reservedChunks: int,
    reservedBytes: int,
    actualChunks: int,
    actualEmbedded: int,
    actualBytes: int,
    error: Option<KnowledgeError>,
    createdAt: int)
  {
    predicate Serving() {
      isActive && status == IndexReady
    }

    predicate Open() {
      status == Staged || status == Indexing
    }
  }

  predicate IndexCheck(row: Index) {
    && row.revisionNo >= 1
    && 1 <= |TrimSpaces(row.chunkerVersion)| <= 64
    && 0 <= row.reservedChunks <= 512
    && 0 <= row.reservedBytes <= 16777216
    && 0 <= row.actualChunks <= row.reservedChunks
    && 0 <= row.actualEmbedded <= row.actualChunks
    && 0 <= row.actualBytes <= row.reservedBytes
    && (row.status == IndexReady ==>
          row.actualChunks > 0 && row.actualChunks == row.reservedChunks && row.actualEmbedded == row.actualChunks)
    && (row.isActive ==> row.status == IndexReady)
  }

  datatype Chunk = Chunk(
    index: Id,
    content: Id,
    document: Id,
    subject: Id,
    uploader: Id,
    position: int,
    pageNumber: int,
    section: Option<string>,
    text: string,
    tokenCount: int,
    space: Hash,
    embedding: Option<Vector>)

  predicate ChunkCheck(row: Chunk) {
    && 0 <= row.position <= 511
    && 1 <= row.pageNumber <= 100
    && 1 <= |TrimSpaces(row.text)| <= 500000
    && 1 <= row.tokenCount <= 8192
    && (row.section.Some? ==> 1 <= |row.section.value| <= 255)
    && (row.embedding.Some? ==> |row.embedding.value| == 1536 && exists i | 0 <= i < 1536 :: row.embedding.value[i] != 0.0)
  }

  const VECTOR_ROW_BYTES := 6408

  /** What one chunk is charged: UTF-8 text and section, and the full row and vector allowance. */
  function ChunkBytes(row: Chunk): int {
    Utf8Length(row.text) + (if row.section.Some? then Utf8Length(row.section.value) else 0) + VECTOR_ROW_BYTES
  }

  function Embedded(row: Chunk): int {
    if row.embedding.Some? then 1 else 0
  }

  // Index jobs

  datatype JobStatus = Queued | Running | JobCompleted | JobFailed | JobCancelled

  datatype Job = Job(
    index: Id,
    content: Id,
    document: Id,
    subject: Id,
    uploader: Id,
    operationKey: Hash,
    fingerprint: Hash,
    corpusRevision: int,
    status: JobStatus,
    attempts: int,
    maxAttempts: int,
    availableAt: int,
    deadlineAt: int,
    worker: Option<string>,
    claimToken: Option<Hash>,
    heartbeatAt: Option<int>,
    leaseExpiresAt: Option<int>,
    cancellationRequestedAt: Option<int>,
    completedAt: Option<int>,
    error: Option<KnowledgeError>,
    createdAt: int)
  {
    predicate Terminal() {
      status == JobCompleted || status == JobFailed || status == JobCancelled
    }
  }

  predicate JobCheck(row: Job) {
    && row.corpusRevision >= 0
    && 0 <= row.attempts <= row.maxAttempts
    && 1 <= row.maxAttempts <= 10
    && (row.status == Running ==>
          && row.worker.Some? && 1 <= |TrimSpaces(row.worker.value)| <= 128
          && row.claimToken.Some?
          && row.attempts >= 1
          && row.heartbeatAt.Some? && row.leaseExpiresAt.Some?
          && row.heartbeatAt.value <= row.leaseExpiresAt.value <= row.deadlineAt)
    && (row.Terminal() <==> row.completedAt.Some?)
    && row.availableAt <= row.deadlineAt
    && row.createdAt <= row.deadlineAt
  }

  // Storage counters

  datatype Scope = Global | OfSubject(subject: Id) | OfUploader(uploader: Id)

  datatype Usage = Usage(documents: int, bytes: int)

  predicate UsageCheck(scope: Scope, row: Usage) {
    && 0 <= row.documents
    && 0 <= row.bytes
    && match scope
       case Global => row.documents <= 500 && row.bytes <= 2147483648
       case OfSubject(_) => row.documents <= 50 && row.bytes <= 268435456
       case OfUploader(_) => row.documents <= 100 && row.bytes <= 536870912
  }

  const DOCUMENT_BYTES := 67108864
  const CONTENT_REVISIONS := 4
  const INDEX_REVISIONS := 8

  // The whole state

  datatype Db = Db(
    instructors: set<Id>,
    spaces: map<Hash, Profile>,
    subjects: map<Id, Subject>,
    documents: map<Id, Document>,
    contents: map<Id, Content>,
    pages: map<PageKey, Page>,
    indexes: map<Id, Index>,
    chunks: map<Id, Chunk>,
    jobs: map<Id, Job>,
    usage: map<Scope, Usage>)

  const EMPTY_DB := Db({}, map[], map[], map[], map[], map[], map[], map[], map[], map[])

  // Text measures

  /** SQL `trim`: spaces only, at both ends. */
  function TrimSpaces(s: string): string {
    TrimRight(TrimLeft(s))
  }

  function TrimLeft(s: string): string {
    if s != "" && s[0] == ' ' then TrimLeft(s[1..]) else s
  }

  function TrimRight(s: string): string {
    if s != "" && s[|s| - 1] == ' ' then TrimRight(s[..|s| - 1]) else s
  }

  /** SQL `octet_length` of a text stored as UTF-8. */
  function Utf8Length(s: string): nat {
    if s == "" then 0 else Utf8Width(s[0]) + Utf8Length(s[1..])
  }

  function Utf8Width(c: char): nat {
    if c as int < 0x80 then 1 else if c as int < 0x800 then 2 else if c as int < 0x1_0000 then 3 else 4
  }
}
