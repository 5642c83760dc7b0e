/** What every admitted statement keeps: references, row checks, uniqueness, measurements and storage counters. */
module KnowledgeInvariants {
  import opened Prelude
  import opened MapSums
  import opened KnowledgeTables
  import opened KnowledgeStatements

  // References, row by row

  ghost predicate SubjectRef(spaces: map<Hash, Profile>, row: Subject) {
    && SubjectCheck(row)
    && SpaceKnown(spaces, row.activeSpace) && SpaceKnown(spaces, row.stagedSpace)
  }

  ghost predicate DocumentRef(subjects: map<Id, Subject>, row: Document) {
    && DocumentCheck(row)
    && row.subject in subjects && subjects[row.subject].instructor == row.uploader
  }

  ghost predicate ContentRef(documents: map<Id, Document>, row: Content) {
    && ContentCheck(row)
    && row.document in documents
    && documents[row.document].subject == row.subject
    && documents[row.document].uploader == row.uploader
    && (row.status == PendingIndex ==> row.Complete())
  }

  ghost predicate PageRef(contents: map<Id, Content>, p: PageKey, row: Page) {
    && PageCheck(p, row)
    && p.content in contents
    && contents[p.content].document == row.document
    && contents[p.content].subject == row.subject
    && contents[p.content].uploader == row.uploader
  }

  /** An index is only ever added to content that left `processing` with its pages complete. */
  ghost predicate IndexRef(spaces: map<Hash, Profile>, contents: map<Id, Content>, row: Index) {
    && IndexCheck(row)
    && row.space in spaces && spaces[row.space] == row.profile
    && row.content in contents
    && contents[row.content].document == row.document
    && contents[row.content].subject == row.subject
    && contents[row.content].uploader == row.uploader
    && contents[row.content].status != Processing
    && contents[row.content].status != ExtractionFailed
  }

  ghost predicate ChunkRef(indexes: map<Id, Index>, pages: map<PageKey, Page>, row: Chunk) {
    && ChunkCheck(row)
    && row.index in indexes
    && indexes[row.index].content == row.content
    && indexes[row.index].document == row.document
    && indexes[row.index].subject == row.subject
    && indexes[row.index].uploader == row.uploader
    && indexes[row.index].space == row.space
    && PageKey(row.content, row.pageNumber) in pages
  }

  ghost predicate JobRef(indexes: map<Id, Index>, row: Job) {
    && JobCheck(row)
    && row.index in indexes
    && indexes[row.index].content == row.content
    && indexes[row.index].document == row.document
    && ResultReady(indexes, row)
  }

  ghost predicate SubjectRefs(spaces: map<Hash, Profile>, subjects: map<Id, Subject>) {
    forall k :: k in subjects ==> SubjectRef(spaces, subjects[k])
  }

  ghost predicate DocumentRefs(subjects: map<Id, Subject>, documents: map<Id, Document>) {
    forall d :: d in documents ==> DocumentRef(subjects, documents[d])
  }

  ghost predicate ContentRefs(documents: map<Id, Document>, contents: map<Id, Content>) {
    forall c :: c in contents ==> ContentRef(documents, contents[c])
  }

  ghost predicate PageRefs(contents: map<Id, Content>, pages: map<PageKey, Page>) {
    forall p :: p in pages ==> PageRef(contents, p, pages[p])
  }

  ghost predicate IndexRefs(spaces: map<Hash, Profile>, contents: map<Id, Content>, indexes: map<Id, Index>) {
    forall x :: x in indexes ==> IndexRef(spaces, contents, indexes[x])
  }

  ghost predicate ChunkRefs(indexes: map<Id, Index>, pages: map<PageKey, Page>, chunks: map<Id, Chunk>) {
    forall k :: k in chunks ==> ChunkRef(indexes, pages, chunks[k])
  }

  ghost predicate ChunkPositions(chunks: map<Id, Chunk>) {
    forall k, l :: k in chunks && l in chunks && k != l && chunks[k].index == chunks[l].index ==>
      chunks[k].position != chunks[l].position
  }

  ghost predicate JobRefs(indexes: map<Id, Index>, jobs: map<Id, Job>) {
    forall j :: j in jobs ==> JobRef(indexes, jobs[j])
  }

  ghost predicate UniqueContents(contents: map<Id, Content>) {
    forall c, b :: c in contents && b in contents && b != c && contents[b].document == contents[c].document ==>
      contents[b].revisionNo != contents[c].revisionNo && !(contents[b].isActive && contents[c].isActive)
  }

  ghost predicate UniqueIndexes(indexes: map<Id, Index>) {
    forall x, y :: x in indexes && y in indexes && y != x && indexes[y].content == indexes[x].content ==>
      indexes[y].revisionNo != indexes[x].revisionNo && !(indexes[y].isActive && indexes[x].isActive)
  }

  ghost predicate UniqueRevisions(contents: map<Id, Content>, indexes: map<Id, Index>) {
    UniqueContents(contents) && UniqueIndexes(indexes)
  }

  // Measured columns

  ghost function PagesOf(pages: map<PageKey, Page>, content: Id): set<PageKey> {
    set p | p in pages && p.content == content
  }

  ghost function PageChars(pages: map<PageKey, Page>, content: Id): map<PageKey, int> {
    map p | p in pages && p.content == content :: |pages[p].text|
  }

  ghost function PageBytes(pages: map<PageKey, Page>, content: Id): map<PageKey, int> {
    map p | p in pages && p.content == content :: Utf8Length(pages[p].text)
  }

  ghost predicate ContentMeasured(pages: map<PageKey, Page>, c: Id, row: Content) {
    && row.actualPages == |PagesOf(pages, c)|
    && row.actualChars == Total(PageChars(pages, c))
    && row.actualBytes == Total(PageBytes(pages, c))
  }

  ghost predicate MeasuredPages(contents: map<Id, Content>, pages: map<PageKey, Page>) {
    forall c :: c in contents ==> ContentMeasured(pages, c, contents[c])
  }

  ghost function ChunksOf(chunks: map<Id, Chunk>, index: Id): set<Id> {
    set k | k in chunks && chunks[k].index == index
  }

  ghost function ChunkEmbeddings(chunks: map<Id, Chunk>, index: Id): map<Id, int> {
    map k | k in chunks && chunks[k].index == index :: Embedded(chunks[k])
  }

  ghost function ChunkSizes(chunks: map<Id, Chunk>, index: Id): map<Id, int> {
    map k | k in chunks && chunks[k].index == index :: ChunkBytes(chunks[k])
  }

  ghost predicate IndexMeasured(chunks: map<Id, Chunk>, x: Id, row: Index) {
    && row.actualChunks == |ChunksOf(chunks, x)|
    && row.actualEmbedded == Total(ChunkEmbeddings(chunks, x))
    && row.actualBytes == Total(ChunkSizes(chunks, x))
  }

  ghost predicate MeasuredChunks(indexes: map<Id, Index>, chunks: map<Id, Chunk>) {
    forall x :: x in indexes ==> IndexMeasured(chunks, x, indexes[x])
  }

  // Storage counters

  function SliceOf(scope: Scope): Slice {
    match scope
    case Global => Everything
    case OfSubject(x) => SubjectSlice(x)
    case OfUploader(x) => UploaderSlice(x)
  }

  ghost function DocumentsIn(documents: map<Id, Document>, slice: Slice): set<Id> {
    set d | d in documents && slice.Covers(d, documents[d].subject, documents[d].uploader)
  }

  ghost predicate CountersBounded(usage: map<Scope, Usage>) {
    forall scope :: scope in usage ==>
      UsageCheck(scope, usage[scope]) && (scope == Global || usage[scope] != Usage(0, 0))
  }

  /** What a counter should hold, whether or not its row exists. */
  ghost function Owed(documents: map<Id, Document>, contents: map<Id, Content>, indexes: map<Id, Index>, scope: Scope): Usage {
    Usage(|DocumentsIn(documents, SliceOf(scope))|, Charged(contents, indexes, SliceOf(scope)))
  }

  /** Storage conservation: every counter equals the documents and reserved bytes of its scope. */
  ghost predicate Conserved(documents: map<Id, Document>, contents: map<Id, Content>, indexes: map<Id, Index>, usage: map<Scope, Usage>) {
    forall scope :: Lookup(usage, scope) == Owed(documents, contents, indexes, scope)
  }

  ghost predicate DocumentsCapped(documents: map<Id, Document>, contents: map<Id, Content>, indexes: map<Id, Index>) {
    forall d :: d in documents ==> Charged(contents, indexes, DocumentSlice(d)) <= DOCUMENT_BYTES
  }

  // The invariant

  ghost predicate Refs(s: Db) {
    && SubjectRefs(s.spaces, s.subjects)
    && DocumentRefs(s.subjects, s.documents)
    && ContentRefs(s.documents, s.contents)
    && PageRefs(s.contents, s.pages)
    && IndexRefs(s.spaces, s.contents, s.indexes)
    && ChunkRefs(s.indexes, s.pages, s.chunks)
    && ChunkPositions(s.chunks)
    && JobRefs(s.indexes, s.jobs)
    && UniqueRevisions(s.contents, s.indexes)
  }

  ghost predicate Measures(s: Db) {
    MeasuredPages(s.contents, s.pages) && MeasuredChunks(s.indexes, s.chunks)
  }

  ghost predicate Counters(s: Db) {
    && CountersBounded(s.usage)
    && Conserved(s.documents, s.contents, s.indexes, s.usage)
    && DocumentsCapped(s.documents, s.contents, s.indexes)
  }

  ghost predicate Inv(s: Db) {
    Refs(s) && Measures(s) && Counters(s)
  }

  lemma InvGivesRefs(s: Db)
    requires Inv(s)
    ensures Refs(s)
  {
    hide Refs, Measures, Counters;
  }
}
