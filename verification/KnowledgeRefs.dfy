/** Every admitted statement keeps the references, the row checks and the unique keys. */
module KnowledgeRefs {
  import opened Prelude
  import opened KnowledgeTables
  import opened KnowledgeStatements
  import opened KnowledgeInvariants

  // How each table's references react to a change of the table or of its parent

  ghost predicate Sub<K, V>(small: map<K, V>, large: map<K, V>) {
    forall k :: k in small ==> k in large && small[k] == large[k]
  }

  lemma BumpKeeps(spaces: map<Hash, Profile>, subjects: map<Id, Subject>, documents: map<Id, Document>, id: Id, times: nat)
    requires SubjectRefs(spaces, subjects) && DocumentRefs(subjects, documents)
    ensures SubjectRefs(spaces, Bump(subjects, id, times)) && DocumentRefs(Bump(subjects, id, times), documents)
  {
    var next := Bump(subjects, id, times);
    forall k | k in next ensures SubjectRef(spaces, next[k]) {
      assert SubjectRef(spaces, subjects[k]);
    }
    forall d | d in documents ensures DocumentRef(next, documents[d]) {
      assert DocumentRef(subjects, documents[d]);
    }
  }

  lemma ContentRefsShrink(documents: map<Id, Document>, contents: map<Id, Content>, documents': map<Id, Document>, contents': map<Id, Content>)
    requires ContentRefs(documents, contents)
    requires Sub(documents', documents) && Sub(contents', contents)
    requires forall c :: c in contents' ==> contents'[c].document in documents'
    ensures ContentRefs(documents', contents')
  {
    forall c | c in contents' ensures ContentRef(documents', contents'[c]) {
      assert ContentRef(documents, contents[c]);
    }
  }

  lemma PageRefsShrink(contents: map<Id, Content>, pages: map<PageKey, Page>, contents': map<Id, Content>, pages': map<PageKey, Page>)
    requires PageRefs(contents, pages)
    requires Sub(contents', contents) && Sub(pages', pages)
    requires forall p :: p in pages' ==> p.content in contents'
    ensures PageRefs(contents', pages')
  {
    forall p | p in pages' ensures PageRef(contents', p, pages'[p]) {
      assert PageRef(contents, p, pages[p]);
    }
  }

  lemma IndexRefsShrink(spaces: map<Hash, Profile>, contents: map<Id, Content>, indexes: map<Id, Index>, contents': map<Id, Content>, indexes': map<Id, Index>)
    requires IndexRefs(spaces, contents, indexes)
    requires Sub(contents', contents) && Sub(indexes', indexes)
    requires forall x :: x in indexes' ==> indexes'[x].content in contents'
    ensures IndexRefs(spaces, contents', indexes')
  {
    forall x | x in indexes' ensures IndexRef(spaces, contents', indexes'[x]) {
      assert IndexRef(spaces, contents, indexes[x]);
    }
  }

  lemma ChunkRefsShrink(
      indexes: map<Id, Index>, pages: map<PageKey, Page>, chunks: map<Id, Chunk>,
      indexes': map<Id, Index>, pages': map<PageKey, Page>, chunks': map<Id, Chunk>)
    requires ChunkRefs(indexes, pages, chunks)
    requires Sub(indexes', indexes) && Sub(chunks', chunks)
    requires forall k :: k in chunks' ==>
               chunks'[k].index in indexes' && PageKey(chunks'[k].content, chunks'[k].pageNumber) in pages'
    ensures ChunkRefs(indexes', pages', chunks')
  {
    forall k | k in chunks' ensures ChunkRef(indexes', pages', chunks'[k]) {
      assert ChunkRef(indexes, pages, chunks[k]);
    }
  }

  lemma JobRefsShrink(indexes: map<Id, Index>, jobs: map<Id, Job>, indexes': map<Id, Index>, jobs': map<Id, Job>)
    requires JobRefs(indexes, jobs)
    requires Sub(indexes', indexes) && Sub(jobs', jobs)
    requires forall j :: j in jobs' ==> jobs'[j].index in indexes'
    ensures JobRefs(indexes', jobs')
  {
    forall j | j in jobs' ensures JobRef(indexes', jobs'[j]) {
      assert JobRef(indexes, jobs[j]);
    }
  }

  lemma UniqueShrink(contents: map<Id, Content>, indexes: map<Id, Index>, contents': map<Id, Content>, indexes': map<Id, Index>)
    requires UniqueRevisions(contents, indexes) && Sub(contents', contents) && Sub(indexes', indexes)
    ensures UniqueRevisions(contents', indexes')
  {
  }

  lemma PositionsShrink(chunks: map<Id, Chunk>, chunks': map<Id, Chunk>)
    requires ChunkPositions(chunks) && Sub(chunks', chunks)
    ensures ChunkPositions(chunks')
  {
  }

  /** The page and index rows of a content revision do not notice a change that keeps its identity. */
  lemma ContentReplaced(
      spaces: map<Hash, Profile>, documents: map<Id, Document>, contents: map<Id, Content>, pages: map<PageKey, Page>,
      indexes: map<Id, Index>, c: Id, row: Content)
    requires ContentRefs(documents, contents) && PageRefs(contents, pages) && IndexRefs(spaces, contents, indexes)
    requires c in contents && SameContentIdentity(contents[c], row) && ContentRef(documents, row)
    requires row.status == contents[c].status || ContentTransition(contents[c].status, row.status)
    ensures ContentRefs(documents, contents[c := row])
    ensures PageRefs(contents[c := row], pages)
    ensures IndexRefs(spaces, contents[c := row], indexes)
  {
    var next := contents[c := row];
    forall b | b in next ensures ContentRef(documents, next[b]) {
      assert b in contents ==> ContentRef(documents, contents[b]);
    }
    forall p | p in pages ensures PageRef(next, p, pages[p]) {
      assert PageRef(contents, p, pages[p]);
    }
    forall x | x in indexes ensures IndexRef(spaces, next, indexes[x]) {
      assert IndexRef(spaces, contents, indexes[x]);
    }
  }

  lemma ContentAdded(
      spaces: map<Hash, Profile>, documents: map<Id, Document>, contents: map<Id, Content>, pages: map<PageKey, Page>,
      indexes: map<Id, Index>, c: Id, row: Content)
    requires ContentRefs(documents, contents) && PageRefs(contents, pages) && IndexRefs(spaces, contents, indexes)
    requires c !in contents && ContentRef(documents, row)
    ensures ContentRefs(documents, contents[c := row])
    ensures PageRefs(contents[c := row], pages)
    ensures IndexRefs(spaces, contents[c := row], indexes)
  {
    var next := contents[c := row];
    forall b | b in next ensures ContentRef(documents, next[b]) {
      assert b in contents ==> ContentRef(documents, contents[b]);
    }
    forall p | p in pages ensures PageRef(next, p, pages[p]) {
      assert PageRef(contents, p, pages[p]);
    }
    forall x | x in indexes ensures IndexRef(spaces, next, indexes[x]) {
      assert IndexRef(spaces, contents, indexes[x]);
    }
  }

  lemma UniqueContentsSet(contents: map<Id, Content>, c: Id, row: Content)
    requires UniqueContents(contents) && UniqueContent(contents, c, row)
    ensures UniqueContents(contents[c := row])
  {
  }

  lemma UniqueIndexesSet(indexes: map<Id, Index>, x: Id, row: Index)
    requires UniqueIndexes(indexes) && UniqueIndex(indexes, x, row)
    ensures UniqueIndexes(indexes[x := row])
  {
  }

  /** Replacing an index by one of the same identity that is still ready if it was. */
  lemma IndexReplaced(
      spaces: map<Hash, Profile>, contents: map<Id, Content>, indexes: map<Id, Index>, pages: map<PageKey, Page>,
      chunks: map<Id, Chunk>, jobs: map<Id, Job>, x: Id, row: Index)
    requires IndexRefs(spaces, contents, indexes) && ChunkRefs(indexes, pages, chunks) && JobRefs(indexes, jobs)
    requires x in indexes && SameIndexIdentity(indexes[x], row) && IndexCheck(row)
    requires indexes[x].status == IndexReady ==> row.status == IndexReady
    ensures IndexRefs(spaces, contents, indexes[x := row])
    ensures ChunkRefs(indexes[x := row], pages, chunks)
    ensures JobRefs(indexes[x := row], jobs)
  {
    var next := indexes[x := row];
    forall y | y in next ensures IndexRef(spaces, contents, next[y]) {
      assert IndexRef(spaces, contents, indexes[y]);
    }
    forall k | k in chunks ensures ChunkRef(next, pages, chunks[k]) {
      assert ChunkRef(indexes, pages, chunks[k]);
    }
    forall j | j in jobs ensures JobRef(next, jobs[j]) {
      assert JobRef(indexes, jobs[j]);
    }
  }

  lemma IndexAdded(
      spaces: map<Hash, Profile>, contents: map<Id, Content>, indexes: map<Id, Index>, pages: map<PageKey, Page>,
      chunks: map<Id, Chunk>, jobs: map<Id, Job>, x: Id, row: Index)
    requires IndexRefs(spaces, contents, indexes) && ChunkRefs(indexes, pages, chunks) && JobRefs(indexes, jobs)
    requires x !in indexes && IndexRef(spaces, contents, row)
    ensures IndexRefs(spaces, contents, indexes[x := row])
    ensures ChunkRefs(indexes[x := row], pages, chunks)
    ensures JobRefs(indexes[x := row], jobs)
  {
    var next := indexes[x := row];
    forall y | y in next ensures IndexRef(spaces, contents, next[y]) {
      assert y in indexes ==> IndexRef(spaces, contents, indexes[y]);
    }
    forall k | k in chunks ensures ChunkRef(next, pages, chunks[k]) {
      assert ChunkRef(indexes, pages, chunks[k]);
    }
    forall j | j in jobs ensures JobRef(next, jobs[j]) {
      assert JobRef(indexes, jobs[j]);
    }
  }

  lemma PageSet(contents: map<Id, Content>, indexes: map<Id, Index>, pages: map<PageKey, Page>, chunks: map<Id, Chunk>, p: PageKey, row: Page)
    requires PageRefs(contents, pages) && ChunkRefs(indexes, pages, chunks) && PageRef(contents, p, row)
    ensures PageRefs(contents, pages[p := row]) && ChunkRefs(indexes, pages[p := row], chunks)
  {
    forall k | k in chunks ensures ChunkRef(indexes, pages[p := row], chunks[k]) {
      assert ChunkRef(indexes, pages, chunks[k]);
    }
  }

  /** No chunk rests on a page of content that is still being processed, so removing such a page cascades to nothing. */
  lemma ProcessingPageIsUnreferenced(s: Db, p: PageKey)
    requires IndexRefs(s.spaces, s.contents, s.indexes) && ChunkRefs(s.indexes, s.pages, s.chunks)
    requires p.content in s.contents && s.contents[p.content].status == Processing
    ensures forall k :: k in s.chunks ==> PageKey(s.chunks[k].content, s.chunks[k].pageNumber) != p
  {
    forall k | k in s.chunks ensures PageKey(s.chunks[k].content, s.chunks[k].pageNumber) != p {
      assert ChunkRef(s.indexes, s.pages, s.chunks[k]);
      assert IndexRef(s.spaces, s.contents, s.indexes[s.chunks[k].index]);
    }
  }

  lemma DocumentSet(subjects: map<Id, Subject>, documents: map<Id, Document>, contents: map<Id, Content>, d: Id, row: Document)
    requires DocumentRefs(subjects, documents) && ContentRefs(documents, contents)
    requires DocumentCheck(row)
    requires if d in documents then (row.subject, row.uploader) == (documents[d].subject, documents[d].uploader)
             else DocumentRef(subjects, row)
    ensures DocumentRefs(subjects, documents[d := row]) && ContentRefs(documents[d := row], contents)
  {
    forall c | c in contents ensures ContentRef(documents[d := row], contents[c]) {
      assert ContentRef(documents, contents[c]);
    }
    var next := documents[d := row];
    forall e | e in next ensures DocumentRef(subjects, next[e]) {
      assert e in documents ==> DocumentRef(subjects, documents[e]);
    }
  }

  lemma DocumentsShrink(subjects: map<Id, Subject>, documents: map<Id, Document>, documents': map<Id, Document>)
    requires DocumentRefs(subjects, documents) && Sub(documents', documents)
    ensures DocumentRefs(subjects, documents')
  {
  }

  lemma UniqueContentsTouched(contents: map<Id, Content>, c: Id, row: Content)
    requires UniqueContents(contents) && c in contents
    requires (row.document, row.revisionNo, row.isActive) == (contents[c].document, contents[c].revisionNo, contents[c].isActive)
    ensures UniqueContents(contents[c := row])
  {
  }

  lemma UniqueIndexesTouched(indexes: map<Id, Index>, x: Id, row: Index)
    requires UniqueIndexes(indexes) && x in indexes
    requires (row.content, row.revisionNo, row.isActive) == (indexes[x].content, indexes[x].revisionNo, indexes[x].isActive)
    ensures UniqueIndexes(indexes[x := row])
  {
  }

  lemma ChunkSet(indexes: map<Id, Index>, pages: map<PageKey, Page>, chunks: map<Id, Chunk>, k: Id, row: Chunk)
    requires ChunkRefs(indexes, pages, chunks) && ChunkPositions(chunks) && ChunkRef(indexes, pages, row)
    requires forall l :: l in chunks && l != k && chunks[l].index == row.index ==> chunks[l].position != row.position
    ensures ChunkRefs(indexes, pages, chunks[k := row]) && ChunkPositions(chunks[k := row])
  {
  }

  lemma JobSet(indexes: map<Id, Index>, jobs: map<Id, Job>, j: Id, row: Job)
    requires JobRefs(indexes, jobs) && JobRef(indexes, row)
    ensures JobRefs(indexes, jobs[j := row])
  {
  }

  // Looking one reference up

  lemma ContentScope(s: Db, c: Id)
    requires ContentRefs(s.documents, s.contents) && c in s.contents
    ensures ContentRef(s.documents, s.contents[c])
  {
  }

  lemma PageScope(s: Db, p: PageKey)
    requires PageRefs(s.contents, s.pages) && p in s.pages
    ensures PageRef(s.contents, p, s.pages[p])
  {
  }

  lemma ChunkScope(s: Db, k: Id)
    requires ChunkRefs(s.indexes, s.pages, s.chunks) && ChunkPositions(s.chunks) && k in s.chunks
    ensures ChunkRef(s.indexes, s.pages, s.chunks[k])
    ensures forall l :: l in s.chunks && l != k && s.chunks[l].index == s.chunks[k].index ==> s.chunks[l].position != s.chunks[k].position
  {
  }

  lemma ContentsInHand(s: Db)
    requires ContentRefs(s.documents, s.contents)
    ensures forall c :: c in s.contents ==> s.contents[c].document in s.documents
  {
    forall c | c in s.contents ensures s.contents[c].document in s.documents {
      ContentScope(s, c);
    }
  }

  lemma PagesInHand(s: Db)
    requires PageRefs(s.contents, s.pages)
    ensures forall p :: p in s.pages ==> p.content in s.contents && s.contents[p.content].document == s.pages[p].document
  {
    forall p | p in s.pages ensures p.content in s.contents && s.contents[p.content].document == s.pages[p].document {
      PageScope(s, p);
    }
  }

  lemma IndexesInHand(s: Db)
    requires IndexRefs(s.spaces, s.contents, s.indexes)
    ensures forall x :: x in s.indexes ==>
              s.indexes[x].content in s.contents && s.contents[s.indexes[x].content].document == s.indexes[x].document
  {
    forall x | x in s.indexes
      ensures s.indexes[x].content in s.contents && s.contents[s.indexes[x].content].document == s.indexes[x].document
    {
      assert IndexRef(s.spaces, s.contents, s.indexes[x]);
    }
  }

  ghost predicate ChunkScoped(s: Db, k: Id) {
    && k in s.chunks
    && s.chunks[k].index in s.indexes
    && s.indexes[s.chunks[k].index].content == s.chunks[k].content
    && s.indexes[s.chunks[k].index].document == s.chunks[k].document
    && PageKey(s.chunks[k].content, s.chunks[k].pageNumber) in s.pages
  }

  lemma ChunksInHand(s: Db)
    requires ChunkRefs(s.indexes, s.pages, s.chunks)
    ensures forall k :: k in s.chunks ==> ChunkScoped(s, k)
  {
    forall k | k in s.chunks ensures ChunkScoped(s, k) {
      assert ChunkRef(s.indexes, s.pages, s.chunks[k]);
    }
  }

  lemma JobsInHand(s: Db)
    requires JobRefs(s.indexes, s.jobs)
    ensures forall j :: j in s.jobs ==>
              && s.jobs[j].index in s.indexes
              && s.indexes[s.jobs[j].index].content == s.jobs[j].content
              && s.indexes[s.jobs[j].index].document == s.jobs[j].document
  {
    forall j | j in s.jobs
      ensures s.jobs[j].index in s.indexes
      ensures s.indexes[s.jobs[j].index].content == s.jobs[j].content
      ensures s.indexes[s.jobs[j].index].document == s.jobs[j].document
    {
      assert JobRef(s.indexes, s.jobs[j]);
    }
  }

  // Statement by statement

  lemma InsertSubjectKeepsRefs(s: Db, id: Id, row: Subject)
    requires Refs(s) && InsertSubject(s, id, row).Some?
    ensures Refs(InsertSubject(s, id, row).value)
  {
    hide PageRefs, IndexRefs, ChunkRefs, ChunkPositions, JobRefs, UniqueContents, UniqueIndexes, ContentRefs;
    var t := InsertSubject(s, id, row).value;
    forall d | d in s.documents ensures DocumentRef(t.subjects, s.documents[d]) {
      assert DocumentRef(s.subjects, s.documents[d]);
    }
  }

  lemma UpdateSubjectKeepsRefs(s: Db, id: Id, row: Subject)
    requires Refs(s) && UpdateSubject(s, id, row).Some?
    ensures Refs(UpdateSubject(s, id, row).value)
  {
    hide PageRefs, IndexRefs, ChunkRefs, ChunkPositions, JobRefs, UniqueContents, UniqueIndexes, ContentRefs;
    var t := UpdateSubject(s, id, row).value;
    forall d | d in s.documents ensures DocumentRef(t.subjects, s.documents[d]) {
      assert DocumentRef(s.subjects, s.documents[d]);
    }
  }

  lemma InsertSpaceKeepsRefs(s: Db, hash: Hash, profile: Profile)
    requires Refs(s) && InsertSpace(s, hash, profile).Some?
    ensures Refs(InsertSpace(s, hash, profile).value)
  {
    hide PageRefs, ChunkRefs, ChunkPositions, JobRefs, UniqueContents, UniqueIndexes, ContentRefs, DocumentRefs;
    var t := InsertSpace(s, hash, profile).value;
    forall k | k in s.subjects ensures SubjectRef(t.spaces, s.subjects[k]) {
      assert SubjectRef(s.spaces, s.subjects[k]);
    }
    forall x | x in s.indexes ensures IndexRef(t.spaces, s.contents, s.indexes[x]) {
      assert IndexRef(s.spaces, s.contents, s.indexes[x]);
    }
  }

  lemma DeleteSpaceKeepsRefs(s: Db, hash: Hash)
    requires Refs(s) && DeleteSpace(s, hash).Some?
    ensures Refs(DeleteSpace(s, hash).value)
  {
    hide PageRefs, ChunkRefs, ChunkPositions, JobRefs, UniqueContents, UniqueIndexes, ContentRefs, DocumentRefs, IndexCheck;
    var t := DeleteSpace(s, hash).value;
    forall k | k in s.subjects ensures SubjectRef(t.spaces, s.subjects[k]) {
      assert SubjectRef(s.spaces, s.subjects[k]);
    }
    forall x | x in s.indexes ensures IndexRef(t.spaces, s.contents, s.indexes[x]) {
      assert IndexRef(s.spaces, s.contents, s.indexes[x]);
    }
  }

  lemma InsertDocumentKeepsRefs(s: Db, id: Id, row: Document)
    requires Refs(s) && InsertDocument(s, id, row).Some?
    ensures Refs(InsertDocument(s, id, row).value)
  {
    hide SubjectRefs, DocumentRefs, ContentRefs, PageRefs, IndexRefs, ChunkRefs, ChunkPositions, JobRefs;
    hide UniqueContents, UniqueIndexes, ContentCheck, IndexCheck, ChunkCheck, PageCheck, Charged, AdjustUsage, Utf8Length;
    var t := InsertDocument(s, id, row).value;
    DocumentSet(s.subjects, s.documents, s.contents, id, row);
  }

  lemma UpdateDocumentKeepsRefs(s: Db, id: Id, row: Document)
    requires Refs(s) && UpdateDocument(s, id, row).Some?
    ensures Refs(UpdateDocument(s, id, row).value)
  {
    hide SubjectRefs, DocumentRefs, ContentRefs, PageRefs, IndexRefs, ChunkRefs, ChunkPositions, JobRefs;
    hide UniqueContents, UniqueIndexes, ContentCheck, IndexCheck, ChunkCheck, PageCheck, Charged, AdjustUsage, Utf8Length;
    var t := UpdateDocument(s, id, row).value;
    DocumentSet(s.subjects, s.documents, s.contents, id, row);
  }

  lemma InsertContentKeepsRefs(s: Db, id: Id, row: Content)
    requires Refs(s) && InsertContent(s, id, row).Some?
    ensures Refs(InsertContent(s, id, row).value)
  {
    hide SubjectRefs, DocumentRefs, ContentRefs, PageRefs, IndexRefs, ChunkRefs, ChunkPositions, JobRefs;
    hide UniqueContents, UniqueIndexes, ContentCheck, IndexCheck, ChunkCheck, PageCheck, Charged, AdjustUsage, Utf8Length;
    var t := InsertContent(s, id, row).value;
    ContentAdded(s.spaces, s.documents, s.contents, s.pages, s.indexes, id, row);
    UniqueContentsSet(s.contents, id, row);
  }

  lemma UpdateContentKeepsRefs(s: Db, id: Id, row: Content, nested: bool)
    requires Refs(s) && UpdateContent(s, id, row, nested).Some?
    ensures Refs(UpdateContent(s, id, row, nested).value)
  {
    hide SubjectRefs, DocumentRefs, ContentRefs, PageRefs, IndexRefs, ChunkRefs, ChunkPositions, JobRefs;
    hide UniqueContents, UniqueIndexes, ContentCheck, IndexCheck, ChunkCheck, PageCheck, Charged, AdjustUsage, Utf8Length;
    var t := UpdateContent(s, id, row, nested).value;
    ContentScope(s, id);
    ContentReplaced(s.spaces, s.documents, s.contents, s.pages, s.indexes, id, row);
    UniqueContentsSet(s.contents, id, row);
    BumpKeeps(s.spaces, s.subjects, s.documents, row.subject, ContentBump(s.contents[id], row));
  }

  lemma InsertPageKeepsRefs(s: Db, key: PageKey, row: Page)
    requires Refs(s) && InsertPage(s, key, row).Some?
    ensures Refs(InsertPage(s, key, row).value)
  {
    hide SubjectRefs, DocumentRefs, ContentRefs, PageRefs, IndexRefs, ChunkRefs, ChunkPositions, JobRefs;
    hide UniqueContents, UniqueIndexes, ContentCheck, IndexCheck, ChunkCheck, PageCheck, Charged, AdjustUsage, Utf8Length;
    var t := InsertPage(s, key, row).value;
    ContentScope(s, key.content);
    var next := Measured(s.contents[key.content], 1, |row.text|, Utf8Length(row.text));
    ContentReplaced(s.spaces, s.documents, s.contents, s.pages, s.indexes, key.content, next);
    UniqueContentsTouched(s.contents, key.content, next);
    PageSet(t.contents, s.indexes, s.pages, s.chunks, key, row);
  }

  lemma UpdatePageKeepsRefs(s: Db, key: PageKey, row: Page)
    requires Refs(s) && UpdatePage(s, key, row).Some?
    ensures Refs(UpdatePage(s, key, row).value)
  {
    hide SubjectRefs, DocumentRefs, ContentRefs, PageRefs, IndexRefs, ChunkRefs, ChunkPositions, JobRefs;
    hide UniqueContents, UniqueIndexes, ContentCheck, IndexCheck, ChunkCheck, PageCheck, Charged, AdjustUsage, Utf8Length;
    var t := UpdatePage(s, key, row).value;
    ContentScope(s, key.content);
    PageScope(s, key);
    var next := t.contents[key.content];
    ContentReplaced(s.spaces, s.documents, s.contents, s.pages, s.indexes, key.content, next);
    UniqueContentsTouched(s.contents, key.content, next);
    PageSet(t.contents, s.indexes, s.pages, s.chunks, key, row);
  }

  lemma DeletePageKeepsRefs(s: Db, key: PageKey)
    requires Refs(s) && DeletePage(s, key).Some?
    ensures Refs(DeletePage(s, key).value)
  {
    hide SubjectRefs, DocumentRefs, ContentRefs, PageRefs, IndexRefs, ChunkRefs, ChunkPositions, JobRefs;
    hide UniqueContents, UniqueIndexes, ContentCheck, IndexCheck, ChunkCheck, PageCheck, Charged, AdjustUsage, Utf8Length;
    var t := DeletePage(s, key).value;
    ContentScope(s, key.content);
    var next := t.contents[key.content];
    ContentReplaced(s.spaces, s.documents, s.contents, s.pages, s.indexes, key.content, next);
    UniqueContentsTouched(s.contents, key.content, next);
    ProcessingPageIsUnreferenced(s, key);
    PagesInHand(s);
    PageRefsShrink(t.contents, s.pages, t.contents, t.pages);
    ChunksInHand(s);
    ChunkRefsShrink(s.indexes, s.pages, s.chunks, s.indexes, t.pages, s.chunks);
  }

  lemma InsertIndexKeepsRefs(s: Db, id: Id, row: Index)
    requires Refs(s) && InsertIndex(s, id, row).Some?
    ensures Refs(InsertIndex(s, id, row).value)
  {
    hide SubjectRefs, DocumentRefs, ContentRefs, PageRefs, IndexRefs, ChunkRefs, ChunkPositions, JobRefs;
    hide UniqueContents, UniqueIndexes, ContentCheck, IndexCheck, ChunkCheck, PageCheck, Charged, AdjustUsage, Utf8Length;
    var t := InsertIndex(s, id, row).value;
    IndexAdded(s.spaces, s.contents, s.indexes, s.pages, s.chunks, s.jobs, id, row);
    UniqueIndexesSet(s.indexes, id, row);
  }

  lemma UpdateIndexKeepsRefs(s: Db, id: Id, row: Index, nested: bool)
    requires Refs(s) && UpdateIndex(s, id, row, nested).Some?
    ensures Refs(UpdateIndex(s, id, row, nested).value)
  {
    hide SubjectRefs, DocumentRefs, ContentRefs, PageRefs, IndexRefs, ChunkRefs, ChunkPositions, JobRefs;
    hide UniqueContents, UniqueIndexes, ContentCheck, IndexCheck, ChunkCheck, PageCheck, Charged, AdjustUsage, Utf8Length;
    var t := UpdateIndex(s, id, row, nested).value;
    IndexReplaced(s.spaces, s.contents, s.indexes, s.pages, s.chunks, s.jobs, id, row);
    UniqueIndexesSet(s.indexes, id, row);
    BumpKeeps(s.spaces, s.subjects, s.documents, row.subject, IndexBump(s, s.indexes[id], row));
  }

  lemma InsertChunkKeepsRefs(s: Db, id: Id, row: Chunk)
    requires Refs(s) && InsertChunk(s, id, row).Some?
    ensures Refs(InsertChunk(s, id, row).value)
  {
    hide SubjectRefs, DocumentRefs, ContentRefs, PageRefs, IndexRefs, ChunkRefs, ChunkPositions, JobRefs;
    hide UniqueContents, UniqueIndexes, ContentCheck, IndexCheck, ChunkCheck, PageCheck, Charged, AdjustUsage, Utf8Length;
    var t := InsertChunk(s, id, row).value;
    var next := Filled(s.indexes[row.index], 1, Embedded(row), ChunkBytes(row));
    IndexReplaced(s.spaces, s.contents, s.indexes, s.pages, s.chunks, s.jobs, row.index, next);
    UniqueIndexesTouched(s.indexes, row.index, next);
    ChunkSet(t.indexes, s.pages, s.chunks, id, row);
  }

  lemma UpdateChunkKeepsRefs(s: Db, id: Id, row: Chunk)
    requires Refs(s) && UpdateChunk(s, id, row).Some?
    ensures Refs(UpdateChunk(s, id, row).value)
  {
    hide SubjectRefs, DocumentRefs, ContentRefs, PageRefs, IndexRefs, ChunkRefs, ChunkPositions, JobRefs;
    hide UniqueContents, UniqueIndexes, ContentCheck, IndexCheck, ChunkCheck, PageCheck, Charged, AdjustUsage, Utf8Length;
    var t := UpdateChunk(s, id, row).value;
    var next := t.indexes[row.index];
    IndexReplaced(s.spaces, s.contents, s.indexes, s.pages, s.chunks, s.jobs, row.index, next);
    UniqueIndexesTouched(s.indexes, row.index, next);
    ChunkScope(s, id);
    ChunkSet(t.indexes, s.pages, s.chunks, id, row);
  }

  lemma DeleteChunkKeepsRefs(s: Db, id: Id)
    requires Refs(s) && DeleteChunk(s, id).Some?
    ensures Refs(DeleteChunk(s, id).value)
  {
    hide SubjectRefs, DocumentRefs, ContentRefs, PageRefs, IndexRefs, ChunkRefs, ChunkPositions, JobRefs;
    hide UniqueContents, UniqueIndexes, ContentCheck, IndexCheck, ChunkCheck, PageCheck, Charged, AdjustUsage, Utf8Length;
    var t := DeleteChunk(s, id).value;
    var x := s.chunks[id].index;
    var next := t.indexes[x];
    IndexReplaced(s.spaces, s.contents, s.indexes, s.pages, s.chunks, s.jobs, x, next);
    UniqueIndexesTouched(s.indexes, x, next);
    ChunksInHand(s);
    ChunkRefsShrink(t.indexes, s.pages, s.chunks, t.indexes, s.pages, t.chunks);
    PositionsShrink(s.chunks, t.chunks);
  }

  lemma DeleteIndexKeepsRefs(s: Db, id: Id)
    requires Refs(s) && DeleteIndex(s, id).Some?
    ensures Refs(DeleteIndex(s, id).value)
  {
    hide SubjectRefs, DocumentRefs, ContentRefs, PageRefs, IndexRefs, ChunkRefs, ChunkPositions, JobRefs;
    hide UniqueContents, UniqueIndexes, ContentCheck, IndexCheck, ChunkCheck, PageCheck, Charged, AdjustUsage, Utf8Length;
    var t := DeleteIndex(s, id).value;
    assert Sub(t.indexes, s.indexes) && Sub(t.chunks, s.chunks) && Sub(t.jobs, s.jobs);
    IndexesInHand(s);
    IndexRefsShrink(s.spaces, s.contents, s.indexes, s.contents, t.indexes);
    ChunksInHand(s);
    ChunkRefsShrink(s.indexes, s.pages, s.chunks, t.indexes, s.pages, t.chunks);
    PositionsShrink(s.chunks, t.chunks);
    JobsInHand(s);
    JobRefsShrink(s.indexes, s.jobs, t.indexes, t.jobs);
    UniqueShrink(s.contents, s.indexes, s.contents, t.indexes);
    BumpKeeps(s.spaces, s.subjects, s.documents, s.indexes[id].subject, 1);
  }

  lemma DeleteContentKeepsRefs(s: Db, id: Id)
    requires Refs(s) && DeleteContent(s, id).Some?
    ensures Refs(DeleteContent(s, id).value)
  {
    hide SubjectRefs, DocumentRefs, ContentRefs, PageRefs, IndexRefs, ChunkRefs, ChunkPositions, JobRefs;
    hide UniqueContents, UniqueIndexes, ContentCheck, IndexCheck, ChunkCheck, PageCheck, Charged, AdjustUsage, Utf8Length;
    var t := DeleteContent(s, id).value;
    assert Sub(t.contents, s.contents) && Sub(t.pages, s.pages) && Sub(t.indexes, s.indexes);
    assert Sub(t.chunks, s.chunks) && Sub(t.jobs, s.jobs);
    ContentsInHand(s);
    PagesInHand(s);
    IndexesInHand(s);
    ChunksInHand(s);
    JobsInHand(s);
    PageRefsShrink(s.contents, s.pages, t.contents, t.pages);
    IndexRefsShrink(s.spaces, s.contents, s.indexes, t.contents, t.indexes);
    ChunkRefsShrink(s.indexes, s.pages, s.chunks, t.indexes, t.pages, t.chunks);
    PositionsShrink(s.chunks, t.chunks);
    JobRefsShrink(s.indexes, s.jobs, t.indexes, t.jobs);
    UniqueShrink(s.contents, s.indexes, t.contents, t.indexes);
    ContentRefsShrink(s.documents, s.contents, s.documents, t.contents);
    BumpKeeps(s.spaces, s.subjects, s.documents, s.contents[id].subject, 1);
  }

  lemma DeleteDocumentShrinks(s: Db, id: Id)
    requires DeleteDocument(s, id).Some?
    ensures id in s.documents
    ensures var t := DeleteDocument(s, id).value;
            && t.instructors == s.instructors && t.spaces == s.spaces && t.documents == s.documents - {id}
            && t.subjects == Bump(s.subjects, s.documents[id].subject, |LiveContents(s.contents, id)|)
            && Sub(t.contents, s.contents) && Sub(t.pages, s.pages) && Sub(t.indexes, s.indexes)
            && Sub(t.chunks, s.chunks) && Sub(t.jobs, s.jobs)
            && (forall c :: c in t.contents <==> c in s.contents && s.contents[c].document != id)
            && (forall p :: p in t.pages <==> p in s.pages && s.pages[p].document != id)
            && (forall x :: x in t.indexes <==> x in s.indexes && s.indexes[x].document != id)
            && (forall k :: k in t.chunks <==> k in s.chunks && s.chunks[k].document != id)
            && (forall j :: j in t.jobs <==> j in s.jobs && s.jobs[j].document != id)
  {
    hide Charged, AdjustUsage, Bump, LiveContents;
  }

  lemma DeleteDocumentKeepsRefs(s: Db, id: Id)
    requires Refs(s) && DeleteDocument(s, id).Some?
    ensures Refs(DeleteDocument(s, id).value)
  {
    hide SubjectRefs, DocumentRefs, ContentRefs, PageRefs, IndexRefs, ChunkRefs, ChunkPositions, JobRefs;
    hide UniqueContents, UniqueIndexes, DeleteDocument, Bump, LiveContents;
    var t := DeleteDocument(s, id).value;
    DeleteDocumentShrinks(s, id);
    ContentsInHand(s);
    PagesInHand(s);
    IndexesInHand(s);
    ChunksInHand(s);
    JobsInHand(s);
    PageRefsShrink(s.contents, s.pages, t.contents, t.pages);
    IndexRefsShrink(s.spaces, s.contents, s.indexes, t.contents, t.indexes);
    ChunkRefsShrink(s.indexes, s.pages, s.chunks, t.indexes, t.pages, t.chunks);
    PositionsShrink(s.chunks, t.chunks);
    JobRefsShrink(s.indexes, s.jobs, t.indexes, t.jobs);
    UniqueShrink(s.contents, s.indexes, t.contents, t.indexes);
    ContentRefsShrink(s.documents, s.contents, t.documents, t.contents);
    BumpKeeps(s.spaces, s.subjects, s.documents, s.documents[id].subject, |LiveContents(s.contents, id)|);
    DocumentsShrink(t.subjects, s.documents, t.documents);
  }

  lemma InsertJobKeepsRefs(s: Db, id: Id, row: Job)
    requires Refs(s) && InsertJob(s, id, row).Some?
    ensures Refs(InsertJob(s, id, row).value)
  {
    hide SubjectRefs, DocumentRefs, ContentRefs, PageRefs, IndexRefs, ChunkRefs, ChunkPositions, JobRefs;
    hide UniqueContents, UniqueIndexes, ContentCheck, IndexCheck, ChunkCheck, PageCheck, Charged, AdjustUsage, Utf8Length;
    var t := InsertJob(s, id, row).value;
    JobSet(s.indexes, s.jobs, id, row);
  }

  lemma UpdateJobKeepsRefs(s: Db, id: Id, row: Job)
    requires Refs(s) && UpdateJob(s, id, row).Some?
    ensures Refs(UpdateJob(s, id, row).value)
  {
    hide SubjectRefs, DocumentRefs, ContentRefs, PageRefs, IndexRefs, ChunkRefs, ChunkPositions, JobRefs;
    hide UniqueContents, UniqueIndexes, ContentCheck, IndexCheck, ChunkCheck, PageCheck, Charged, AdjustUsage, Utf8Length;
    var t := UpdateJob(s, id, row).value;
    JobsInHand(s);
    JobSet(s.indexes, s.jobs, id, row);
  }
}
