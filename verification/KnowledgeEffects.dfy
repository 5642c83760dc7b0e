/** Which tables an admitted statement leaves as they were, group by group. */
module KnowledgeEffects {
  import opened Prelude
  import opened KnowledgeTables
  import opened KnowledgeStatements

  predicate OnOwner(q: Statement) {
    q.SetInstructors? || q.AddSpace? || q.DropSpace? || q.AddSubject? || q.EditSubject? || q.AddDocument? || q.EditDocument?
  }

  lemma OwnerStatementEffect(s: Db, q: Statement)
    requires OnOwner(q) && Attempt(s, q).Some?
    ensures var t := Attempt(s, q).value;
            t.contents == s.contents && t.pages == s.pages && t.indexes == s.indexes && t.chunks == s.chunks && t.jobs == s.jobs
  {
    hide AdjustUsage, DocumentCheck, SubjectCheck, SpaceKnown, StampedSubject;
    if q.AddDocument? || q.EditDocument? {
      DocumentStatementEffect(s, q);
      hide Attempt;
    }
    hide InsertDocument, UpdateDocument;
    hide InsertContent, UpdateContent, DeleteContent, InsertPage, UpdatePage, DeletePage, DeleteDocument, DeleteSubject;
    hide InsertIndex, UpdateIndex, DeleteIndex, InsertChunk, UpdateChunk, DeleteChunk, InsertJob, UpdateJob, DeleteJob;
  }

  lemma DocumentStatementEffect(s: Db, q: Statement)
    requires (q.AddDocument? || q.EditDocument?) && Attempt(s, q).Some?
    ensures var t := Attempt(s, q).value;
            t.contents == s.contents && t.pages == s.pages && t.indexes == s.indexes && t.chunks == s.chunks && t.jobs == s.jobs
  {
    hide AdjustUsage, DocumentCheck, InsertSpace, DeleteSpace, InsertSubject, UpdateSubject;
    hide InsertContent, UpdateContent, DeleteContent, InsertPage, UpdatePage, DeletePage, DeleteDocument, DeleteSubject;
    hide InsertIndex, UpdateIndex, DeleteIndex, InsertChunk, UpdateChunk, DeleteChunk, InsertJob, UpdateJob, DeleteJob;
  }

  lemma ContentStatementEffect(s: Db, q: Statement)
    requires OnContent(q) && Attempt(s, q).Some?
    ensures var t := Attempt(s, q).value;
            t.documents == s.documents && t.indexes == s.indexes && t.chunks == s.chunks && t.jobs == s.jobs
  {
    hide AdjustUsage, Charged, ContentCheck, PageCheck, UniqueContent, HasReadyIndex, ContentBump, Utf8Length, Bump, ContentsOf;
    hide SameContentIdentity, SameMeasures, Measured, ContentTransition;
    hide InsertSpace, DeleteSpace, InsertSubject, UpdateSubject, InsertDocument, UpdateDocument, DeleteDocument, DeleteSubject;
    hide DeleteContent, InsertIndex, UpdateIndex, DeleteIndex, InsertChunk, UpdateChunk, DeleteChunk, InsertJob, UpdateJob, DeleteJob;
  }

  lemma IndexStatementEffect(s: Db, q: Statement)
    requires (q.AddIndex? || q.EditIndex?) && Attempt(s, q).Some?
    ensures var t := Attempt(s, q).value;
            t.documents == s.documents && t.contents == s.contents && t.pages == s.pages && t.chunks == s.chunks && t.jobs == s.jobs
  {
    hide AdjustUsage, Charged, IndexCheck, UniqueIndex, IndexBump, Bump, IndexesOf, SameIndexIdentity, IndexTransition;
    hide InsertSpace, DeleteSpace, InsertSubject, UpdateSubject, InsertDocument, UpdateDocument, DeleteDocument, DeleteSubject;
    hide InsertContent, UpdateContent, DeleteContent, InsertPage, UpdatePage, DeletePage;
    hide DeleteIndex, InsertChunk, UpdateChunk, DeleteChunk, InsertJob, UpdateJob, DeleteJob;
  }

  lemma ChunkStatementEffect(s: Db, q: Statement)
    requires OnChunk(q) && Attempt(s, q).Some?
    ensures var t := Attempt(s, q).value;
            t.documents == s.documents && t.contents == s.contents && t.pages == s.pages && t.jobs == s.jobs && t.subjects == s.subjects
  {
    hide IndexCheck, ChunkCheck, ChunkBytes, Embedded, Filled;
    hide InsertSpace, DeleteSpace, InsertSubject, UpdateSubject, InsertDocument, UpdateDocument, DeleteDocument, DeleteSubject;
    hide InsertContent, UpdateContent, DeleteContent, InsertPage, UpdatePage, DeletePage;
    hide InsertIndex, UpdateIndex, DeleteIndex, InsertJob, UpdateJob, DeleteJob;
  }

  lemma JobStatementEffect(s: Db, q: Statement)
    requires OnJob(q) && Attempt(s, q).Some?
    ensures Attempt(s, q).value == s.(jobs := Attempt(s, q).value.jobs)
  {
    hide JobCheck, JobGuard, UniqueJob, ResultReady;
    hide InsertSpace, DeleteSpace, InsertSubject, UpdateSubject, InsertDocument, UpdateDocument, DeleteDocument, DeleteSubject;
    hide InsertContent, UpdateContent, DeleteContent, InsertPage, UpdatePage, DeletePage;
    hide InsertIndex, UpdateIndex, DeleteIndex, InsertChunk, UpdateChunk, DeleteChunk;
  }

  predicate ChunkFits(s: Db, id: Id, row: Chunk) {
    && id !in s.chunks && ChunkCheck(row) && row.index in s.indexes && PageKey(row.content, row.pageNumber) in s.pages
    && (forall k | k in s.chunks && s.chunks[k].index == row.index :: s.chunks[k].position != row.position)
    && var parent := s.indexes[row.index];
    && (row.content, row.document, row.subject, row.uploader, row.space)
       == (parent.content, parent.document, parent.subject, parent.uploader, parent.space)
    && parent.Open() && row.position < parent.reservedChunks
    && IndexCheck(Filled(parent, 1, Embedded(row), ChunkBytes(row)))
  }

  /** What an admitted chunk leaves behind. */
  lemma ChunkGoesIn(s: Db, id: Id, row: Chunk)
    requires ChunkFits(s, id, row)
    ensures InsertChunk(s, id, row)
            == Some(s.(chunks := s.chunks[id := row],
                       indexes := s.indexes[row.index := Filled(s.indexes[row.index], 1, Embedded(row), ChunkBytes(row))]))
  {
    hide ChunkCheck, IndexCheck, ChunkBytes, Embedded, Filled;
  }
}
