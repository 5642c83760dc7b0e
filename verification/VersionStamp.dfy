/**
 * `corpus_revision` is a sound version stamp: while a Subject keeps the same stamp, the chunks its
 * readers may cite, with their text, vectors and page text, are the same. Titles are outside the view.
 */
module VersionStamp {
  import opened Prelude
  import opened KnowledgeTables
  import opened KnowledgeStatements
  import opened KnowledgeEffects
  import opened KnowledgeInvariants
  import opened KnowledgeRefs
  import opened KnowledgeRuns

  /** The joins and conditions of the view `eligible_subject_knowledge_chunks`, for one chunk. */
  predicate Eligible(s: Db, k: Id) {
    && k in s.chunks
    && var chunk := s.chunks[k];
    && chunk.document in s.documents && s.documents[chunk.document].subject == chunk.subject
    && chunk.subject in s.subjects
    && chunk.content in s.contents
    && var content := s.contents[chunk.content];
    && content.document == chunk.document && content.subject == chunk.subject
    && chunk.index in s.indexes
    && var x := s.indexes[chunk.index];
    && x.content == chunk.content && x.subject == chunk.subject
    && content.isActive && content.status == ContentReady && content.publishedAt.Some?
    && content.reviewedAt.Some? && content.reviewedBy == Some(s.documents[chunk.document].uploader)
    && x.isActive && x.status == IndexReady && chunk.embedding.Some?
    && chunk.space == x.space
    && s.subjects[chunk.subject].activeSpace == Some(x.space)
  }

  /** What a reader of an eligible chunk sees: the chunk row and the text of the page it came from. */
  datatype Passage = Passage(chunk: Chunk, page: string)

  function PageText(pages: map<PageKey, Page>, key: PageKey): string {
    if key in pages then pages[key].text else ""
  }

  function PassageOf(s: Db, k: Id): Passage
    requires k in s.chunks
  {
    Passage(s.chunks[k], PageText(s.pages, PageKey(s.chunks[k].content, s.chunks[k].pageNumber)))
  }

  predicate Shown(s: Db, subject: Id, k: Id) {
    Eligible(s, k) && s.chunks[k].subject == subject
  }

  /** Everything a Subject's readers may cite. */
  function View(s: Db, subject: Id): map<Id, Passage> {
    map k | k in s.chunks && Shown(s, subject, k) :: PassageOf(s, k)
  }

  // In a good state most of the view's conditions follow from the references

  lemma EligibleMeans(s: Db, k: Id)
    requires Refs(s) && k in s.chunks
    ensures ChunkRef(s.indexes, s.pages, s.chunks[k])
    ensures s.chunks[k].content in s.contents && s.chunks[k].subject in s.subjects
    ensures s.contents[s.chunks[k].content].subject == s.chunks[k].subject
    ensures s.contents[s.chunks[k].content].document == s.chunks[k].document
    ensures s.chunks[k].document in s.documents && s.documents[s.chunks[k].document].subject == s.chunks[k].subject
    ensures Eligible(s, k) <==>
              && s.contents[s.chunks[k].content].Live()
              && s.indexes[s.chunks[k].index].Serving()
              && s.chunks[k].embedding.Some?
              && s.subjects[s.chunks[k].subject].activeSpace == Some(s.indexes[s.chunks[k].index].space)
  {
    hide ChunkPositions, JobRefs, UniqueRevisions, PageRefs, ChunkCheck, IndexCheck, DocumentCheck, SubjectCheck, SpaceKnown;
    var chunk := s.chunks[k];
    assert ChunkRef(s.indexes, s.pages, chunk);
    assert IndexRef(s.spaces, s.contents, s.indexes[chunk.index]);
    assert ContentRef(s.documents, s.contents[chunk.content]);
    assert DocumentRef(s.subjects, s.documents[chunk.document]);
  }

  // One step

  /** The chunk is shown in both states with the same passage, or in neither. */
  predicate SameShown(s: Db, t: Db, subject: Id, k: Id) {
    && (Shown(s, subject, k) <==> Shown(t, subject, k))
    && (Shown(s, subject, k) ==> PassageOf(s, k) == PassageOf(t, k))
  }

  lemma SameView(s: Db, t: Db, subject: Id)
    requires forall k :: SameShown(s, t, subject, k)
    ensures View(s, subject) == View(t, subject)
  {
    hide Eligible;
    forall k ensures k in View(s, subject) <==> k in View(t, subject) {
      assert SameShown(s, t, subject, k);
      if k !in s.chunks {
        NotThere(s, k);
      }
      if k !in t.chunks {
        NotThere(t, k);
      }
    }
    forall k | k in View(s, subject) ensures View(s, subject)[k] == View(t, subject)[k] {
      assert SameShown(s, t, subject, k);
    }
  }

  /** The stamp does not fall, and if it does not rise the view is the same. */
  predicate Stamped(s: Db, t: Db, subject: Id) {
    && subject in s.subjects && subject in t.subjects
    && s.subjects[subject].corpusRevision <= t.subjects[subject].corpusRevision
    && (s.subjects[subject].corpusRevision == t.subjects[subject].corpusRevision ==> View(s, subject) == View(t, subject))
  }

  /** Tables that a chunk's eligibility and passage depend on, as seen from one chunk. */
  predicate SameSurroundings(s: Db, t: Db, k: Id) {
    && (k in s.chunks <==> k in t.chunks)
    && (k in s.chunks ==>
          var chunk := s.chunks[k];
          && t.chunks[k] == chunk
          && chunk.content in s.contents && chunk.content in t.contents
          && chunk.index in s.indexes && chunk.index in t.indexes
          && chunk.subject in s.subjects && chunk.subject in t.subjects
          && s.contents[chunk.content].Live() == t.contents[chunk.content].Live()
          && s.indexes[chunk.index].Serving() == t.indexes[chunk.index].Serving()
          && s.indexes[chunk.index].space == t.indexes[chunk.index].space
          && s.subjects[chunk.subject].activeSpace == t.subjects[chunk.subject].activeSpace
          && PassageOf(s, k) == PassageOf(t, k))
  }

  lemma SurroundingsDecide(s: Db, t: Db, subject: Id, k: Id)
    requires Refs(s) && Refs(t) && SameSurroundings(s, t, k)
    ensures SameShown(s, t, subject, k)
  {
    hide Eligible, Refs, ChunkRef;
    if k in s.chunks {
      EligibleMeans(s, k);
      EligibleMeans(t, k);
    } else {
      NotThere(s, k);
      NotThere(t, k);
    }
  }

  lemma NotThere(s: Db, k: Id)
    requires k !in s.chunks
    ensures !Eligible(s, k)
  {
  }

  lemma BumpMoves(subjects: map<Id, Subject>, at: Id, times: nat, subject: Id)
    requires subject in subjects
    ensures subject in Bump(subjects, at, times)
    ensures Bump(subjects, at, times)[subject].activeSpace == subjects[subject].activeSpace
    ensures Bump(subjects, at, times)[subject].corpusRevision
            == subjects[subject].corpusRevision + (if subject == at then times else 0)
  {
  }

  /** The Subject exists on both sides and its stamp did not move. */
  predicate SameStamp(s: Db, t: Db, subject: Id) {
    && subject in s.subjects && subject in t.subjects
    && s.subjects[subject].corpusRevision == t.subjects[subject].corpusRevision
  }

  /** A chunk of another Subject is never shown for this one. */
  lemma ElsewhereKeepsShown(s: Db, t: Db, subject: Id, k: Id)
    requires k in s.chunks ==> s.chunks[k].subject != subject
    requires k in t.chunks ==> t.chunks[k].subject != subject
    ensures SameShown(s, t, subject, k)
  {
    hide Eligible;
    if k !in s.chunks {
      NotThere(s, k);
    }
    if k !in t.chunks {
      NotThere(t, k);
    }
  }

  lemma LiveContentCounts(contents: map<Id, Content>, c: Id)
    requires c in contents
    ensures contents[c].Live() ==> |LiveContents(contents, contents[c].document)| >= 1
  {
    if contents[c].Live() {
      assert c in LiveContents(contents, contents[c].document);
    }
  }

  lemma ChunkPageThere(s: Db, k: Id)
    requires Refs(s) && k in s.chunks
    ensures PageKey(s.chunks[k].content, s.chunks[k].pageNumber) in s.pages
    ensures s.chunks[k].index in s.indexes
    ensures s.indexes[s.chunks[k].index].content == s.chunks[k].content
    ensures s.indexes[s.chunks[k].index].subject == s.chunks[k].subject
    ensures s.indexes[s.chunks[k].index].document == s.chunks[k].document
  {
    hide SubjectRefs, DocumentRefs, ContentRefs, PageRefs, IndexRefs, ChunkPositions, JobRefs, UniqueRevisions;
    assert ChunkRef(s.indexes, s.pages, s.chunks[k]);
  }

  /** The page under a chunk belongs to content that left `processing`, and to the chunk's own document. */
  lemma ChunkPageSettled(s: Db, k: Id)
    requires Refs(s) && k in s.chunks
    ensures PageKey(s.chunks[k].content, s.chunks[k].pageNumber) in s.pages
    ensures s.chunks[k].content in s.contents && s.contents[s.chunks[k].content].status != Processing
  {
    hide SubjectRefs, DocumentRefs, ContentRefs, PageRefs, ChunkPositions, JobRefs, UniqueRevisions;
    assert ChunkRef(s.indexes, s.pages, s.chunks[k]);
    assert IndexRef(s.spaces, s.contents, s.indexes[s.chunks[k].index]);
  }

  lemma PageDocument(s: Db, k: Id)
    requires Refs(s) && k in s.chunks
    ensures var p := PageKey(s.chunks[k].content, s.chunks[k].pageNumber); p in s.pages && s.pages[p].document == s.chunks[k].document
  {
    hide SubjectRefs, DocumentRefs, ContentRefs, ChunkPositions, JobRefs, UniqueRevisions;
    var p := PageKey(s.chunks[k].content, s.chunks[k].pageNumber);
    assert ChunkRef(s.indexes, s.pages, s.chunks[k]);
    assert IndexRef(s.spaces, s.contents, s.indexes[s.chunks[k].index]);
    assert PageRef(s.contents, p, s.pages[p]);
  }

  // Statement by statement: an unmoved stamp leaves every chunk as it was shown

  /** Statements on users, spaces, Subjects and documents reach no chunk, and a Subject's space only with its stamp. */
  lemma OwnerKeepsShown(s: Db, t: Db, q: Statement, subject: Id, k: Id)
    requires Refs(s) && Refs(t) && Attempt(s, q) == Some(t) && OnOwner(q) && SameStamp(s, t, subject)
    ensures SameShown(s, t, subject, k)
  {
    hide Attempt, Eligible, Refs, ChunkRef, SameShown, OnOwner;
    OwnerStatementEffect(s, q);
    OwnerKeepsSpace(s, q, subject);
    if k !in s.chunks || s.chunks[k].subject != subject {
      ElsewhereKeepsShown(s, t, subject, k);
    } else {
      EligibleMeans(s, k);
      ChunkPageThere(s, k);
      SurroundingsDecide(s, t, subject, k);
    }
  }

  lemma OwnerKeepsSpace(s: Db, q: Statement, subject: Id)
    requires Attempt(s, q).Some? && OnOwner(q) && SameStamp(s, Attempt(s, q).value, subject)
    ensures Attempt(s, q).value.subjects[subject].activeSpace == s.subjects[subject].activeSpace
  {
    hide AdjustUsage, DocumentCheck, SubjectCheck, SpaceKnown;
    hide InsertContent, UpdateContent, InsertPage, UpdatePage, DeletePage, InsertIndex;
    hide DeleteContent, UpdateIndex, DeleteIndex, DeleteDocument, DeleteSubject, InsertJob, UpdateJob, DeleteJob, InsertChunk, UpdateChunk, DeleteChunk;
  }

  predicate OnCapture(q: Statement) {
    q.AddContent? || q.AddPage? || q.EditPage? || q.DropPage? || q.AddIndex?
  }

  /** Statements that capture content leave captured content, its pages, and every index and chunk there is. */
  lemma CaptureLeaves(s: Db, t: Db, q: Statement, page: PageKey)
    requires Attempt(s, q) == Some(t) && OnCapture(q)
    requires page in s.pages && page.content in s.contents && s.contents[page.content].status != Processing
    ensures t.subjects == s.subjects && t.chunks == s.chunks && forall x :: x in s.indexes ==> x in t.indexes && t.indexes[x] == s.indexes[x]
    ensures page.content in t.contents && t.contents[page.content] == s.contents[page.content]
    ensures page in t.pages && t.pages[page] == s.pages[page]
  {
    hide AdjustUsage, Charged, ContentCheck, IndexCheck, PageCheck, UniqueContent, UniqueIndex, ContentsOf, IndexesOf, Utf8Length;
    hide InsertSpace, DeleteSpace, InsertSubject, UpdateSubject, InsertDocument, UpdateDocument, DeleteDocument, DeleteSubject, UpdateContent;
    hide DeleteContent, UpdateIndex, DeleteIndex, InsertJob, UpdateJob, DeleteJob, InsertChunk, UpdateChunk, DeleteChunk;
  }

  /** So they reach no page under a chunk, no live content and no serving index. */
  lemma CaptureKeepsShown(s: Db, t: Db, q: Statement, subject: Id, k: Id)
    requires Refs(s) && Refs(t) && Attempt(s, q) == Some(t) && OnCapture(q) && SameStamp(s, t, subject)
    ensures SameShown(s, t, subject, k)
  {
    hide Eligible, Refs, ChunkRef, Attempt;
    if k !in s.chunks || s.chunks[k].subject != subject {
      CaptureLeavesChunks(s, q);
      ElsewhereKeepsShown(s, t, subject, k);
    } else {
      EligibleMeans(s, k);
      ChunkPageThere(s, k);
      ChunkPageSettled(s, k);
      CaptureLeaves(s, t, q, PageKey(s.chunks[k].content, s.chunks[k].pageNumber));
      SurroundingsDecide(s, t, subject, k);
    }
  }

  lemma JobKeepsShown(s: Db, t: Db, subject: Id, k: Id)
    requires t == s.(jobs := t.jobs)
    ensures SameShown(s, t, subject, k)
  {
  }

  lemma UpdateContentKeepsShown(s: Db, t: Db, id: Id, row: Content, subject: Id, k: Id)
    requires Refs(s) && Refs(t) && UpdateContent(s, id, row, false) == Some(t) && SameStamp(s, t, subject)
    ensures SameShown(s, t, subject, k)
  {
    hide Eligible, Refs, AdjustUsage, Charged, ContentCheck, IndexCheck, ChunkCheck, PageCheck, DocumentCheck, SubjectCheck, ChunkRef;
    if k !in s.chunks || s.chunks[k].subject != subject {
      ElsewhereKeepsShown(s, t, subject, k);
    } else {
      EligibleMeans(s, k);
      ChunkPageThere(s, k);
      BumpMoves(s.subjects, row.subject, ContentBump(s.contents[id], row), subject);
      if s.chunks[k].content == id {
        assert s.contents[id].Live() == row.Live();
      }
      SurroundingsDecide(s, t, subject, k);
    }
  }

  lemma UpdateIndexKeepsShown(s: Db, t: Db, id: Id, row: Index, subject: Id, k: Id)
    requires Refs(s) && Refs(t) && UpdateIndex(s, id, row, false) == Some(t) && SameStamp(s, t, subject)
    ensures SameShown(s, t, subject, k)
  {
    hide Eligible, Refs, AdjustUsage, Charged, ContentCheck, IndexCheck, ChunkCheck, PageCheck, DocumentCheck, SubjectCheck, ChunkRef;
    if k !in s.chunks || s.chunks[k].subject != subject {
      ElsewhereKeepsShown(s, t, subject, k);
    } else {
      EligibleMeans(s, k);
      EligibleMeans(t, k);
      ChunkPageThere(s, k);
      BumpMoves(s.subjects, row.subject, IndexBump(s, s.indexes[id], row), subject);
    }
  }

  lemma InsertChunkKeepsShown(s: Db, t: Db, id: Id, row: Chunk, subject: Id, k: Id)
    requires Refs(s) && Refs(t) && InsertChunk(s, id, row) == Some(t) && SameStamp(s, t, subject)
    ensures SameShown(s, t, subject, k)
  {
    hide Eligible, Refs, AdjustUsage, Charged, ContentCheck, IndexCheck, ChunkCheck, PageCheck, DocumentCheck, SubjectCheck, ChunkRef;
    if k != id {
      if k !in s.chunks || s.chunks[k].subject != subject {
        ElsewhereKeepsShown(s, t, subject, k);
      } else {
        EligibleMeans(s, k);
        ChunkPageThere(s, k);
        SurroundingsDecide(s, t, subject, k);
      }
    } else {
      NotThere(s, id);
      EligibleMeans(t, id);
    }
  }

  lemma UpdateChunkKeepsShown(s: Db, t: Db, id: Id, row: Chunk, subject: Id, k: Id)
    requires Refs(s) && Refs(t) && UpdateChunk(s, id, row) == Some(t) && SameStamp(s, t, subject)
    ensures SameShown(s, t, subject, k)
  {
    hide Eligible, Refs, AdjustUsage, Charged, ContentCheck, IndexCheck, ChunkCheck, PageCheck, DocumentCheck, SubjectCheck, ChunkRef;
    if k != id {
      if k !in s.chunks || s.chunks[k].subject != subject {
        ElsewhereKeepsShown(s, t, subject, k);
      } else {
        EligibleMeans(s, k);
        ChunkPageThere(s, k);
        SurroundingsDecide(s, t, subject, k);
      }
    } else {
      EligibleMeans(s, id);
      EligibleMeans(t, id);
    }
  }

  lemma DeleteChunkKeepsShown(s: Db, t: Db, id: Id, subject: Id, k: Id)
    requires Refs(s) && Refs(t) && DeleteChunk(s, id) == Some(t) && SameStamp(s, t, subject)
    ensures SameShown(s, t, subject, k)
  {
    hide Eligible, Refs, AdjustUsage, Charged, ContentCheck, IndexCheck, ChunkCheck, PageCheck, DocumentCheck, SubjectCheck, ChunkRef;
    if k != id {
      if k !in s.chunks || s.chunks[k].subject != subject {
        ElsewhereKeepsShown(s, t, subject, k);
      } else {
        EligibleMeans(s, k);
        ChunkPageThere(s, k);
        SurroundingsDecide(s, t, subject, k);
      }
    } else {
      EligibleMeans(s, id);
      NotThere(t, id);
    }
  }

  lemma DeleteIndexKeepsShown(s: Db, t: Db, id: Id, subject: Id, k: Id)
    requires Refs(s) && Refs(t) && DeleteIndex(s, id) == Some(t) && SameStamp(s, t, subject)
    ensures SameShown(s, t, subject, k)
  {
    hide Eligible, Refs, AdjustUsage, Charged, ContentCheck, IndexCheck, ChunkCheck, PageCheck, DocumentCheck, SubjectCheck, ChunkRef;
    if k !in s.chunks || s.chunks[k].subject != subject {
      ElsewhereKeepsShown(s, t, subject, k);
    } else {
      EligibleMeans(s, k);
      ChunkPageThere(s, k);
      BumpMoves(s.subjects, s.indexes[id].subject, if Exposed(s.subjects, s.contents, s.indexes[id]) && s.indexes[id].Serving() then 1 else 0, subject);
      if s.chunks[k].index == id {
        NotThere(t, k);
      } else {
        SurroundingsDecide(s, t, subject, k);
      }
    }
  }

  lemma DeleteContentKeepsShown(s: Db, t: Db, id: Id, subject: Id, k: Id)
    requires Refs(s) && Refs(t) && DeleteContent(s, id) == Some(t) && SameStamp(s, t, subject)
    ensures SameShown(s, t, subject, k)
  {
    hide Eligible, Refs, AdjustUsage, Charged, ContentCheck, IndexCheck, ChunkCheck, PageCheck, DocumentCheck, SubjectCheck, ChunkRef;
    if k !in s.chunks || s.chunks[k].subject != subject {
      ElsewhereKeepsShown(s, t, subject, k);
    } else {
      EligibleMeans(s, k);
      ChunkPageThere(s, k);
      BumpMoves(s.subjects, s.contents[id].subject, if s.contents[id].Live() then 1 else 0, subject);
      if s.chunks[k].content == id {
        NotThere(t, k);
      } else {
        SurroundingsDecide(s, t, subject, k);
      }
    }
  }

  lemma DeleteDocumentKeepsShown(s: Db, t: Db, id: Id, subject: Id, k: Id)
    requires Refs(s) && Refs(t) && DeleteDocument(s, id) == Some(t) && SameStamp(s, t, subject)
    ensures SameShown(s, t, subject, k)
  {
    hide Eligible, Refs, AdjustUsage, Charged, ContentCheck, IndexCheck, ChunkCheck, PageCheck, DocumentCheck, SubjectCheck, ChunkRef;
    if k !in s.chunks || s.chunks[k].subject != subject {
      ElsewhereKeepsShown(s, t, subject, k);
    } else {
      EligibleMeans(s, k);
      ChunkPageThere(s, k);
      BumpMoves(s.subjects, s.documents[id].subject, |LiveContents(s.contents, id)|, subject);
      if s.chunks[k].document == id {
        NotThere(t, k);
        LiveContentCounts(s.contents, s.chunks[k].content);
      } else {
        PageDocument(s, k);
        SurroundingsDecide(s, t, subject, k);
      }
    }
  }

  // Steps and runs

  lemma UnmovedView(s: Db, q: Statement, subject: Id)
    requires Inv(s) && Attempt(s, q).Some? && !q.DropSubject? && SameStamp(s, Attempt(s, q).value, subject)
    ensures View(s, subject) == View(Attempt(s, q).value, subject)
  {
    hide Inv, Attempt, SameShown, Refs;
    var t := Attempt(s, q).value;
    StepKeepsInv(s, q);
    assert Refs(s) && Refs(t) by {
      InvGivesRefs(s);
      InvGivesRefs(t);
    }
    forall k ensures SameShown(s, t, subject, k) {
      UnmovedChunk(s, t, q, subject, k);
    }
    SameView(s, t, subject);
  }

  lemma BumpingLeavesChunk(s: Db, t: Db, q: Statement, subject: Id, k: Id)
    requires Refs(s) && Refs(t) && Attempt(s, q) == Some(t) && SameStamp(s, t, subject) && Bumps(q)
    ensures SameShown(s, t, subject, k)
  {
    hide Refs, SameShown, InsertSubject, UpdateSubject, InsertDocument, UpdateDocument, DeleteDocument, DeleteSubject;
    hide InsertContent, UpdateContent, DeleteContent, InsertPage, UpdatePage, DeletePage;
    hide InsertIndex, UpdateIndex, DeleteIndex, InsertChunk, UpdateChunk, DeleteChunk;
    hide InsertJob, UpdateJob, DeleteJob, InsertSpace, DeleteSpace;
    match q {
      case EditContent(id, row) => UpdateContentKeepsShown(s, t, id, row, subject, k);
      case DropContent(id) => DeleteContentKeepsShown(s, t, id, subject, k);
      case EditIndex(id, row) => UpdateIndexKeepsShown(s, t, id, row, subject, k);
      case DropIndex(id) => DeleteIndexKeepsShown(s, t, id, subject, k);
      case DropDocument(id) => DeleteDocumentKeepsShown(s, t, id, subject, k);
    }
  }

  lemma ChunkLeavesChunk(s: Db, t: Db, q: Statement, subject: Id, k: Id)
    requires Refs(s) && Refs(t) && Attempt(s, q) == Some(t) && SameStamp(s, t, subject) && OnChunk(q)
    ensures SameShown(s, t, subject, k)
  {
    hide Refs, SameShown, InsertSubject, UpdateSubject, InsertDocument, UpdateDocument, DeleteDocument, DeleteSubject;
    hide InsertContent, UpdateContent, DeleteContent, InsertPage, UpdatePage, DeletePage;
    hide InsertIndex, UpdateIndex, DeleteIndex, InsertChunk, UpdateChunk, DeleteChunk;
    hide InsertJob, UpdateJob, DeleteJob, InsertSpace, DeleteSpace;
    match q {
      case AddChunk(id, row) => InsertChunkKeepsShown(s, t, id, row, subject, k);
      case EditChunk(id, row) => UpdateChunkKeepsShown(s, t, id, row, subject, k);
      case DropChunk(id) => DeleteChunkKeepsShown(s, t, id, subject, k);
    }
  }

  lemma UnmovedChunk(s: Db, t: Db, q: Statement, subject: Id, k: Id)
    requires Refs(s) && Refs(t) && Attempt(s, q) == Some(t) && !q.DropSubject? && SameStamp(s, t, subject)
    ensures SameShown(s, t, subject, k)
  {
    hide Refs, SameShown, Attempt;
    if Bumps(q) {
      BumpingLeavesChunk(s, t, q, subject, k);
    } else if OnChunk(q) {
      ChunkLeavesChunk(s, t, q, subject, k);
    } else if OnCapture(q) {
      CaptureKeepsShown(s, t, q, subject, k);
    } else if OnOwner(q) {
      OwnerKeepsShown(s, t, q, subject, k);
    } else {
      JobStatementEffect(s, q);
      JobKeepsShown(s, t, subject, k);
    }
  }

  /** The statements whose triggers bump a stamp. */
  predicate Bumps(q: Statement) {
    q.EditContent? || q.DropContent? || q.EditIndex? || q.DropIndex? || q.DropDocument?
  }

  lemma BumpRises(subjects: map<Id, Subject>, at: Id, times: nat, subject: Id)
    requires subject in subjects
    ensures subject in Bump(subjects, at, times)
    ensures subjects[subject].corpusRevision <= Bump(subjects, at, times)[subject].corpusRevision
  {
  }

  lemma BumpingStampRises(s: Db, q: Statement, subject: Id)
    requires Attempt(s, q).Some? && subject in s.subjects && Bumps(q)
    ensures subject in Attempt(s, q).value.subjects
    ensures s.subjects[subject].corpusRevision <= Attempt(s, q).value.subjects[subject].corpusRevision
  {
    hide AdjustUsage, Charged, ContentCheck, IndexCheck, ChunkCheck, PageCheck, DocumentCheck, SubjectCheck, JobCheck;
    hide UniqueContent, UniqueIndex, UniqueJob, JobGuard, HasReadyIndex, IndexBump, ContentBump, Exposed, Utf8Length, ChunkBytes;
    hide ContentsOf, IndexesOf, IndexesOfContent, LiveContents, SameContentIdentity, SameIndexIdentity, Bump;
    hide InsertContent, InsertPage, UpdatePage, DeletePage, InsertIndex, InsertChunk, UpdateChunk, DeleteChunk, InsertJob, UpdateJob, DeleteJob;
    forall at, times: nat ensures subject in Bump(s.subjects, at, times)
                         && s.subjects[subject].corpusRevision <= Bump(s.subjects, at, times)[subject].corpusRevision
    {
      BumpRises(s.subjects, at, times, subject);
    }
  }

  lemma OwnerStampStays(s: Db, q: Statement, subject: Id)
    requires Attempt(s, q).Some? && subject in s.subjects && OnOwner(q)
    ensures subject in Attempt(s, q).value.subjects
    ensures s.subjects[subject].corpusRevision <= Attempt(s, q).value.subjects[subject].corpusRevision
  {
    hide AdjustUsage, DocumentCheck, SubjectCheck, SpaceKnown;
    hide InsertContent, UpdateContent, InsertPage, UpdatePage, DeletePage, InsertIndex;
    hide DeleteContent, UpdateIndex, DeleteIndex, DeleteDocument, DeleteSubject, InsertJob, UpdateJob, DeleteJob, InsertChunk, UpdateChunk, DeleteChunk;
  }

  lemma CaptureLeavesChunks(s: Db, q: Statement)
    requires Attempt(s, q).Some? && OnCapture(q)
    ensures Attempt(s, q).value.subjects == s.subjects && Attempt(s, q).value.chunks == s.chunks
  {
    hide AdjustUsage, Charged, ContentCheck, IndexCheck, PageCheck, UniqueContent, UniqueIndex, ContentsOf, IndexesOf, Utf8Length;
    hide InsertSpace, DeleteSpace, InsertSubject, UpdateSubject, InsertDocument, UpdateDocument, UpdateContent;
    hide DeleteContent, UpdateIndex, DeleteIndex, DeleteDocument, DeleteSubject, InsertJob, UpdateJob, DeleteJob, InsertChunk, UpdateChunk, DeleteChunk;
  }

  lemma OtherStampStays(s: Db, q: Statement, subject: Id)
    requires Attempt(s, q).Some? && subject in s.subjects && !Bumps(q) && !q.DropSubject?
    ensures subject in Attempt(s, q).value.subjects
    ensures s.subjects[subject].corpusRevision <= Attempt(s, q).value.subjects[subject].corpusRevision
  {
    hide Attempt;
    if OnJob(q) {
      JobStatementEffect(s, q);
    } else if OnChunk(q) {
      ChunkStatementEffect(s, q);
    } else if OnOwner(q) {
      OwnerStampStays(s, q, subject);
    } else {
      CaptureLeavesChunks(s, q);
    }
  }

  /** No admitted statement lowers a Subject's stamp, and only deleting the Subject takes the stamp away. */
  lemma StampNeverFalls(s: Db, q: Statement, subject: Id)
    requires Attempt(s, q).Some? && subject in s.subjects && !q.DropSubject?
    ensures subject in Attempt(s, q).value.subjects
    ensures s.subjects[subject].corpusRevision <= Attempt(s, q).value.subjects[subject].corpusRevision
  {
    hide Attempt;
    if Bumps(q) {
      BumpingStampRises(s, q, subject);
    } else {
      OtherStampStays(s, q, subject);
    }
  }

  lemma StampedTransitive(a: Db, b: Db, c: Db, subject: Id)
    requires Stamped(a, b, subject) && Stamped(b, c, subject)
    ensures Stamped(a, c, subject)
  {
    hide View;
  }

  lemma StatementStamps(s: Db, q: Statement, subject: Id)
    requires Inv(s) && subject in s.subjects && !q.DropSubject?
    ensures Stamped(s, Execute(s, q), subject)
  {
    hide Inv, Attempt, View;
    if Attempt(s, q).Some? {
      StampNeverFalls(s, q, subject);
      if SameStamp(s, Attempt(s, q).value, subject) {
        UnmovedView(s, q, subject);
      }
    }
  }

  lemma {:induction false} DocumentsStamp(s: Db, order: seq<Id>, subject: Id)
    requires Inv(s) && subject in s.subjects && DeleteDocuments(s, order).Some?
    ensures Stamped(s, DeleteDocuments(s, order).value, subject)
    decreases |order|
  {
    hide Inv, View, DeleteDocument;
    if order != [] {
      var q := DropDocument(order[0]);
      var next := DeleteDocument(s, order[0]).value;
      assert Attempt(s, q) == DeleteDocument(s, order[0]);
      StepKeepsInv(s, q);
      StatementStamps(s, q, subject);
      DocumentsStamp(next, order[1..], subject);
      StampedTransitive(s, next, DeleteDocuments(s, order).value, subject);
    }
  }

  /** Deleting one Subject leaves the views of the others alone unless it moves their stamps. */
  lemma DropSubjectStamps(s: Db, id: Id, order: seq<Id>, subject: Id)
    requires Inv(s) && subject in s.subjects && subject != id && DeleteSubject(s, id, order).Some?
    ensures Stamped(s, DeleteSubject(s, id, order).value, subject)
  {
    hide Inv, View, DeleteDocuments;
    var rest, t := DeleteDocuments(s, order).value, DeleteSubject(s, id, order).value;
    DocumentsStamp(s, order, subject);
    forall k ensures SameShown(rest, t, subject, k) {
      OtherSubjectKeepsShown(rest, t, id, subject, k);
    }
    SameView(rest, t, subject);
    StampedTransitive(s, rest, t, subject);
  }

  lemma OtherSubjectKeepsShown(s: Db, t: Db, id: Id, subject: Id, k: Id)
    requires t == s.(subjects := s.subjects - {id}) && subject != id
    ensures SameShown(s, t, subject, k)
  {
  }

  /** One statement of any kind, admitted or refused, that is not the deletion of this Subject. */
  lemma StepStamps(s: Db, q: Statement, subject: Id)
    requires Inv(s) && subject in s.subjects
    requires q.DropSubject? ==> q.id != subject
    ensures Stamped(s, Execute(s, q), subject)
  {
    hide Inv, View, DeleteSubject;
    if q.DropSubject? {
      assert Attempt(s, q) == DeleteSubject(s, q.id, q.order);
      if Attempt(s, q).Some? {
        DropSubjectStamps(s, q.id, q.order, subject);
      }
    } else {
      hide Attempt;
      StatementStamps(s, q, subject);
    }
  }

  /**
   * The stamp is sound over runs. From any reachable state, through any further statements that do not
   * delete the Subject, its stamp never falls; and if the stamp is the same at the end as at the start,
   * so is everything its readers may cite.
   */
  lemma {:induction false} SoundStamp(start: seq<Statement>, more: seq<Statement>, subject: Id)
    requires subject in Run(EMPTY_DB, start).subjects
    requires forall i :: 0 <= i < |more| && more[i].DropSubject? ==> more[i].id != subject
    ensures Stamped(Run(EMPTY_DB, start), Run(EMPTY_DB, start + more), subject)
    decreases |more|
  {
    hide Inv, View, Execute;
    var s := Run(EMPTY_DB, start);
    if more == [] {
      assert start + more == start;
    } else {
      var n := |more| - 1;
      SoundStamp(start, more[..n], subject);
      var mid := Run(EMPTY_DB, start + more[..n]);
      ReachableInv(start + more[..n]);
      StepStamps(mid, more[n], subject);
      assert (start + more)[..|start + more| - 1] == start + more[..n];
      StampedTransitive(s, mid, Run(EMPTY_DB, start + more), subject);
    }
  }

  // What the stamp is worth: a document has one source at a time

  /** All eligible chunks of a document come from one content revision and one index revision. */
  lemma OneSourcePerDocument(s: Db, k: Id, l: Id)
    requires Inv(s) && Eligible(s, k) && Eligible(s, l) && s.chunks[k].document == s.chunks[l].document
    ensures s.chunks[k].content == s.chunks[l].content && s.chunks[k].index == s.chunks[l].index
  {
    hide Measures, Counters, SubjectRefs, DocumentRefs, ContentRefs, PageRefs, IndexRefs, JobRefs, ChunkRefs, ChunkPositions;
    var a, b := s.chunks[k], s.chunks[l];
    assert UniqueContents(s.contents) && UniqueIndexes(s.indexes);
  }
}
