/**
 * Captured pages are frozen once their content leaves `processing`, indexed chunks once their index is
 * ready, and a finished revision has exactly the positions it reserved unless a reservation was lowered.
 */
module FrozenContent {
  import opened Prelude
  import opened MapSums
  import opened FiniteSets
  import opened KnowledgeTables
  import opened KnowledgeStatements
  import opened KnowledgeEffects
  import opened KnowledgeInvariants
  import opened KnowledgeRuns
  import opened IndexJobs

  ghost function PageRows(pages: map<PageKey, Page>, content: Id): map<PageKey, Page> {
    map p | p in pages && p.content == content :: pages[p]
  }

  ghost function ChunkRows(chunks: map<Id, Chunk>, index: Id): map<Id, Chunk> {
    map k | k in chunks && chunks[k].index == index :: chunks[k]
  }

  predicate Captured(s: Db, content: Id) {
    content in s.contents && s.contents[content].status != Processing
  }

  predicate Indexed(s: Db, index: Id) {
    index in s.indexes && s.indexes[index].status == IndexReady
  }

  // Steps

  lemma {:induction false} DocumentsKeepCapture(s: Db, order: seq<Id>, c: Id, x: Id)
    requires Inv(s) && DeleteDocuments(s, order).Some?
    ensures var t := DeleteDocuments(s, order).value;
            && (Captured(s, c) && c in t.contents ==> Captured(t, c) && PageRows(t.pages, c) == PageRows(s.pages, c))
            && (Indexed(s, x) && x in t.indexes ==> Indexed(t, x) && ChunkRows(t.chunks, x) == ChunkRows(s.chunks, x))
            && (c in t.contents ==> c in s.contents) && (x in t.indexes ==> x in s.indexes)
    decreases |order|
  {
    hide Inv, Refs, DeleteDocument, PageRows, ChunkRows;
    if order != [] {
      var q := DropDocument(order[0]);
      assert Attempt(s, q) == DeleteDocument(s, order[0]);
      var next := DeleteDocument(s, order[0]).value;
      StepKeepsInv(s, q);
      assert Execute(s, q) == next;
      InvGivesRefs(s);
      DocumentKeepsCapture(s, order[0], c, x);
      DocumentsKeepCapture(next, order[1..], c, x);
    }
  }

  lemma DocumentKeepsCapture(s: Db, id: Id, c: Id, x: Id)
    requires Refs(s) && DeleteDocument(s, id).Some?
    ensures var t := DeleteDocument(s, id).value;
            && (Captured(s, c) && c in t.contents ==> Captured(t, c) && PageRows(t.pages, c) == PageRows(s.pages, c))
            && (Indexed(s, x) && x in t.indexes ==> Indexed(t, x) && ChunkRows(t.chunks, x) == ChunkRows(s.chunks, x))
            && (c in t.contents ==> c in s.contents) && (x in t.indexes ==> x in s.indexes)
  {
    hide AdjustUsage, Charged, Bump, LiveContents, SubjectRefs, DocumentRefs, ContentRefs, IndexRefs, JobRefs, ChunkPositions;
    hide UniqueRevisions, ContentCheck, IndexCheck, ChunkCheck, PageCheck;
    var t := DeleteDocument(s, id).value;
    if c in t.contents {
      forall p | p in s.pages && p.content == c ensures p in t.pages {
        assert PageRef(s.contents, p, s.pages[p]);
      }
    }
    if x in t.indexes {
      forall k | k in s.chunks && s.chunks[k].index == x ensures k in t.chunks {
        assert ChunkRef(s.indexes, s.pages, s.chunks[k]);
      }
    }
  }

  lemma ContentDropKeepsCapture(s: Db, id: Id, c: Id, x: Id)
    requires Refs(s) && DeleteContent(s, id).Some?
    ensures var t := DeleteContent(s, id).value;
            && (Captured(s, c) && c in t.contents ==> Captured(t, c) && PageRows(t.pages, c) == PageRows(s.pages, c))
            && (Indexed(s, x) && x in t.indexes ==> Indexed(t, x) && ChunkRows(t.chunks, x) == ChunkRows(s.chunks, x))
  {
    hide AdjustUsage, Charged, Bump, SubjectRefs, DocumentRefs, ContentRefs, IndexRefs, JobRefs, ChunkPositions, PageRefs;
    hide UniqueRevisions, ContentCheck, IndexCheck, ChunkCheck, PageCheck, IndexesOfContent, Total;
    var t := DeleteContent(s, id).value;
    if x in t.indexes {
      forall k | k in s.chunks && s.chunks[k].index == x ensures k in t.chunks {
        assert ChunkRef(s.indexes, s.pages, s.chunks[k]);
      }
    }
  }

  lemma ContentStatementKeepsCapture(s: Db, q: Statement, c: Id)
    requires Attempt(s, q).Some? && OnContent(q) && Captured(s, c) && c in Attempt(s, q).value.contents
    ensures Captured(Attempt(s, q).value, c) && PageRows(Attempt(s, q).value.pages, c) == PageRows(s.pages, c)
  {
    hide AdjustUsage, Charged, ContentCheck, IndexCheck, ChunkCheck, PageCheck, UniqueContent, UniqueIndex, HasReadyIndex;
    hide IndexBump, ContentBump, Exposed, Utf8Length, ChunkBytes, Bump, ContentsOf, IndexesOf, SameContentIdentity, SameIndexIdentity;
    hide InsertSpace, DeleteSpace, InsertSubject, UpdateSubject, InsertDocument, UpdateDocument, DeleteDocument, DeleteSubject;
    hide DeleteContent, InsertJob, UpdateJob, DeleteJob, Embedded;
    hide InsertIndex, UpdateIndex, DeleteIndex, InsertChunk, UpdateChunk, DeleteChunk;
  }

  lemma IndexStatementKeepsIndexed(s: Db, q: Statement, x: Id)
    requires Attempt(s, q).Some? && OnIndex(q) && Indexed(s, x) && x in Attempt(s, q).value.indexes
    ensures Indexed(Attempt(s, q).value, x) && ChunkRows(Attempt(s, q).value.chunks, x) == ChunkRows(s.chunks, x)
  {
    hide AdjustUsage, Charged, ContentCheck, IndexCheck, ChunkCheck, PageCheck, UniqueContent, UniqueIndex, HasReadyIndex;
    hide IndexBump, ContentBump, Exposed, Utf8Length, ChunkBytes, Bump, ContentsOf, IndexesOf, SameContentIdentity, SameIndexIdentity;
    hide InsertSpace, DeleteSpace, InsertSubject, UpdateSubject, InsertDocument, UpdateDocument, DeleteDocument, DeleteSubject;
    hide DeleteContent, InsertJob, UpdateJob, DeleteJob, Embedded;
    hide InsertContent, UpdateContent, InsertPage, UpdatePage, DeletePage, InsertChunk, UpdateChunk, DeleteChunk;
  }

  /** A chunk row moves only under an index that is not ready, and no other index row moves with it. */
  ghost predicate MovesUnder(s: Db, t: Db, at: Id) {
    && at in s.indexes && s.indexes[at].status != IndexReady
    && at in t.indexes && t.indexes == s.indexes[at := t.indexes[at]]
    && (forall k :: k in s.chunks && s.chunks[k].index != at ==> k in t.chunks && t.chunks[k] == s.chunks[k])
    && (forall k :: k in t.chunks && t.chunks[k].index != at ==> k in s.chunks && s.chunks[k] == t.chunks[k])
  }

  lemma InsertChunkMoves(s: Db, id: Id, row: Chunk)
    requires InsertChunk(s, id, row).Some?
    ensures MovesUnder(s, InsertChunk(s, id, row).value, row.index)
  {
    hide IndexCheck, ChunkCheck, ChunkBytes, Embedded, Filled;
  }

  lemma UpdateChunkMoves(s: Db, id: Id, row: Chunk)
    requires UpdateChunk(s, id, row).Some?
    ensures MovesUnder(s, UpdateChunk(s, id, row).value, row.index)
  {
    hide IndexCheck, ChunkCheck, ChunkBytes, Embedded, Filled;
  }

  lemma DeleteChunkMoves(s: Db, id: Id)
    requires DeleteChunk(s, id).Some?
    ensures id in s.chunks && MovesUnder(s, DeleteChunk(s, id).value, s.chunks[id].index)
  {
    hide IndexCheck, ChunkCheck, ChunkBytes, Embedded, Filled;
  }

  lemma MoveKeepsIndexed(s: Db, t: Db, at: Id, x: Id)
    requires MovesUnder(s, t, at) && Indexed(s, x)
    ensures Indexed(t, x) && ChunkRows(t.chunks, x) == ChunkRows(s.chunks, x)
  {
  }

  lemma ChunkStatementKeepsIndexed(s: Db, q: Statement, x: Id)
    requires Attempt(s, q).Some? && OnChunk(q) && Indexed(s, x)
    ensures Indexed(Attempt(s, q).value, x) && ChunkRows(Attempt(s, q).value.chunks, x) == ChunkRows(s.chunks, x)
  {
    hide MovesUnder, Indexed, ChunkRows, InsertChunk, UpdateChunk, DeleteChunk;
    match q {
      case AddChunk(id, row) =>
        InsertChunkMoves(s, id, row);
        MoveKeepsIndexed(s, InsertChunk(s, id, row).value, row.index, x);
      case EditChunk(id, row) =>
        UpdateChunkMoves(s, id, row);
        MoveKeepsIndexed(s, UpdateChunk(s, id, row).value, row.index, x);
      case DropChunk(id) =>
        DeleteChunkMoves(s, id);
        MoveKeepsIndexed(s, DeleteChunk(s, id).value, s.chunks[id].index, x);
    }
  }

  lemma IndexDropKeepsPages(s: Db, q: Statement)
    requires Attempt(s, q).Some? && q.DropIndex?
    ensures Attempt(s, q).value.pages == s.pages && Attempt(s, q).value.contents == s.contents
  {
    hide AdjustUsage, Charged, ContentCheck, IndexCheck, ChunkCheck, PageCheck, UniqueContent, UniqueIndex, HasReadyIndex;
    hide IndexBump, ContentBump, Exposed, Utf8Length, ChunkBytes, Bump, ContentsOf, IndexesOf, SameContentIdentity, SameIndexIdentity;
    hide InsertSpace, DeleteSpace, InsertSubject, UpdateSubject, InsertDocument, UpdateDocument, DeleteDocument, DeleteSubject;
    hide DeleteContent, InsertJob, UpdateJob, DeleteJob, Embedded;
    hide InsertContent, UpdateContent, InsertPage, UpdatePage, DeletePage, InsertIndex, UpdateIndex, InsertChunk, UpdateChunk, DeleteChunk;
  }

  /** Statements on one revision, page, chunk or index keep what is captured and what is indexed. */
  lemma RowStatementKeepsCapture(s: Db, q: Statement, c: Id, x: Id)
    requires Attempt(s, q).Some? && !q.DropSubject? && !q.DropDocument? && !q.DropContent?
    ensures var t := Attempt(s, q).value;
            && (Captured(s, c) && c in t.contents ==> Captured(t, c) && PageRows(t.pages, c) == PageRows(s.pages, c))
            && (Indexed(s, x) && x in t.indexes ==> Indexed(t, x) && ChunkRows(t.chunks, x) == ChunkRows(s.chunks, x))
  {
    hide Attempt, PageRows, ChunkRows;
    var t := Attempt(s, q).value;
    if OnContent(q) {
      ContentStatementEffect(s, q);
      if Captured(s, c) && c in t.contents { ContentStatementKeepsCapture(s, q, c); }
    } else if OnIndex(q) || OnChunk(q) {
      if q.DropIndex? {
        IndexDropKeepsPages(s, q);
      } else if OnIndex(q) {
        IndexStatementEffect(s, q);
      } else {
        ChunkStatementEffect(s, q);
      }
      if Indexed(s, x) && x in t.indexes {
        if OnIndex(q) { IndexStatementKeepsIndexed(s, q, x); } else { ChunkStatementKeepsIndexed(s, q, x); }
      }
    } else if OnJob(q) {
      JobStatementEffect(s, q);
    } else {
      OwnerStatementEffect(s, q);
    }
  }

  lemma SubjectDropKeepsCapture(s: Db, id: Id, order: seq<Id>, c: Id, x: Id)
    requires Inv(s) && DeleteSubject(s, id, order).Some?
    ensures var t := DeleteSubject(s, id, order).value;
            && (Captured(s, c) && c in t.contents ==> Captured(t, c) && PageRows(t.pages, c) == PageRows(s.pages, c))
            && (Indexed(s, x) && x in t.indexes ==> Indexed(t, x) && ChunkRows(t.chunks, x) == ChunkRows(s.chunks, x))
  {
    hide Inv, Refs, DeleteDocuments;
    InvGivesRefs(s);
    DocumentsKeepCapture(s, order, c, x);
  }

  /** No statement touches captured pages or indexed chunks, short of removing the revision they belong to. */
  lemma StepKeepsCapture(s: Db, q: Statement, c: Id, x: Id)
    requires Inv(s)
    ensures var t := Execute(s, q);
            && (Captured(s, c) && c in t.contents ==> Captured(t, c) && PageRows(t.pages, c) == PageRows(s.pages, c))
            && (Indexed(s, x) && x in t.indexes ==> Indexed(t, x) && ChunkRows(t.chunks, x) == ChunkRows(s.chunks, x))
  {
    hide Inv, Refs, PageRows, ChunkRows, DeleteSubject, DeleteDocument, DeleteContent;
    InvGivesRefs(s);
    if q.DropSubject? {
      assert Attempt(s, q) == DeleteSubject(s, q.id, q.order);
      if Attempt(s, q).Some? { SubjectDropKeepsCapture(s, q.id, q.order, c, x); }
    } else if q.DropDocument? {
      assert Attempt(s, q) == DeleteDocument(s, q.id);
      if Attempt(s, q).Some? { DocumentKeepsCapture(s, q.id, c, x); }
    } else if q.DropContent? {
      assert Attempt(s, q) == DeleteContent(s, q.id);
      if Attempt(s, q).Some? { ContentDropKeepsCapture(s, q.id, c, x); }
    } else {
      hide Attempt;
      if Attempt(s, q).Some? { RowStatementKeepsCapture(s, q, c, x); }
    }
  }

  // Runs

  ghost predicate ContentStays(start: seq<Statement>, more: seq<Statement>, c: Id) {
    forall i :: 0 <= i <= |more| ==> c in Run(EMPTY_DB, start + more[..i]).contents
  }

  ghost predicate IndexStays(start: seq<Statement>, more: seq<Statement>, x: Id) {
    forall i :: 0 <= i <= |more| ==> x in Run(EMPTY_DB, start + more[..i]).indexes
  }

  /**
   * Over any stretch of any run that does not remove it, captured content keeps exactly its pages: none is
   * added, removed or changed, whatever becomes of its indexes.
   */
  lemma {:induction false} PagesAreFrozen(start: seq<Statement>, more: seq<Statement>, c: Id)
    requires ContentStays(start, more, c) && Captured(Run(EMPTY_DB, start), c)
    ensures var s, t := Run(EMPTY_DB, start), Run(EMPTY_DB, start + more);
            Captured(t, c) && PageRows(t.pages, c) == PageRows(s.pages, c)
    decreases |more|
  {
    hide Execute, Run, Inv, PageRows;
    if more == [] {
      assert start + more == start;
    } else {
      var n := |more| - 1;
      forall i | 0 <= i <= n ensures more[..n][..i] == more[..i] {
      }
      PagesAreFrozen(start, more[..n], c);
      OneMore(start, more);
      assert more[..n + 1] == more;
      ReachableInv(start + more[..n]);
      StepKeepsCapture(Run(EMPTY_DB, start + more[..n]), more[n], c, c);
    }
  }

  /** Over any stretch of any run that does not remove it, a ready index keeps exactly its chunks. */
  lemma {:induction false} IndexedChunksAreFrozen(start: seq<Statement>, more: seq<Statement>, x: Id)
    requires IndexStays(start, more, x) && Indexed(Run(EMPTY_DB, start), x)
    ensures var s, t := Run(EMPTY_DB, start), Run(EMPTY_DB, start + more);
            Indexed(t, x) && ChunkRows(t.chunks, x) == ChunkRows(s.chunks, x)
    decreases |more|
  {
    hide Execute, Run, Inv, ChunkRows;
    if more == [] {
      assert start + more == start;
    } else {
      var n := |more| - 1;
      forall i | 0 <= i <= n ensures more[..n][..i] == more[..i] {
      }
      IndexedChunksAreFrozen(start, more[..n], x);
      OneMore(start, more);
      assert more[..n + 1] == more;
      ReachableInv(start + more[..n]);
      StepKeepsCapture(Run(EMPTY_DB, start + more[..n]), more[n], x, x);
    }
  }

  // Positions

  ghost function FirstPages(content: Id, n: nat): set<PageKey> {
    set i | 1 <= i <= n :: PageKey(content, i)
  }

  lemma {:induction false} FirstPagesCount(content: Id, n: nat)
    ensures |FirstPages(content, n)| == n
    decreases n
  {
    if n > 0 {
      FirstPagesCount(content, n - 1);
      assert FirstPages(content, n) == FirstPages(content, n - 1) + {PageKey(content, n)};
    }
  }

  ghost predicate PagesWithin(s: Db, c: Id) {
    c in s.contents && forall p :: p in s.pages && p.content == c ==> p.number <= s.contents[c].reservedPages
  }

  /** Content waiting for an index or ready has exactly the pages 1 to n it reserved, if and only if none lies beyond n. */
  lemma FinishedPagesAreConsecutive(qs: seq<Statement>, c: Id)
    requires var s := Run(EMPTY_DB, qs);
             c in s.contents && (s.contents[c].status == PendingIndex || s.contents[c].status == ContentReady)
    ensures var s := Run(EMPTY_DB, qs);
            && 1 <= s.contents[c].reservedPages
            && (PagesOf(s.pages, c) == FirstPages(c, s.contents[c].reservedPages) <==> PagesWithin(s, c))
  {
    hide Run;
    ReachableInv(qs);
    PagesFillUp(Run(EMPTY_DB, qs), c);
  }

  lemma PagesFillUp(s: Db, c: Id)
    requires Inv(s) && c in s.contents && (s.contents[c].status == PendingIndex || s.contents[c].status == ContentReady)
    ensures 1 <= s.contents[c].reservedPages
    ensures PagesOf(s.pages, c) == FirstPages(c, s.contents[c].reservedPages) <==> PagesWithin(s, c)
  {
    hide Counters, SubjectRefs, DocumentRefs, IndexRefs, ChunkRefs, ChunkPositions, JobRefs, UniqueRevisions, MeasuredChunks, Total;
    assert ContentRef(s.documents, s.contents[c]) && ContentMeasured(s.pages, c, s.contents[c]);
    var n := s.contents[c].reservedPages;
    FirstPagesCount(c, n);
    if PagesWithin(s, c) {
      forall p | p in PagesOf(s.pages, c) ensures p in FirstPages(c, n) {
        assert PageRef(s.contents, p, s.pages[p]);
        assert p == PageKey(c, p.number);
      }
      SubsetOfSameSize(PagesOf(s.pages, c), FirstPages(c, n));
    } else {
      var p :| p in s.pages && p.content == c && p.number > n;
      assert p in PagesOf(s.pages, c) && p !in FirstPages(c, n);
    }
  }

  ghost function Positions(s: Db, ids: set<Id>): set<int>
    requires ids <= s.chunks.Keys
  {
    set k | k in ids :: s.chunks[k].position
  }

  lemma {:induction false} PositionsCount(s: Db, ids: set<Id>, x: Id)
    requires ids <= ChunksOf(s.chunks, x) && ChunkPositions(s.chunks)
    ensures |Positions(s, ids)| == |ids|
    decreases |ids|
  {
    if ids != {} {
      var k :| k in ids;
      PositionsCount(s, ids - {k}, x);
      assert Positions(s, ids) == Positions(s, ids - {k}) + {s.chunks[k].position};
      assert s.chunks[k].position !in Positions(s, ids - {k});
    }
  }

  ghost function FirstPositions(n: nat): (r: set<int>)
    ensures |r| == n && forall i :: i in r <==> 0 <= i < n
  {
    if n == 0 then {} else FirstPositions(n - 1) + {n - 1}
  }

  ghost predicate ChunksWithin(s: Db, x: Id) {
    x in s.indexes && forall k :: k in s.chunks && s.chunks[k].index == x ==> s.chunks[k].position < s.indexes[x].reservedChunks
  }

  /** If nothing exceeds one and the sum is the size, everything is one. */
  lemma {:induction false} FullHouse(m: map<Id, int>, k: Id)
    requires (forall i :: i in m ==> m[i] <= 1) && Total(m) == |m| && k in m
    ensures m[k] == 1
  {
    TotalRemove(m, k);
    TotalAtMostSize(m - {k});
    assert (m - {k}).Keys == m.Keys - {k};
    assert |(m - {k}).Keys| == |m.Keys| - 1;
  }

  /** A ready index has every chunk embedded, and exactly the positions 0 to n-1 it reserved if and only if none lies beyond. */
  lemma ReadyChunksAreConsecutive(qs: seq<Statement>, x: Id)
    requires Indexed(Run(EMPTY_DB, qs), x)
    ensures var s := Run(EMPTY_DB, qs);
            && 1 <= s.indexes[x].reservedChunks
            && (forall k :: k in ChunksOf(s.chunks, x) ==> s.chunks[k].embedding.Some?)
            && (Positions(s, ChunksOf(s.chunks, x)) == FirstPositions(s.indexes[x].reservedChunks) <==> ChunksWithin(s, x))
  {
    hide Run, Inv;
    ReachableInv(qs);
    ReadyChunksEmbedded(Run(EMPTY_DB, qs), x);
    ChunksFillUp(Run(EMPTY_DB, qs), x);
  }

  lemma ReadyChunksEmbedded(s: Db, x: Id)
    requires Inv(s) && Indexed(s, x)
    ensures forall k :: k in ChunksOf(s.chunks, x) ==> s.chunks[k].embedding.Some?
  {
    hide Counters, SubjectRefs, DocumentRefs, PageRefs, ChunkRefs, ChunkPositions, JobRefs, UniqueRevisions, MeasuredPages, Total, ContentRefs;
    assert IndexRef(s.spaces, s.contents, s.indexes[x]) && IndexMeasured(s.chunks, x, s.indexes[x]);
    var m := ChunkEmbeddings(s.chunks, x);
    assert m.Keys == ChunksOf(s.chunks, x);
    forall k | k in ChunksOf(s.chunks, x) ensures s.chunks[k].embedding.Some? {
      FullHouse(m, k);
    }
  }

  lemma ChunksFillUp(s: Db, x: Id)
    requires Inv(s) && Indexed(s, x)
    ensures 1 <= s.indexes[x].reservedChunks
    ensures Positions(s, ChunksOf(s.chunks, x)) == FirstPositions(s.indexes[x].reservedChunks) <==> ChunksWithin(s, x)
  {
    hide Counters, SubjectRefs, DocumentRefs, PageRefs, JobRefs, UniqueRevisions, MeasuredPages, Total, ContentRefs, ChunkRefs, ChunkPositions;
    hide ChunkEmbeddings, ChunkSizes;
    assert IndexRef(s.spaces, s.contents, s.indexes[x]) && IndexMeasured(s.chunks, x, s.indexes[x]);
    var ids, n := ChunksOf(s.chunks, x), s.indexes[x].reservedChunks;
    PositionsCount(s, ids, x);
    assert IndexCheck(s.indexes[x]);
    assert |Positions(s, ids)| == n;
    if ChunksWithin(s, x) {
      PositionsWithin(s, x);
      SubsetOfSameSize(Positions(s, ids), FirstPositions(n));
    } else {
      var k :| k in s.chunks && s.chunks[k].index == x && s.chunks[k].position >= n;
      assert k in ids && s.chunks[k].position in Positions(s, ids);
    }
  }

  lemma PositionsWithin(s: Db, x: Id)
    requires ChunkRefs(s.indexes, s.pages, s.chunks) && ChunksWithin(s, x) && s.indexes[x].reservedChunks >= 0
    ensures Positions(s, ChunksOf(s.chunks, x)) <= FirstPositions(s.indexes[x].reservedChunks)
  {
    forall i | i in Positions(s, ChunksOf(s.chunks, x)) ensures 0 <= i < s.indexes[x].reservedChunks {
      var k :| k in ChunksOf(s.chunks, x) && s.chunks[k].position == i;
      assert ChunkRef(s.indexes, s.pages, s.chunks[k]);
    }
  }
}
