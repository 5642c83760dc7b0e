/**
 * When finished revisions have consecutive positions: always in runs that never lower a reservation, and
 * not in general, since the guards let a reservation be lowered below a position already in use.
 */
module ReservedPositions {
  import opened Prelude
  import opened MapSums
  import opened KnowledgeTables
  import opened KnowledgeStatements
  import opened KnowledgeEffects
  import opened KnowledgeInvariants
  import opened KnowledgeCounters
  import opened KnowledgeRuns
  import opened FrozenContent

  predicate Lowers(s: Db, q: Statement) {
    || (q.EditContent? && q.id in s.contents && q.content.reservedPages < s.contents[q.id].reservedPages)
    || (q.EditIndex? && q.id in s.indexes && q.index.reservedChunks < s.indexes[q.id].reservedChunks)
  }

  ghost predicate NeverLowered(qs: seq<Statement>) {
    forall i :: 0 <= i < |qs| ==> !Lowers(Run(EMPTY_DB, qs[..i]), qs[i])
  }

  ghost predicate PagesReserved(contents: map<Id, Content>, pages: map<PageKey, Page>) {
    forall p :: p in pages && p.content in contents ==> p.number <= contents[p.content].reservedPages
  }

  ghost predicate ChunksReserved(indexes: map<Id, Index>, chunks: map<Id, Chunk>) {
    forall k :: k in chunks && chunks[k].index in indexes ==> chunks[k].position < indexes[chunks[k].index].reservedChunks
  }

  ghost predicate Reserved(s: Db) {
    PagesReserved(s.contents, s.pages) && ChunksReserved(s.indexes, s.chunks)
  }

  /** Rows whose parent goes away cannot come back under another one: new parents have no rows yet. */
  ghost predicate NoOrphans(s: Db) {
    && (forall p :: p in s.pages ==> p.content in s.contents)
    && (forall k :: k in s.chunks ==> s.chunks[k].index in s.indexes)
  }

  lemma RefsLeaveNoOrphans(s: Db)
    requires Refs(s)
    ensures NoOrphans(s)
  {
    hide SubjectRefs, DocumentRefs, ContentRefs, IndexRefs, JobRefs, ChunkPositions, UniqueRevisions, PageCheck, ChunkCheck;
    forall p | p in s.pages ensures p.content in s.contents {
      assert PageRef(s.contents, p, s.pages[p]);
    }
    forall k | k in s.chunks ensures s.chunks[k].index in s.indexes {
      assert ChunkRef(s.indexes, s.pages, s.chunks[k]);
    }
  }

  lemma ContentStatementReserves(s: Db, q: Statement)
    requires Attempt(s, q).Some? && OnContent(q) && NoOrphans(s) && PagesReserved(s.contents, s.pages) && !Lowers(s, q)
    ensures PagesReserved(Attempt(s, q).value.contents, Attempt(s, q).value.pages)
  {
    hide AdjustUsage, Charged, ContentCheck, PageCheck, UniqueContent, HasReadyIndex, ContentBump, Utf8Length, Bump, ContentsOf;
    hide SameContentIdentity, InsertIndex, UpdateIndex, DeleteIndex, InsertChunk, UpdateChunk, DeleteChunk;
    hide InsertSpace, DeleteSpace, InsertSubject, UpdateSubject, InsertDocument, UpdateDocument, DeleteDocument, DeleteSubject;
    hide DeleteContent, UpdateJob, InsertJob, DeleteJob;
  }

  lemma IndexStatementReserves(s: Db, q: Statement)
    requires Attempt(s, q).Some? && OnIndex(q) && NoOrphans(s) && ChunksReserved(s.indexes, s.chunks) && !Lowers(s, q)
    ensures ChunksReserved(Attempt(s, q).value.indexes, Attempt(s, q).value.chunks)
  {
    hide AdjustUsage, Charged, IndexCheck, ChunkCheck, UniqueIndex, IndexBump, Exposed, ChunkBytes, Bump, Embedded;
    hide IndexesOf, SameIndexIdentity, InsertContent, UpdateContent, InsertPage, UpdatePage, DeletePage;
    hide InsertSpace, DeleteSpace, InsertSubject, UpdateSubject, InsertDocument, UpdateDocument, DeleteDocument, DeleteSubject;
    hide InsertChunk, UpdateChunk, DeleteChunk, DeleteContent, UpdateJob, InsertJob, DeleteJob;
  }

  lemma ChunkStatementReserves(s: Db, q: Statement)
    requires Attempt(s, q).Some? && OnChunk(q) && NoOrphans(s) && ChunksReserved(s.indexes, s.chunks) && !Lowers(s, q)
    ensures ChunksReserved(Attempt(s, q).value.indexes, Attempt(s, q).value.chunks)
  {
    hide AdjustUsage, Charged, IndexCheck, ChunkCheck, UniqueIndex, IndexBump, Exposed, ChunkBytes, Bump, Embedded;
    hide IndexesOf, SameIndexIdentity, InsertContent, UpdateContent, InsertPage, UpdatePage, DeletePage;
    hide InsertSpace, DeleteSpace, InsertSubject, UpdateSubject, InsertDocument, UpdateDocument, DeleteDocument, DeleteSubject;
    hide InsertIndex, UpdateIndex, DeleteIndex, DeleteContent, UpdateJob, InsertJob, DeleteJob;
  }

  lemma RemovalReserves(s: Db, q: Statement)
    requires Attempt(s, q).Some? && Reserved(s) && (q.DropDocument? || q.DropContent?)
    ensures Reserved(Attempt(s, q).value)
  {
    hide DeleteDocument, DeleteContent;
    if q.DropDocument? {
      DocumentDropReserves(s, q.id);
    } else {
      ContentDropReserves(s, q.id);
    }
  }

  lemma DocumentDropReserves(s: Db, id: Id)
    requires DeleteDocument(s, id).Some? && Reserved(s)
    ensures Reserved(DeleteDocument(s, id).value)
  {
    hide AdjustUsage, Charged, Bump, LiveContents;
  }

  lemma ContentDropReserves(s: Db, id: Id)
    requires DeleteContent(s, id).Some? && Reserved(s)
    ensures Reserved(DeleteContent(s, id).value)
  {
    hide AdjustUsage, Bump, IndexesOfContent, Total;
  }

  lemma {:induction false} DocumentsReserve(s: Db, order: seq<Id>)
    requires DeleteDocuments(s, order).Some? && Reserved(s)
    ensures Reserved(DeleteDocuments(s, order).value)
    decreases |order|
  {
    hide Reserved, DeleteDocument;
    if order != [] {
      DocumentDropReserves(s, order[0]);
      DocumentsReserve(DeleteDocument(s, order[0]).value, order[1..]);
    }
  }

  lemma SubjectDropReserves(s: Db, id: Id, order: seq<Id>)
    requires DeleteSubject(s, id, order).Some? && Reserved(s)
    ensures Reserved(DeleteSubject(s, id, order).value)
  {
    hide DeleteDocuments;
    DocumentsReserve(s, order);
  }

  lemma IndexStepReserves(s: Db, q: Statement)
    requires Attempt(s, q).Some? && (OnIndex(q) || OnChunk(q)) && NoOrphans(s) && Reserved(s) && !Lowers(s, q)
    ensures Reserved(Attempt(s, q).value)
  {
    hide PagesReserved, ChunksReserved, Lowers, NoOrphans, Attempt;
    if OnChunk(q) {
      ChunkStatementEffect(s, q);
      ChunkStatementReserves(s, q);
    } else {
      IndexStatementReserves(s, q);
      if q.DropIndex? {
        IndexDropKeepsPages(s, q);
      } else {
        IndexStatementEffect(s, q);
      }
    }
  }

  lemma StepReserves(s: Db, q: Statement)
    requires Inv(s) && Reserved(s) && !Lowers(s, q)
    ensures Reserved(Execute(s, q))
  {
    hide Inv, Refs, PagesReserved, ChunksReserved, DeleteSubject, Lowers, NoOrphans;
    if Attempt(s, q).Some? {
      InvGivesRefs(s);
      RefsLeaveNoOrphans(s);
      if q.DropSubject? {
        assert Attempt(s, q) == DeleteSubject(s, q.id, q.order);
        SubjectDropReserves(s, q.id, q.order);
      } else {
        hide Attempt;
        if OnContent(q) {
          ContentStatementEffect(s, q);
          ContentStatementReserves(s, q);
        } else if OnIndex(q) || OnChunk(q) {
          IndexStepReserves(s, q);
        } else if q.DropDocument? || q.DropContent? {
          RemovalReserves(s, q);
        } else if OnJob(q) {
          JobStatementEffect(s, q);
        } else {
          OwnerStatementEffect(s, q);
        }
      }
    }
  }

  lemma {:induction false} NeverLoweredStaysReserved(qs: seq<Statement>)
    requires NeverLowered(qs)
    ensures Reserved(Run(EMPTY_DB, qs))
    decreases |qs|
  {
    hide Execute, Inv, Lowers;
    if qs != [] {
      var n := |qs| - 1;
      forall i | 0 <= i < n ensures !Lowers(Run(EMPTY_DB, qs[..n][..i]), qs[..n][i]) {
        assert qs[..n][..i] == qs[..i];
      }
      hide Reserved;
      NeverLoweredStaysReserved(qs[..n]);
      ReachableInv(qs[..n]);
      StepReserves(Run(EMPTY_DB, qs[..n]), qs[n]);
    }
  }

  /** If no statement of a run lowered a reservation, finished content has exactly pages 1 to n and ready indexes exactly chunks 0 to n-1. */
  lemma NeverLoweredIsConsecutive(qs: seq<Statement>, c: Id, x: Id)
    requires NeverLowered(qs)
    ensures var s := Run(EMPTY_DB, qs);
            && (c in s.contents && (s.contents[c].status == PendingIndex || s.contents[c].status == ContentReady) ==>
                  s.contents[c].reservedPages >= 1 && PagesOf(s.pages, c) == FirstPages(c, s.contents[c].reservedPages))
            && (Indexed(s, x) ==>
                  s.indexes[x].reservedChunks >= 1
                  && Positions(s, ChunksOf(s.chunks, x)) == FirstPositions(s.indexes[x].reservedChunks))
  {
    hide Run, NeverLowered, PagesOf, ChunksOf, FirstPages;
    var s := Run(EMPTY_DB, qs);
    NeverLoweredStaysReserved(qs);
    if c in s.contents && (s.contents[c].status == PendingIndex || s.contents[c].status == ContentReady) {
      FinishedPagesAreConsecutive(qs, c);
    }
    if Indexed(s, x) {
      ReadyChunksAreConsecutive(qs, x);
    }
  }

  // The run that lowers a reservation

  const SUBJECT := Subject(1, 0, None, None)
  const DOCUMENT := Document(1, 1, "Notes", "notes.pdf", "", 0)
  const TWO_PAGES := Content(1, 1, 1, 1, "", "v1", Processing, false, 2, 0, 0, 0, 0, 0, None, None, None, None, 0)
  const SECOND_PAGE := Page(1, 1, 1, "")
  const WITH_SECOND := TWO_PAGES.(actualPages := 1)
  const ONE_PAGE := WITH_SECOND.(reservedPages := 1)
  const CAPTURED := ONE_PAGE.(status := PendingIndex)
  const ONE_DOCUMENT := map[Global := Usage(1, 0), OfSubject(1) := Usage(1, 0), OfUploader(1) := Usage(1, 0)]

  const LOWERING: seq<Statement> := [
    SetInstructors({1}), AddSubject(1, SUBJECT), AddDocument(1, DOCUMENT), AddContent(1, TWO_PAGES),
    AddPage(PageKey(1, 2), SECOND_PAGE), EditContent(1, ONE_PAGE), EditContent(1, CAPTURED)]

  function With(contents: map<Id, Content>, pages: map<PageKey, Page>): Db {
    Db({1}, map[], map[1 := SUBJECT], map[1 := DOCUMENT], contents, pages, map[], map[], map[], ONE_DOCUMENT)
  }

  lemma StartRun()
    ensures Run(EMPTY_DB, LOWERING[..3]) == With(map[], map[])
  {
    var a, b, c := LOWERING[0], LOWERING[1], LOWERING[2];
    assert LOWERING[..3] == [a, b, c] && [a, b, c][..2] == [a, b] && [a, b][..1] == [a] && [a][..0] == [];
    assert Run(EMPTY_DB, [a]) == Execute(Run(EMPTY_DB, []), a);
    var s1 := EMPTY_DB.(instructors := {1});
    assert Run(EMPTY_DB, [a]) == s1;
    var s2 := s1.(subjects := map[1 := SUBJECT]);
    assert Run(EMPTY_DB, [a, b]) == Execute(s1, b) == s2;
    assert Run(EMPTY_DB, [a, b, c]) == Execute(s2, c);
    FirstDocument(s2);
  }

  lemma FirstDocument(s: Db)
    requires s == EMPTY_DB.(instructors := {1}, subjects := map[1 := SUBJECT])
    ensures Execute(s, AddDocument(1, DOCUMENT)) == With(map[], map[])
  {
    assert DocumentCheck(DOCUMENT);
    var u1 := map[Global := Usage(1, 0)];
    var u2 := u1[OfSubject(1) := Usage(1, 0)];
    assert AdjustScope(map[], Global, 1, 0) == Some(u1);
    assert AdjustScope(u1, OfSubject(1), 1, 0) == Some(u2);
    assert AdjustScope(u2, OfUploader(1), 1, 0) == Some(ONE_DOCUMENT);
    var scopes := [Global, OfSubject(1), OfUploader(1)];
    assert scopes[1..] == [OfSubject(1), OfUploader(1)] && scopes[1..][1..] == [OfUploader(1)] && scopes[1..][1..][1..] == [];
    assert AdjustScopes(u2, scopes[2..], 1, 0) == Some(ONE_DOCUMENT);
    assert AdjustScopes(u1, scopes[1..], 1, 0) == Some(ONE_DOCUMENT);
  }

  lemma NothingMoves()
    ensures AdjustUsage(ONE_DOCUMENT, 1, 1, 0, 0) == Some(ONE_DOCUMENT)
  {
    AdjustNothing(ONE_DOCUMENT, 1, 1);
  }

  lemma NothingCharged(contents: map<Id, Content>)
    requires forall c :: c in contents ==> contents[c].reservedBytes == 0
    ensures Charged(contents, map[], DocumentSlice(1)) == 0
  {
    hide Total;
    var charges := ContentCharges(contents, DocumentSlice(1));
    TotalNonNegative(charges);
    TotalNonPositive(charges);
    assert IndexCharges(map[], DocumentSlice(1)) == map[];
    EmptyTotal(IndexCharges(map[], DocumentSlice(1)));
  }

  lemma NewContent()
    ensures InsertContent(With(map[], map[]), 1, TWO_PAGES) == Some(With(map[1 := TWO_PAGES], map[]))
  {
    hide AdjustUsage, Charged;
    NothingMoves();
    NothingCharged(map[]);
    assert ContentsOf(map[], 1) == {};
    assert TrimSpaces("v1") == "v1";
    assert ContentCheck(TWO_PAGES);
  }

  lemma SecondPageOnly()
    ensures InsertPage(With(map[1 := TWO_PAGES], map[]), PageKey(1, 2), SECOND_PAGE)
            == Some(With(map[1 := WITH_SECOND], map[PageKey(1, 2) := SECOND_PAGE]))
  {
    assert TrimSpaces("v1") == "v1";
    assert ContentCheck(WITH_SECOND);
    assert map[1 := TWO_PAGES][1 := WITH_SECOND] == map[1 := WITH_SECOND];
  }

  lemma ReservedLess()
    ensures var pages := map[PageKey(1, 2) := SECOND_PAGE];
            UpdateContent(With(map[1 := WITH_SECOND], pages), 1, ONE_PAGE, false) == Some(With(map[1 := ONE_PAGE], pages))
  {
    hide AdjustUsage, Charged;
    NothingMoves();
    NothingCharged(map[1 := WITH_SECOND]);
    assert TrimSpaces("v1") == "v1";
    assert ContentCheck(ONE_PAGE);
    assert map[1 := WITH_SECOND][1 := ONE_PAGE] == map[1 := ONE_PAGE];
  }

  lemma CapturedTooSoon()
    ensures var pages := map[PageKey(1, 2) := SECOND_PAGE];
            UpdateContent(With(map[1 := ONE_PAGE], pages), 1, CAPTURED, false) == Some(With(map[1 := CAPTURED], pages))
  {
    hide AdjustUsage, Charged;
    NothingMoves();
    NothingCharged(map[1 := ONE_PAGE]);
    assert TrimSpaces("v1") == "v1";
    assert ContentCheck(CAPTURED);
    assert map[1 := ONE_PAGE][1 := CAPTURED] == map[1 := CAPTURED];
  }

  lemma NextStep(qs: seq<Statement>, n: nat, s: Db, t: Db)
    requires n < |qs| && Run(EMPTY_DB, qs[..n]) == s && Attempt(s, qs[n]) == Some(t)
    ensures Run(EMPTY_DB, qs[..n + 1]) == t
  {
    hide Attempt;
    assert qs[..n + 1][..n] == qs[..n];
  }

  lemma LoweringRun()
    ensures Run(EMPTY_DB, LOWERING) == With(map[1 := CAPTURED], map[PageKey(1, 2) := SECOND_PAGE])
  {
    hide InsertContent, UpdateContent, InsertPage, Run;
    StartRun();
    NewContent();
    SecondPageOnly();
    ReservedLess();
    CapturedTooSoon();
    var pages := map[PageKey(1, 2) := SECOND_PAGE];
    NextStep(LOWERING, 3, With(map[], map[]), With(map[1 := TWO_PAGES], map[]));
    NextStep(LOWERING, 4, With(map[1 := TWO_PAGES], map[]), With(map[1 := WITH_SECOND], pages));
    NextStep(LOWERING, 5, With(map[1 := WITH_SECOND], pages), With(map[1 := ONE_PAGE], pages));
    NextStep(LOWERING, 6, With(map[1 := ONE_PAGE], pages), With(map[1 := CAPTURED], pages));
    assert LOWERING[..7] == LOWERING;
  }

  /** Lowering the reservation lets content finish with one reserved page whose only row is page 2. */
  lemma LoweredReservationLeavesGap()
    ensures var s := Run(EMPTY_DB, LOWERING);
            && 1 in s.contents && s.contents[1].status == PendingIndex && s.contents[1].reservedPages == 1
            && PagesOf(s.pages, 1) == {PageKey(1, 2)} != FirstPages(1, 1)
  {
    hide Run;
    LoweringRun();
    assert PageKey(1, 2) !in FirstPages(1, 1);
  }

  // The run goes on: an index for two chunks, a chunk in the second place, and a reservation for one

  const VECTOR: Vector := seq(1536, i => 1.0)
  const TWO_CHUNKS := Index(1, 1, 1, 1, 1, "v1", [], "space", Staged, false, 2, 6409, 0, 0, 0, None, 0)
  const SECOND_CHUNK := Chunk(1, 1, 1, 1, 1, 1, 2, None, "a", 1, "space", Some(VECTOR))
  const WITH_CHUNK := TWO_CHUNKS.(actualChunks := 1, actualEmbedded := 1, actualBytes := 6409)
  const ONE_CHUNK := WITH_CHUNK.(reservedChunks := 1, status := IndexReady)
  const CHARGED_INDEX := map[Global := Usage(1, 6409), OfSubject(1) := Usage(1, 6409), OfUploader(1) := Usage(1, 6409)]

  const INDEXING: seq<Statement> := [
    AddSpace("space", []), AddIndex(1, TWO_CHUNKS), AddChunk(1, SECOND_CHUNK), EditIndex(1, ONE_CHUNK)]

  function WithIndexes(usage: map<Scope, Usage>, indexes: map<Id, Index>, chunks: map<Id, Chunk>): Db {
    With(map[1 := CAPTURED], map[PageKey(1, 2) := SECOND_PAGE]).(
    spaces := map["space" := []], usage := usage, indexes := indexes, chunks := chunks)
  }

  lemma ChargeIndex()
    ensures AdjustUsage(ONE_DOCUMENT, 1, 1, 0, 6409) == Some(CHARGED_INDEX)
  {
    var u1 := ONE_DOCUMENT[Global := Usage(1, 6409)];
    var u2 := u1[OfSubject(1) := Usage(1, 6409)];
    assert AdjustScope(ONE_DOCUMENT, Global, 0, 6409) == Some(u1);
    assert AdjustScope(u1, OfSubject(1), 0, 6409) == Some(u2);
    assert u2[OfUploader(1) := Usage(1, 6409)] == CHARGED_INDEX;
    assert AdjustScope(u2, OfUploader(1), 0, 6409) == Some(CHARGED_INDEX);
    var scopes := [Global, OfSubject(1), OfUploader(1)];
    assert scopes[1..] == [OfSubject(1), OfUploader(1)] && scopes[1..][1..] == [OfUploader(1)] && scopes[1..][1..][1..] == [];
    assert AdjustScopes(u2, scopes[2..], 0, 6409) == Some(CHARGED_INDEX);
    assert AdjustScopes(u1, scopes[1..], 0, 6409) == Some(CHARGED_INDEX);
  }

  lemma IndexCharge(row: Index)
    requires row.document == 1 && row.reservedBytes == 6409
    ensures Charged(map[1 := CAPTURED], map[1 := row], DocumentSlice(1)) == 6409
  {
    hide Total;
    NothingCharged(map[1 := CAPTURED]);
    assert IndexCharges(map[], DocumentSlice(1)) == map[];
    EmptyTotal(IndexCharges(map[], DocumentSlice(1)));
    var charges := IndexCharges(map[1 := row], DocumentSlice(1));
    assert charges[1] == 6409;
    assert charges - {1} == map[];
    TotalRemove(charges, 1);
    EmptyTotal(charges - {1});
  }

  lemma NewIndex()
    ensures InsertIndex(WithIndexes(ONE_DOCUMENT, map[], map[]), 1, TWO_CHUNKS)
            == Some(WithIndexes(CHARGED_INDEX, map[1 := TWO_CHUNKS], map[]))
  {
    hide AdjustUsage, Charged;
    ChargeIndex();
    NothingCharged(map[1 := CAPTURED]);
    assert IndexesOf(map[], 1) == {};
    assert TrimSpaces("v1") == "v1";
    assert IndexCheck(TWO_CHUNKS);
  }

  lemma SecondChunkChecks()
    ensures ChunkCheck(SECOND_CHUNK) && ChunkBytes(SECOND_CHUNK) == 6409 && IndexCheck(WITH_CHUNK)
  {
    assert TrimSpaces("v1") == "v1" && TrimSpaces("a") == "a";
    assert VECTOR[0] != 0.0;
    assert Utf8Length("a") == 1;
  }

  lemma SecondChunkOnly()
    ensures InsertChunk(WithIndexes(CHARGED_INDEX, map[1 := TWO_CHUNKS], map[]), 1, SECOND_CHUNK)
            == Some(WithIndexes(CHARGED_INDEX, map[1 := WITH_CHUNK], map[1 := SECOND_CHUNK]))
  {
    SecondChunkChecks();
    var s := WithIndexes(CHARGED_INDEX, map[1 := TWO_CHUNKS], map[]);
    hide InsertChunk, ChunkCheck, IndexCheck, ChunkBytes;
    ChunkGoesIn(s, 1, SECOND_CHUNK);
    assert map[1 := TWO_CHUNKS][1 := WITH_CHUNK] == map[1 := WITH_CHUNK];
  }

  lemma IndexedTooSoon()
    ensures var chunks := map[1 := SECOND_CHUNK];
            UpdateIndex(WithIndexes(CHARGED_INDEX, map[1 := WITH_CHUNK], chunks), 1, ONE_CHUNK, false)
            == Some(WithIndexes(CHARGED_INDEX, map[1 := ONE_CHUNK], chunks))
  {
    hide AdjustUsage, Charged;
    AdjustNothing(CHARGED_INDEX, 1, 1);
    IndexCharge(WITH_CHUNK);
    assert TrimSpaces("v1") == "v1";
    assert IndexCheck(ONE_CHUNK);
    assert map[1 := WITH_CHUNK][1 := ONE_CHUNK] == map[1 := ONE_CHUNK];
  }

  lemma IndexAdded()
    ensures Run(EMPTY_DB, (LOWERING + INDEXING)[..9]) == WithIndexes(CHARGED_INDEX, map[1 := TWO_CHUNKS], map[])
  {
    hide InsertSpace, InsertIndex, With, WithIndexes, Run;
    var qs := LOWERING + INDEXING;
    LoweringRun();
    assert qs[..7] == LOWERING;
    NewSpace();
    NextStep(qs, 7, With(map[1 := CAPTURED], map[PageKey(1, 2) := SECOND_PAGE]), WithIndexes(ONE_DOCUMENT, map[], map[]));
    NewIndex();
    NextStep(qs, 8, WithIndexes(ONE_DOCUMENT, map[], map[]), WithIndexes(CHARGED_INDEX, map[1 := TWO_CHUNKS], map[]));
  }

  lemma IndexingRun()
    ensures Run(EMPTY_DB, LOWERING + INDEXING) == WithIndexes(CHARGED_INDEX, map[1 := ONE_CHUNK], map[1 := SECOND_CHUNK])
  {
    hide InsertChunk, UpdateIndex, WithIndexes, Run;
    var qs, chunks := LOWERING + INDEXING, map[1 := SECOND_CHUNK];
    IndexAdded();
    SecondChunkOnly();
    NextStep(qs, 9, WithIndexes(CHARGED_INDEX, map[1 := TWO_CHUNKS], map[]), WithIndexes(CHARGED_INDEX, map[1 := WITH_CHUNK], chunks));
    IndexedTooSoon();
    NextStep(qs, 10, WithIndexes(CHARGED_INDEX, map[1 := WITH_CHUNK], chunks), WithIndexes(CHARGED_INDEX, map[1 := ONE_CHUNK], chunks));
    assert qs[..11] == qs;
  }

  lemma NewSpace()
    ensures InsertSpace(With(map[1 := CAPTURED], map[PageKey(1, 2) := SECOND_PAGE]), "space", [])
            == Some(WithIndexes(ONE_DOCUMENT, map[], map[]))
  {
  }

  /** And it lets an index become ready with one reserved chunk that stands in the second place. */
  lemma LoweredReservationLeavesChunkGap()
    ensures var s := Run(EMPTY_DB, LOWERING + INDEXING);
            && Indexed(s, 1) && s.indexes[1].reservedChunks == 1
            && Positions(s, ChunksOf(s.chunks, 1)) == {1} != FirstPositions(1)
  {
    hide Run;
    IndexingRun();
    var s := WithIndexes(CHARGED_INDEX, map[1 := ONE_CHUNK], map[1 := SECOND_CHUNK]);
    assert ChunksOf(s.chunks, 1) == {1};
    assert s.chunks[1].position in Positions(s, {1});
    assert 1 !in FirstPositions(1);
  }
}
