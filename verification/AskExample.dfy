/**
 * A run from the empty database to an answer: a page is captured, indexed in three chunks and published, a
 * student asks, three excerpts are admitted, and the job completes with them. So the guards do let answers pass.
 */
module AskExample {
  import opened Prelude
  import opened MapSums
  import opened KnowledgeTables
  import opened KnowledgeStatements
  import opened KnowledgeEffects
  import opened KnowledgeInvariants
  import opened KnowledgeCounters
  import opened VersionStamp
  import opened AskTables
  import opened AskStatements
  import opened AskEvidence
  import opened AskCompletion

  // The rows

  const SUBJECT := Subject(1, 0, Some("space"), None)
  const DOCUMENT := Document(1, 1, "Notes", "notes.pdf", "", 0)
  const NEW_CONTENT := Content(1, 1, 1, 1, "", "v1", Processing, false, 1, 3, 3, 0, 0, 0, None, None, None, None, 0)
  const PAGE := Page(1, 1, 1, "abc")
  const WITH_PAGE := NEW_CONTENT.(actualPages := 1, actualChars := 3, actualBytes := 3)
  const CAPTURED := WITH_PAGE.(status := PendingIndex)
  const PUBLISHED := CAPTURED.(
    status := ContentReady, isActive := true, reviewedBy := Some(1), reviewedAt := Some(0), publishedAt := Some(0))
  function Ones(): Vector {
    seq(1536, i => 1.0)
  }

  /** The index with its first n chunks stored. */
  function Indexed(n: nat): Index {
    Index(1, 1, 1, 1, 1, "v1", [], "space", Staged, false, 3, 19227, n, n, 6409 * n, None, 0)
  }

  const SERVING := Indexed(3).(status := IndexReady, isActive := true)

  function ChunkNo(n: int): Chunk {
    Chunk(1, 1, 1, 1, 1, n - 1, 1, None, "a", 1, "space", Some(Ones()))
  }

  function Stored(n: nat): map<Id, Chunk> {
    if n == 0 then map[] else Stored(n - 1)[n := ChunkNo(n)]
  }

  lemma {:induction false} StoredAre(n: nat)
    ensures forall k :: k in Stored(n) <==> 1 <= k <= n
    ensures forall k :: k in Stored(n) ==> Stored(n)[k] == ChunkNo(k)
  {
    if n > 0 {
      StoredAre(n - 1);
    }
  }

  function Used(bytes: int): map<Scope, Usage> {
    map[Global := Usage(1, bytes), OfSubject(1) := Usage(1, bytes), OfUploader(1) := Usage(1, bytes)]
  }

  function Corpus1(stamp: int, bytes: int, contents: map<Id, Content>, pages: map<PageKey, Page>, indexes: map<Id, Index>,
                   chunks: map<Id, Chunk>): Db
  {
    Db({1}, map["space" := []], map[1 := SUBJECT.(corpusRevision := stamp)], map[1 := DOCUMENT], contents, pages, indexes, chunks, map[],
       Used(bytes))
  }

  const PAGES := map[PageKey(1, 1) := PAGE]

  const CORPUS: seq<Statement> := [
    SetInstructors({1}), AddSpace("space", []), AddSubject(1, SUBJECT), AddDocument(1, DOCUMENT),
    AddContent(1, NEW_CONTENT), AddPage(PageKey(1, 1), PAGE), EditContent(1, CAPTURED),
    AddIndex(1, Indexed(0)), AddChunk(1, ChunkNo(1)), AddChunk(2, ChunkNo(2)), AddChunk(3, ChunkNo(3)),
    EditIndex(1, SERVING), EditContent(1, PUBLISHED)]

  // The corpus, statement by statement

  lemma Uses(bytes: int, more: int)
    requires 0 <= bytes && 0 <= bytes + more <= 1000000
    ensures AdjustUsage(Used(bytes), 1, 1, 0, more) == Some(Used(bytes + more))
  {
    var u0, u1, u2 := Used(bytes), Used(bytes)[Global := Usage(1, bytes + more)], Used(bytes)[Global := Usage(1, bytes + more)][OfSubject(1) := Usage(1, bytes + more)];
    assert AdjustScope(u0, Global, 0, more) == Some(u1);
    assert AdjustScope(u1, OfSubject(1), 0, more) == Some(u2);
    assert u2[OfUploader(1) := Usage(1, bytes + more)] == Used(bytes + more);
    assert AdjustScope(u2, OfUploader(1), 0, more) == Some(Used(bytes + more));
    ThreeScopes(u0, u1, u2, Used(bytes + more), 0, more);
  }

  lemma ThreeScopes(u0: map<Scope, Usage>, u1: map<Scope, Usage>, u2: map<Scope, Usage>, u3: map<Scope, Usage>, documents: int, bytes: int)
    requires AdjustScope(u0, Global, documents, bytes) == Some(u1) && AdjustScope(u1, OfSubject(1), documents, bytes) == Some(u2)
    requires AdjustScope(u2, OfUploader(1), documents, bytes) == Some(u3)
    ensures AdjustUsage(u0, 1, 1, documents, bytes) == Some(u3)
  {
    hide AdjustScope;
    var scopes := [Global, OfSubject(1), OfUploader(1)];
    assert scopes[1..] == [OfSubject(1), OfUploader(1)] && scopes[1..][1..] == [OfUploader(1)] && scopes[1..][1..][1..] == [];
    assert AdjustScopes(u2, scopes[1..][1..], documents, bytes) == Some(u3);
    assert AdjustScopes(u1, scopes[1..], documents, bytes) == Some(u3);
  }

  lemma FirstDocument()
    ensures var s := EMPTY_DB.(instructors := {1}, spaces := map["space" := []], subjects := map[1 := SUBJECT]);
            InsertDocument(s, 1, DOCUMENT) == Some(Corpus1(0, 0, map[], map[], map[], map[]))
  {
    assert DocumentCheck(DOCUMENT);
    var u1 := map[Global := Usage(1, 0)];
    var u2 := u1[OfSubject(1) := Usage(1, 0)];
    assert AdjustScope(map[], Global, 1, 0) == Some(u1);
    assert AdjustScope(u1, OfSubject(1), 1, 0) == Some(u2);
    assert AdjustScope(u2, OfUploader(1), 1, 0) == Some(Used(0));
    ThreeScopes(map[], u1, u2, Used(0), 1, 0);
    hide AdjustUsage;
  }

  lemma CorpusBegins()
    ensures Run(EMPTY_DB, CORPUS[..4]) == Corpus1(0, 0, map[], map[], map[], map[])
  {
    hide Corpus1, InsertSpace, InsertSubject, InsertDocument, Run;
    var s1 := EMPTY_DB.(instructors := {1});
    var s2 := s1.(spaces := map["space" := []]);
    var s3 := s2.(subjects := map[1 := SUBJECT]);
    FirstRows(s1, s2, s3);
    FirstDocument();
    NothingRun();
    NextStatement(CORPUS, 0, EMPTY_DB, s1);
    NextStatement(CORPUS, 1, s1, s2);
    NextStatement(CORPUS, 2, s2, s3);
    NextStatement(CORPUS, 3, s3, Corpus1(0, 0, map[], map[], map[], map[]));
  }

  lemma NothingRun()
    ensures Run(EMPTY_DB, CORPUS[..0]) == EMPTY_DB
  {
  }

  lemma FirstRows(s1: Db, s2: Db, s3: Db)
    requires s1 == EMPTY_DB.(instructors := {1}) && s2 == s1.(spaces := map["space" := []]) && s3 == s2.(subjects := map[1 := SUBJECT])
    ensures InsertSpace(s1, "space", []) == Some(s2) && InsertSubject(s2, 1, SUBJECT) == Some(s3)
  {
  }

  lemma NextStatement(qs: seq<Statement>, n: nat, s: Db, t: Db)
    requires n < |qs| && Run(EMPTY_DB, qs[..n]) == s && Attempt(s, qs[n]) == Some(t)
    ensures Run(EMPTY_DB, qs[..n + 1]) == t
  {
    hide Attempt;
    assert qs[..n + 1][..n] == qs[..n];
  }

  /** What is charged to the one document. */
  lemma ChargedSoFar(contents: map<Id, Content>, indexes: map<Id, Index>)
    requires contents.Keys <= {1} && indexes.Keys <= {1}
    requires forall c :: c in contents ==> 0 <= contents[c].reservedBytes <= 19227
    requires forall x :: x in indexes ==> 0 <= indexes[x].reservedBytes <= 19227
    ensures Charged(contents, indexes, DocumentSlice(1)) <= 38454
  {
    hide Total;
    OneAtMost(ContentCharges(contents, DocumentSlice(1)));
    OneAtMost(IndexCharges(indexes, DocumentSlice(1)));
  }

  lemma OneAtMost(charges: map<Id, int>)
    requires charges.Keys <= {1} && forall k :: k in charges ==> 0 <= charges[k] <= 19227
    ensures Total(charges) <= 19227
  {
    hide Total;
    if 1 in charges {
      TotalRemove(charges, 1);
      EmptyTotal(charges - {1});
    } else {
      EmptyTotal(charges);
    }
  }

  lemma RowsPass()
    ensures ContentCheck(NEW_CONTENT) && ContentCheck(WITH_PAGE) && ContentCheck(CAPTURED) && ContentCheck(PUBLISHED)
    ensures IndexCheck(Indexed(0)) && IndexCheck(SERVING) && Utf8Length("abc") == 3
  {
    assert TrimSpaces("v1") == "v1";
    assert "abc"[1..] == "bc" && "bc"[1..] == "c" && "c"[1..] == "";
    assert Utf8Length("c") == 1 && Utf8Length("bc") == 2;
  }

  lemma ContentArrives()
    ensures InsertContent(Corpus1(0, 0, map[], map[], map[], map[]), 1, NEW_CONTENT)
            == Some(Corpus1(0, 3, map[1 := NEW_CONTENT], map[], map[], map[]))
  {
    hide AdjustUsage, Charged, Used;
    Uses(0, 3);
    ChargedSoFar(map[], map[]);
    assert ContentsOf(map[], 1) == {};
    RowsPass();
    hide ContentCheck;
  }

  lemma PageArrives()
    ensures InsertPage(Corpus1(0, 3, map[1 := NEW_CONTENT], map[], map[], map[]), PageKey(1, 1), PAGE)
            == Some(Corpus1(0, 3, map[1 := WITH_PAGE], PAGES, map[], map[]))
  {
    RowsPass();
    hide Used, ContentCheck, Utf8Length;
    assert map[1 := NEW_CONTENT][1 := WITH_PAGE] == map[1 := WITH_PAGE];
  }

  lemma ContentIsCaptured()
    ensures UpdateContent(Corpus1(0, 3, map[1 := WITH_PAGE], PAGES, map[], map[]), 1, CAPTURED, false)
            == Some(Corpus1(0, 3, map[1 := CAPTURED], PAGES, map[], map[]))
  {
    hide AdjustUsage, Charged, Used;
    Uses(3, 0);
    ChargedSoFar(map[1 := WITH_PAGE], map[]);
    RowsPass();
    hide ContentCheck;
    assert map[1 := WITH_PAGE][1 := CAPTURED] == map[1 := CAPTURED];
  }

  lemma IndexArrives()
    ensures InsertIndex(Corpus1(0, 3, map[1 := CAPTURED], PAGES, map[], map[]), 1, Indexed(0))
            == Some(Corpus1(0, 19230, map[1 := CAPTURED], PAGES, map[1 := Indexed(0)], Stored(0)))
  {
    hide AdjustUsage, Charged, Used;
    Uses(3, 19227);
    ChargedSoFar(map[1 := CAPTURED], map[]);
    assert IndexesOf(map[], 1) == {};
    RowsPass();
    hide IndexCheck;
  }

  lemma ChunkChecks(n: nat)
    requires 1 <= n <= 3
    ensures ChunkCheck(ChunkNo(n)) && ChunkBytes(ChunkNo(n)) == 6409 && IndexCheck(Indexed(n))
  {
    assert TrimSpaces("v1") == "v1" && TrimSpaces("a") == "a";
    assert Ones()[0] != 0.0;
    assert Utf8Length("a") == 1;
  }

  lemma AttemptsChunk(s: Db, id: Id, row: Chunk)
    ensures Attempt(s, AddChunk(id, row)) == InsertChunk(s, id, row)
  {
    hide InsertChunk;
  }

  lemma StoredNext(n: nat)
    requires n >= 1
    ensures Stored(n) == Stored(n - 1)[n := ChunkNo(n)]
  {
  }

  function Chunked(n: nat): Db {
    Corpus1(0, 19230, map[1 := CAPTURED], PAGES, map[1 := Indexed(n)], Stored(n))
  }

  lemma NextChunkFits(n: nat)
    requires 1 <= n <= 3
    ensures ChunkFits(Chunked(n - 1), n, ChunkNo(n))
  {
    ChunkChecks(n);
    StoredAre(n - 1);
    hide ChunkCheck, ChunkBytes, IndexCheck, Used, Stored, Ones;
    assert Filled(Indexed(n - 1), 1, 1, 6409) == Indexed(n);
  }

  lemma NextChunked(n: nat)
    requires 1 <= n <= 3
    ensures ChunkNo(n).index == 1 && Chunked(n - 1).indexes == map[1 := Indexed(n - 1)] && Chunked(n - 1).chunks == Stored(n - 1)
    ensures Filled(Indexed(n - 1), 1, Embedded(ChunkNo(n)), ChunkBytes(ChunkNo(n))) == Indexed(n)
    ensures Chunked(n) == Chunked(n - 1).(chunks := Stored(n - 1)[n := ChunkNo(n)], indexes := map[1 := Indexed(n)])
  {
    ChunkChecks(n);
    StoredNext(n);
    hide ChunkCheck, ChunkBytes, IndexCheck, Used, Stored, Ones;
  }

  lemma ChunkArrives(n: nat)
    requires 1 <= n <= 3
    ensures Attempt(Chunked(n - 1), AddChunk(n, ChunkNo(n))) == Some(Chunked(n))
  {
    hide *;
    AttemptsChunk(Chunked(n - 1), n, ChunkNo(n));
    NextChunkFits(n);
    ChunkGoesIn(Chunked(n - 1), n, ChunkNo(n));
    NextChunked(n);
    assert map[1 := Indexed(n - 1)][1 := Indexed(n)] == map[1 := Indexed(n)];
  }

  lemma UnreadIndex(s: Db)
    requires s.contents == map[1 := CAPTURED]
    ensures IndexBump(s, Indexed(3), SERVING) == 0 && Bump(s.subjects, 1, 0) == s.subjects
  {
  }

  /** The only index there is moves on, with nothing more reserved and nothing in reach of readers. */
  lemma IndexGoesOn(s: Db, id: Id, row: Index)
    requires s.indexes.Keys == {id} && SameIndexIdentity(s.indexes[id], row) && IndexTransition(s.indexes[id].status, row.status)
    requires (row.reservedBytes, row.actualChunks, row.actualEmbedded, row.actualBytes)
             == (s.indexes[id].reservedBytes, s.indexes[id].actualChunks, s.indexes[id].actualEmbedded, s.indexes[id].actualBytes)
    requires row.document in s.documents && row.space in s.spaces && s.spaces[row.space] == row.profile && IndexCheck(row)
    requires Charged(s.contents, s.indexes, DocumentSlice(row.document)) <= DOCUMENT_BYTES
    requires AdjustUsage(s.usage, s.documents[row.document].subject, s.documents[row.document].uploader, 0, 0) == Some(s.usage)
    requires Bump(s.subjects, row.subject, IndexBump(s, s.indexes[id], row)) == s.subjects
    ensures UpdateIndex(s, id, row, false) == Some(s.(indexes := s.indexes[id := row]))
  {
    hide AdjustUsage, Charged, IndexCheck, IndexBump, Bump, IndexTransition;
  }

  lemma IndexServes()
    ensures UpdateIndex(Corpus1(0, 19230, map[1 := CAPTURED], PAGES, map[1 := Indexed(3)], Stored(3)), 1, SERVING, false)
            == Some(Corpus1(0, 19230, map[1 := CAPTURED], PAGES, map[1 := SERVING], Stored(3)))
  {
    hide AdjustUsage, Charged, Used, Stored;
    Uses(19230, 0);
    ChargedSoFar(map[1 := CAPTURED], map[1 := Indexed(3)]);
    RowsPass();
    var s := Corpus1(0, 19230, map[1 := CAPTURED], PAGES, map[1 := Indexed(3)], Stored(3));
    UnreadIndex(s);
    hide IndexCheck, IndexBump, Bump, UpdateIndex;
    IndexGoesOn(s, 1, SERVING);
    assert map[1 := Indexed(3)][1 := SERVING] == map[1 := SERVING];
  }

  const ANSWERABLE := Corpus1(1, 19230, map[1 := PUBLISHED], PAGES, map[1 := SERVING], Stored(3))

  lemma ContentIsPublished()
    ensures UpdateContent(Corpus1(0, 19230, map[1 := CAPTURED], PAGES, map[1 := SERVING], Stored(3)), 1, PUBLISHED, false) == Some(ANSWERABLE)
  {
    hide AdjustUsage, Charged, Used, Stored;
    Uses(19230, 0);
    ChargedSoFar(map[1 := CAPTURED], map[1 := SERVING]);
    RowsPass();
    hide ContentCheck;
    assert 1 in map[1 := SERVING];
    assert map[1 := CAPTURED][1 := PUBLISHED] == map[1 := PUBLISHED];
    assert map[1 := SUBJECT][1 := SUBJECT.(corpusRevision := 1)] == map[1 := SUBJECT.(corpusRevision := 1)];
  }

  /** What the statements attempt. */
  lemma Attempts(s: Db)
    ensures |CORPUS| == 13
    ensures Attempt(s, CORPUS[4]) == InsertContent(s, 1, NEW_CONTENT) && Attempt(s, CORPUS[5]) == InsertPage(s, PageKey(1, 1), PAGE)
    ensures Attempt(s, CORPUS[6]) == UpdateContent(s, 1, CAPTURED, false) && Attempt(s, CORPUS[7]) == InsertIndex(s, 1, Indexed(0))
    ensures Attempt(s, CORPUS[8]) == Attempt(s, AddChunk(1, ChunkNo(1))) && Attempt(s, CORPUS[9]) == Attempt(s, AddChunk(2, ChunkNo(2)))
    ensures Attempt(s, CORPUS[10]) == Attempt(s, AddChunk(3, ChunkNo(3))) && Attempt(s, CORPUS[11]) == UpdateIndex(s, 1, SERVING, false)
    ensures Attempt(s, CORPUS[12]) == UpdateContent(s, 1, PUBLISHED, false)
  {
    hide InsertContent, InsertPage, UpdateContent, InsertIndex, UpdateIndex, InsertChunk, ChunkNo, Indexed;
  }

  lemma CorpusStands()
    ensures Run(EMPTY_DB, CORPUS) == ANSWERABLE
  {
    hide *;
    Attempts(Corpus1(0, 0, map[], map[], map[], map[]));
    Attempts(Corpus1(0, 3, map[1 := NEW_CONTENT], map[], map[], map[]));
    Attempts(Corpus1(0, 3, map[1 := WITH_PAGE], PAGES, map[], map[]));
    Attempts(Corpus1(0, 19230, map[1 := CAPTURED], PAGES, map[1 := SERVING], Stored(3)));
    CorpusBegins();
    ContentArrives();
    NextStatement(CORPUS, 4, Corpus1(0, 0, map[], map[], map[], map[]), Corpus1(0, 3, map[1 := NEW_CONTENT], map[], map[], map[]));
    PageArrives();
    NextStatement(CORPUS, 5, Corpus1(0, 3, map[1 := NEW_CONTENT], map[], map[], map[]), Corpus1(0, 3, map[1 := WITH_PAGE], PAGES, map[], map[]));
    ContentIsCaptured();
    NextStatement(CORPUS, 6, Corpus1(0, 3, map[1 := WITH_PAGE], PAGES, map[], map[]), Corpus1(0, 3, map[1 := CAPTURED], PAGES, map[], map[]));
    IndexStands();
    ContentIsPublished();
    NextStatement(CORPUS, 12, Corpus1(0, 19230, map[1 := CAPTURED], PAGES, map[1 := SERVING], Stored(3)), ANSWERABLE);
    assert CORPUS[..13] == CORPUS;
  }

  lemma ChunkedMeans()
    ensures Chunked(0) == Corpus1(0, 19230, map[1 := CAPTURED], PAGES, map[1 := Indexed(0)], Stored(0))
    ensures Chunked(3) == Corpus1(0, 19230, map[1 := CAPTURED], PAGES, map[1 := Indexed(3)], Stored(3))
  {
    hide Corpus1, Stored, Indexed;
  }

  lemma IndexStands()
    requires Run(EMPTY_DB, CORPUS[..7]) == Corpus1(0, 3, map[1 := CAPTURED], PAGES, map[], map[])
    ensures Run(EMPTY_DB, CORPUS[..12]) == Corpus1(0, 19230, map[1 := CAPTURED], PAGES, map[1 := SERVING], Stored(3))
  {
    hide *;
    var contents := map[1 := CAPTURED];
    Attempts(Corpus1(0, 3, contents, PAGES, map[], map[]));
    Attempts(Chunked(0));
    Attempts(Chunked(1));
    Attempts(Chunked(2));
    Attempts(Chunked(3));
    ChunkedMeans();
    IndexArrives();
    NextStatement(CORPUS, 7, Corpus1(0, 3, contents, PAGES, map[], map[]), Chunked(0));
    ChunkArrives(1);
    NextStatement(CORPUS, 8, Chunked(0), Chunked(1));
    ChunkArrives(2);
    NextStatement(CORPUS, 9, Chunked(1), Chunked(2));
    ChunkArrives(3);
    NextStatement(CORPUS, 10, Chunked(2), Chunked(3));
    IndexServes();
    NextStatement(CORPUS, 11, Chunked(3), Corpus1(0, 19230, contents, PAGES, map[1 := SERVING], Stored(3)));
  }

  // The answer, step by step

  const TARGET := AskTarget(1, 1, 2, 1, "", "", {}, 1, "space", [], 3, 0)
  const QUESTION := Question(1, 2, 1, true, 100)
  const ASKED := AskJob(TARGET, 1, AskQueued, 0, 0, 0, 100, None, None, None, None, None, None, None, None, false)
  const CLAIMED := ASKED.(
    status := AskRunning, attempts := 1, worker := Some("w"), claimToken := Some(""), heartbeatAt := Some(0), leaseExpiresAt := Some(50),
    retrievalCompletedAt := Some(0))
  const ANSWERED := CLAIMED.(status := AskCompleted, completedAt := Some(1), result := Some(RelatedKnowledge))
  const JUDGMENT := Stage(1, 0, 1, SourceJudgment, Some(0), 1, 0, None, None, false)

  /** The n-th excerpt shows the n-th character of the page, out of the n-th chunk. */
  function Excerpt(n: nat): Evidence {
    Evidence(3, 1, 2, 1, n, 1, 1, 1, CanonicalPage, n - 1, n, 0, 0, 50)
  }

  function Excerpts(n: nat): map<EvidenceKey, Evidence> {
    if n == 0 then map[] else Excerpts(n - 1)[EvidenceKey(1, n) := Excerpt(n)]
  }

  lemma {:induction false} ExcerptsAre(n: nat)
    ensures forall k :: k in Excerpts(n) <==> k.job == 1 && 1 <= k.order <= n
    ensures forall k :: k in Excerpts(n) ==> k.order >= 1 && Excerpts(n)[k] == Excerpt(k.order)
  {
    if n > 0 {
      ExcerptsAre(n - 1);
    }
  }

  function Asked(qs: seq<Statement>): seq<Step> {
    seq(|qs|, i requires 0 <= i < |qs| => Step.Corpus(qs[i]))
  }

  const ANSWERING: seq<Step> := [
    SetReaders({2}, {(2, 1)}), AddQuestion(1, QUESTION), AddAskJob(1, ASKED), EditAskJob(1, CLAIMED), AddStage(1, JUDGMENT),
    AddEvidence(EvidenceKey(1, 1), Excerpt(1), 0), AddEvidence(EvidenceKey(1, 2), Excerpt(2), 0), AddEvidence(EvidenceKey(1, 3), Excerpt(3), 0),
    EditAskJob(1, ANSWERED)]

  /** Statements on the corpus alone do to the corpus what they do without the Ask tables. */
  lemma {:induction false} CorpusOnly(qs: seq<Statement>)
    ensures Reach(EMPTY_WORLD, Asked(qs)) == EMPTY_WORLD.(db := Run(EMPTY_DB, qs))
    decreases |qs|
  {
    if qs != [] {
      hide Attempt;
      var n := |qs| - 1;
      assert Asked(qs)[..n] == Asked(qs[..n]);
      CorpusOnly(qs[..n]);
    }
  }

  lemma NextOffer(steps: seq<Step>, n: nat, w: World, t: World)
    requires n < |steps| && Reach(EMPTY_WORLD, steps[..n]) == w && Offer(w, steps[n]) == Some(t)
    ensures Reach(EMPTY_WORLD, steps[..n + 1]) == t
  {
    hide Offer;
    assert steps[..n + 1][..n] == steps[..n];
  }

  /** The question is asked and its job is claimed, with a judgment and the first n excerpts. */
  ghost predicate Answering(w: World, n: nat) {
    && w.db == ANSWERABLE && w.students == {2} && w.enrollments == {(2, 1)}
    && w.questions == map[1 := QUESTION] && w.jobs == map[1 := CLAIMED] && w.stages == map[1 := JUDGMENT]
    && w.evidence == Excerpts(n)
  }

  lemma OffersAre(w: World)
    ensures Offer(w, ANSWERING[0]) == Some(w.(students := {2}, enrollments := {(2, 1)}))
    ensures Offer(w, ANSWERING[1]) == InsertQuestion(w, 1, QUESTION) && Offer(w, ANSWERING[2]) == InsertAskJob(w, 1, ASKED)
    ensures Offer(w, ANSWERING[3]) == UpdateAskJob(w, 1, CLAIMED) && Offer(w, ANSWERING[4]) == InsertStage(w, 1, JUDGMENT)
  {
    hide InsertQuestion, InsertAskJob, UpdateAskJob, InsertStage, InsertEvidence, Cascade, Attempt;
  }

  lemma FirstOffers(w0: World, w1: World, w2: World, w3: World, w4: World, w5: World)
    requires w0 == EMPTY_WORLD.(db := ANSWERABLE)
    requires w1 == w0.(students := {2}, enrollments := {(2, 1)}) && w2 == w1.(questions := map[1 := QUESTION])
    requires w3 == w2.(jobs := map[1 := ASKED]) && w4 == w3.(jobs := map[1 := CLAIMED]) && w5 == w4.(stages := map[1 := JUDGMENT])
    ensures Offer(w0, ANSWERING[0]) == Some(w1) && Offer(w1, ANSWERING[1]) == Some(w2) && Offer(w2, ANSWERING[2]) == Some(w3)
    ensures Offer(w3, ANSWERING[3]) == Some(w4) && Offer(w4, ANSWERING[4]) == Some(w5)
  {
    QuestionIsPut(w1);
    hide Corpus1, Offer, InsertQuestion, InsertAskJob, UpdateAskJob, InsertStage;
    OffersAre(w0);
    OffersAre(w1);
    OffersAre(w2);
    OffersAre(w3);
    OffersAre(w4);
    JobIsAsked(w2);
    JobIsTaken(w3);
    JudgmentArrives(w4);
  }

  lemma QuestionIsPut(w: World)
    requires w.db == ANSWERABLE && w.questions == map[]
    ensures InsertQuestion(w, 1, QUESTION) == Some(w.(questions := map[1 := QUESTION]))
  {
  }

  lemma JobIsAsked(w: World)
    requires w.questions == map[1 := QUESTION] && w.jobs == map[]
    ensures InsertAskJob(w, 1, ASKED) == Some(w.(jobs := map[1 := ASKED]))
  {
  }

  lemma JobIsTaken(w: World)
    requires w.jobs == map[1 := ASKED]
    ensures UpdateAskJob(w, 1, CLAIMED) == Some(w.(jobs := map[1 := CLAIMED]))
  {
    assert TrimSpaces("w") == "w";
    assert map[1 := ASKED][1 := CLAIMED] == map[1 := CLAIMED];
  }

  lemma JudgmentArrives(w: World)
    requires w.jobs == map[1 := CLAIMED] && w.stages == map[]
    ensures InsertStage(w, 1, JUDGMENT) == Some(w.(stages := map[1 := JUDGMENT]))
  {
  }

  lemma JobIsClaimed(steps: seq<Step>)
    requires |steps| == 22 && steps[..13] == Asked(CORPUS) && steps[13..] == ANSWERING
    ensures Answering(Reach(EMPTY_WORLD, steps[..18]), 0)
  {
    CorpusStands();
    CorpusOnly(CORPUS);
    hide Corpus1, Run, Reach, CORPUS;
    var w0 := EMPTY_WORLD.(db := ANSWERABLE);
    var w1 := w0.(students := {2}, enrollments := {(2, 1)});
    var w2 := w1.(questions := map[1 := QUESTION]);
    var w3 := w2.(jobs := map[1 := ASKED]);
    var w4 := w3.(jobs := map[1 := CLAIMED]);
    var w5 := w4.(stages := map[1 := JUDGMENT]);
    FirstOffers(w0, w1, w2, w3, w4, w5);
    hide Offer;
    forall i | 0 <= i < 5 ensures steps[13 + i] == ANSWERING[i] {
      assert steps[13..][i] == steps[13 + i];
    }
    hide ANSWERING, Asked;
    NextOffer(steps, 13, w0, w1);
    NextOffer(steps, 14, w1, w2);
    NextOffer(steps, 15, w2, w3);
    NextOffer(steps, 16, w3, w4);
    NextOffer(steps, 17, w4, w5);
  }

  lemma Citable(n: nat)
    requires 1 <= n <= 3
    ensures Shown(ANSWERABLE, 1, n) && PassageOf(ANSWERABLE, n) == Passage(ChunkNo(n), "abc") && 1 in ANSWERABLE.subjects
    ensures ANSWERABLE.subjects[1].corpusRevision == 1 && ANSWERABLE.subjects[1].activeSpace == Some("space")
  {
    StoredAre(3);
    hide Stored, Ones, Used;
  }

  lemma ExcerptQuotes(w: World, n: nat)
    requires 1 <= n <= 3 && w.db == ANSWERABLE
    ensures Quotes(w, TARGET, Excerpt(n))
  {
    Citable(n);
    ShownInView(ANSWERABLE, 1, n);
    assert "abc"[n - 1] !in {' ', '\t', '\n', '\r'};
    hide Corpus1, Shown, View, PassageOf, Ones;
    assert View(w.db, 1)[n].page[n - 1] !in {' ', '\t', '\n', '\r'};
  }

  lemma ExcerptFits(w: World, n: nat)
    requires 1 <= n <= 3 && Answering(w, n - 1)
    ensures MayBeShown(w, EvidenceKey(1, n), Excerpt(n), 0)
  {
    ExcerptQuotes(w, n);
    ExcerptsAre(n - 1);
    Citable(n);
    hide Quotes, Corpus1, Excerpts;
    assert JudgedInTime(w.stages[1], 1, 0, 1);
  }

  lemma ExcerptEnters(w: World, n: nat)
    requires AskInv(w) && 1 <= n <= 3 && Answering(w, n - 1)
    ensures var r := Offer(w, AddEvidence(EvidenceKey(1, n), Excerpt(n), 0)); r.Some? && Answering(r.value, n)
  {
    hide AskInv, MayBeShown, Corpus1, Offer, View;
    ExcerptFits(w, n);
    EvidenceAdmitted(w, EvidenceKey(1, n), Excerpt(n), 0);
    EvidenceIsRecorded(w, EvidenceKey(1, n), Excerpt(n), 0);
    assert Excerpts(n) == Excerpts(n - 1)[EvidenceKey(1, n) := Excerpt(n)];
  }

  /**
   * The guards let an answer pass: this run ends with a job completed as related Knowledge, with exactly
   * three excerpts, numbered from one.
   */
  lemma AnswerWithThreeExcerpts()
    ensures var w := Reach(EMPTY_WORLD, Asked(CORPUS) + ANSWERING);
            && w.jobs == map[1 := ANSWERED] && w.jobs[1].status == AskCompleted && w.jobs[1].result == Some(RelatedKnowledge)
            && NumberedTo(w.evidence, 1, 3)
  {
    hide Offer, Reach, Corpus1, Asked, CORPUS, ANSWERING, Attempt, Excerpt;
    var steps := Asked(CORPUS) + ANSWERING;
    Attempts(EMPTY_DB);
    LastOffers();
    AskedLength(CORPUS);
    Parts(Asked(CORPUS), ANSWERING, 8);
    JobIsClaimed(steps);
    ExcerptsFollow(steps);
    var w := Reach(EMPTY_WORLD, steps[..21]);
    Finishes(w);
    NextOffer(steps, 21, w, Offer(w, EditAskJob(1, ANSWERED)).value);
    assert steps[..22] == steps;
  }

  lemma AskedLength(qs: seq<Statement>)
    ensures |Asked(qs)| == |qs|
  {
  }

  lemma Parts(a: seq<Step>, b: seq<Step>, i: nat)
    requires i < |b|
    ensures (a + b)[..|a|] == a && (a + b)[|a|..] == b && (a + b)[|a| + i] == b[i]
  {
  }

  lemma LastOffers()
    ensures |ANSWERING| == 9 && ANSWERING[5] == AddEvidence(EvidenceKey(1, 1), Excerpt(1), 0)
    ensures ANSWERING[6] == AddEvidence(EvidenceKey(1, 2), Excerpt(2), 0) && ANSWERING[7] == AddEvidence(EvidenceKey(1, 3), Excerpt(3), 0)
    ensures ANSWERING[8] == EditAskJob(1, ANSWERED)
  {
  }

  lemma ExcerptsFollow(steps: seq<Step>)
    requires |steps| == 22 && steps[13..] == ANSWERING && Answering(Reach(EMPTY_WORLD, steps[..18]), 0)
    ensures Answering(Reach(EMPTY_WORLD, steps[..21]), 3)
  {
    hide *;
    LastOffers();
    assert steps[18] == steps[13..][5] && steps[19] == steps[13..][6] && steps[20] == steps[13..][7];
    ExcerptStep(steps, 18, 1);
    ExcerptStep(steps, 19, 2);
    ExcerptStep(steps, 20, 3);
  }

  lemma ExcerptStep(steps: seq<Step>, i: nat, n: nat)
    requires i < |steps| && 1 <= n <= 3 && steps[i] == AddEvidence(EvidenceKey(1, n), Excerpt(n), 0)
    requires Answering(Reach(EMPTY_WORLD, steps[..i]), n - 1)
    ensures Answering(Reach(EMPTY_WORLD, steps[..i + 1]), n)
  {
    hide *;
    var w := Reach(EMPTY_WORLD, steps[..i]);
    ReachableAskInv(steps[..i]);
    ExcerptEnters(w, n);
    NextOffer(steps, i, w, Offer(w, steps[i]).value);
  }

  lemma AnswerPasses()
    ensures AskJobCheck(ANSWERED)
  {
    assert TrimSpaces("w") == "w";
  }

  lemma Finishes(w: World)
    requires Answering(w, 3)
    ensures NumberedTo(w.evidence, 1, 3)
    ensures Offer(w, EditAskJob(1, ANSWERED)) == Some(w.(jobs := map[1 := ANSWERED]))
  {
    ExcerptsAre(3);
    Citable(1);
    AnswerPasses();
    hide AskJobCheck, Corpus1, Excerpts, Offer;
    assert map[1 := CLAIMED][1 := ANSWERED] == map[1 := ANSWERED];
    forall o: int ensures EvidenceKey(1, o) in w.evidence <==> 1 <= o <= 3 {
    }
    CompletionAdmitted(w, 1, ANSWERED);
  }
}
