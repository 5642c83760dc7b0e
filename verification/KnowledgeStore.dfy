/**
 * The Knowledge triggers as the database runs them: tables changed in place, counters adjusted scope by
 * scope, parents updated from their children's triggers, cascades walked row by row. Every method is
 * proved against the specification of its statement; a refused statement leaves every table as it was.
 */
module KnowledgeStore {
  import opened Prelude
  import opened MapSums
  import opened KnowledgeTables
  import S = KnowledgeStatements
  import opened KnowledgeInvariants
  import opened KnowledgeCounters
  import opened KnowledgeRuns
  import opened IndexJobs

  /** The outcome a statement must have: admitted with the specified state, or refused with nothing changed. */
  predicate Outcome(before: Db, specified: Option<Db>, ok: bool, after: Db) {
    if specified.Some? then ok && after == specified.value else !ok && after == before
  }

  lemma OutcomeMeans(before: Db, specified: Option<Db>, ok: bool, after: Db)
    ensures Outcome(before, specified, ok, after)
            <==> if specified.Some? then ok && after == specified.value else !ok && after == before
  {
  }

  /** What is left of the four child tables once a document is gone. */
  ghost predicate RowsGone(
      p: map<PageKey, Page>, x: map<Id, Index>, k: map<Id, Chunk>, j: map<Id, Job>,
      p': map<PageKey, Page>, x': map<Id, Index>, k': map<Id, Chunk>, j': map<Id, Job>, document: Id)
  {
    && p' == (map i | i in p && p[i].document != document :: p[i])
    && x' == (map i | i in x && x[i].document != document :: x[i])
    && k' == (map i | i in k && k[i].document != document :: k[i])
    && j' == (map i | i in j && j[i].document != document :: j[i])
  }

  ghost predicate ContentsGone(before: map<Id, Content>, after: map<Id, Content>, document: Id) {
    after == map c | c in before && before[c].document != document :: before[c]
  }

  ghost predicate ChunksGone(k: map<Id, Chunk>, j: map<Id, Job>, k': map<Id, Chunk>, j': map<Id, Job>, index: Id) {
    && k' == (map i | i in k && k[i].index != index :: k[i])
    && j' == (map i | i in j && j[i].index != index :: j[i])
  }

  /** What is left of the other child tables once a content revision is gone. */
  ghost predicate ContentRowsGone(
      p: map<PageKey, Page>, k: map<Id, Chunk>, j: map<Id, Job>,
      p': map<PageKey, Page>, k': map<Id, Chunk>, j': map<Id, Job>, content: Id)
  {
    && p' == (map i | i in p && i.content != content :: p[i])
    && k' == (map i | i in k && k[i].content != content :: k[i])
    && j' == (map i | i in j && j[i].content != content :: j[i])
  }

  ghost predicate IndexesGone(before: map<Id, Index>, after: map<Id, Index>, content: Id) {
    after == map x | x in before && before[x].content != content :: before[x]
  }

  class Store {
    var instructors: set<Id>
    var spaces: map<Hash, Profile>
    var subjects: map<Id, Subject>
    var documents: map<Id, Document>
    var contents: map<Id, Content>
    var pages: map<PageKey, Page>
    var indexes: map<Id, Index>
    var chunks: map<Id, Chunk>
    var jobs: map<Id, Job>
    var usage: map<Scope, Usage>

    constructor ()
      ensures State() == EMPTY_DB
    {
      instructors, spaces, subjects, documents, contents := {}, map[], map[], map[], map[];
      pages, indexes, chunks, jobs, usage := map[], map[], map[], map[], map[];
    }

    function State(): (s: Db)
      reads this
      ensures s == Db(instructors, spaces, subjects, documents, contents, pages, indexes, chunks, jobs, usage)
    {
      Db(instructors, spaces, subjects, documents, contents, pages, indexes, chunks, jobs, usage)
    }

    // knowledge_adjust_usage

    /** Create the counter row if it is missing, add to it, drop it if it is back at zero; global row excepted. */
    method AdjustUsage(subject: Id, uploader: Id, documentsDelta: int, bytesDelta: int) returns (ok: bool)
      modifies this`usage
      ensures ok == S.AdjustUsage(old(usage), subject, uploader, documentsDelta, bytesDelta).Some?
      ensures ok ==> S.AdjustUsage(old(usage), subject, uploader, documentsDelta, bytesDelta) == Some(usage)
    {
      var scopes := [Global, OfSubject(subject), OfUploader(uploader)];
      var i := 0;
      while i < |scopes|
        invariant 0 <= i <= |scopes|
        invariant S.AdjustScopes(old(usage), scopes, documentsDelta, bytesDelta)
                  == S.AdjustScopes(usage, scopes[i..], documentsDelta, bytesDelta)
      {
        var scope := scopes[i];
        ghost var before := usage;
        if scope !in usage {
          usage := usage[scope := Usage(0, 0)];
        }
        var row := Usage(usage[scope].documents + documentsDelta, usage[scope].bytes + bytesDelta);
        assert scopes[i..][0] == scope && scopes[i..][1..] == scopes[i + 1..];
        hide S.AdjustScope, UsageCheck;
        if !UsageCheck(scope, row) {
          CounterRefused(before, scope, documentsDelta, bytesDelta);
          return false;
        }
        usage := usage[scope := row];
        if scope != Global && row == Usage(0, 0) {
          usage := usage - {scope};
        }
        CounterMoved(before, usage, scope, documentsDelta, bytesDelta);
        i := i + 1;
      }
      ok := true;
    }

    // Sums and counts a guard selects

    /** All reserved bytes of a document: pages first, then indexes. */
    method SumCharges(document: Id) returns (total: int)
      ensures total == S.Charged(contents, indexes, S.DocumentSlice(document))
    {
      hide Total;
      total := 0;
      var c := set k | k in contents && contents[k].document == document;
      ghost var left := S.ContentCharges(contents, S.DocumentSlice(document));
      while c != {}
        invariant left.Keys == c
        invariant forall k :: k in left ==> k in contents && left[k] == contents[k].reservedBytes
        invariant total + Total(left) == Total(S.ContentCharges(contents, S.DocumentSlice(document)))
        decreases |c|
      {
        var k :| k in c;
        TotalRemove(left, k);
        total, c := total + contents[k].reservedBytes, c - {k};
        left := left - {k};
      }
      EmptyTotal(left);
      var x := set k | k in indexes && indexes[k].document == document;
      ghost var rest := S.IndexCharges(indexes, S.DocumentSlice(document));
      while x != {}
        invariant rest.Keys == x
        invariant forall k :: k in rest ==> k in indexes && rest[k] == indexes[k].reservedBytes
        invariant total + Total(rest) == S.Charged(contents, indexes, S.DocumentSlice(document))
        decreases |x|
      {
        var k :| k in x;
        TotalRemove(rest, k);
        total, x := total + indexes[k].reservedBytes, x - {k};
        rest := rest - {k};
      }
      EmptyTotal(rest);
    }

    // knowledge_bump_corpus

    method BumpCorpus(subject: Id)
      modifies this`subjects
      ensures subjects == S.Bump(old(subjects), subject, 1)
    {
      if subject in subjects {
        subjects := subjects[subject := subjects[subject].(corpusRevision := subjects[subject].corpusRevision + 1)];
      }
    }

    method ContentChanged(old_: Content, row: Content)
      modifies this`subjects
      ensures subjects == S.Bump(old(subjects), row.subject, S.ContentBump(old_, row))
    {
      if !S.SamePublication(old_, row) && (old_.Live() || row.Live()) {
        BumpCorpus(row.subject);
      }
    }

    method IndexChanged(old_: Index, row: Index)
      modifies this`subjects
      ensures subjects == S.Bump(old(subjects), row.subject, S.IndexBump(old(State()), old_, row))
    {
      if !(old_.status == row.status && old_.isActive == row.isActive)
         && S.Exposed(subjects, contents, row) && (old_.Serving() || row.Serving()) {
        BumpCorpus(row.subject);
      }
    }

    method ContentRemoved(row: Content)
      modifies this`subjects
      ensures subjects == S.Bump(old(subjects), row.subject, if row.Live() then 1 else 0)
    {
      if row.Live() {
        BumpCorpus(row.subject);
      }
    }

    method IndexRemoved(row: Index)
      modifies this`subjects
      ensures subjects == S.Bump(old(subjects), row.subject, if S.Exposed(old(subjects), contents, row) && row.Serving() then 1 else 0)
    {
      if S.Exposed(subjects, contents, row) && row.Serving() {
        BumpCorpus(row.subject);
      }
    }

    // knowledge_revision_guard, content rows

    method InsertContent(id: Id, row: Content) returns (ok: bool)
      modifies this
      ensures Outcome(old(State()), S.InsertContent(old(State()), id, row), ok, State())
    {
      if id in contents || row.document !in documents {
        return false;
      }
      var d := documents[row.document];
      if !(row.subject == d.subject && row.uploader == d.uploader) {
        return false;
      }
      if row.status != Processing || row.isActive || row.actualPages != 0 || row.actualChars != 0 || row.actualBytes != 0
         || row.reviewedAt.Some? || row.reviewedBy.Some? || row.publishedAt.Some? || row.error.Some? {
        return false;
      }
      if |S.ContentsOf(contents, row.document)| >= CONTENT_REVISIONS {
        return false;
      }
      var total := SumCharges(row.document);
      if total + row.reservedBytes > DOCUMENT_BYTES || !ContentCheck(row) || !S.UniqueContent(contents, id, row) {
        return false;
      }
      var before := usage;
      ok := AdjustUsage(d.subject, d.uploader, 0, row.reservedBytes);
      if ok {
        contents := contents[id := row];
      } else {
        usage := before;
      }
    }

    method UpdateContent(id: Id, row: Content, nested: bool) returns (ok: bool)
      modifies this
      ensures Outcome(old(State()), S.UpdateContent(old(State()), id, row, nested), ok, State())
    {
      hide S.Charged, S.AdjustUsage, S.UniqueContent, ContentCheck, S.HasReadyIndex, S.SameContentIdentity, S.SameMeasures;
      hide S.ContentTransition, S.ContentBump, S.Bump;
      if id !in contents || contents[id].document !in documents {
        return false;
      }
      var old_ := contents[id];
      var d := documents[old_.document];
      if !S.SameContentIdentity(old_, row) || !(row.status == old_.status || S.ContentTransition(old_.status, row.status)) {
        return false;
      }
      if !nested && !S.SameMeasures(old_, row) {
        return false;
      }
      if row.status == PendingIndex || row.status == ContentReady {
        if !row.Complete() {
          return false;
        }
        if row.status == ContentReady && !S.HasReadyIndex(indexes, id) {
          return false;
        }
      }
      var total := SumCharges(old_.document);
      var delta := row.reservedBytes - old_.reservedBytes;
      if total + delta > DOCUMENT_BYTES || !ContentCheck(row) || !S.UniqueContent(contents, id, row) {
        return false;
      }
      var before := usage;
      ok := AdjustUsage(d.subject, d.uploader, 0, delta);
      if !ok {
        usage := before;
        return;
      }
      contents := contents[id := row];
      ContentChanged(old_, row);
    }

    // knowledge_page_guard: the page's trigger updates its content, whose own triggers run in turn

    method InsertPage(key: PageKey, row: Page) returns (ok: bool)
      requires Inv(State())
      modifies this
      ensures Outcome(old(State()), S.InsertPage(old(State()), key, row), ok, State())
    {
      hide Inv, S.UpdateContent, ContentCheck, PageCheck, Utf8Length;
      if key in pages || !PageCheck(key, row) || key.content !in contents {
        return false;
      }
      var parent := contents[key.content];
      if (row.document, row.subject, row.uploader) != (parent.document, parent.subject, parent.uploader) {
        return false;
      }
      if parent.status != Processing || key.number > parent.reservedPages {
        return false;
      }
      ghost var s := State();
      var next := S.Measured(parent, 1, |row.text|, Utf8Length(row.text));
      ok := UpdateContent(key.content, next, true);
      NestedContent(s, key.content, next);
      if ok {
        pages := pages[key := row];
      }
    }

    method UpdatePage(key: PageKey, row: Page) returns (ok: bool)
      requires Inv(State())
      modifies this
      ensures Outcome(old(State()), S.UpdatePage(old(State()), key, row), ok, State())
    {
      hide Inv, S.UpdateContent, ContentCheck, PageCheck, Utf8Length;
      if key !in pages || !PageCheck(key, row) || key.content !in contents {
        return false;
      }
      var parent, old_ := contents[key.content], pages[key];
      if (row.document, row.subject, row.uploader) != (old_.document, old_.subject, old_.uploader) {
        return false;
      }
      if parent.status != Processing || key.number > parent.reservedPages {
        return false;
      }
      ghost var s := State();
      var next := S.Measured(parent, 0, |row.text| - |old_.text|, Utf8Length(row.text) - Utf8Length(old_.text));
      ok := UpdateContent(key.content, next, true);
      NestedContent(s, key.content, next);
      if ok {
        pages := pages[key := row];
      }
    }

    method DeletePage(key: PageKey) returns (ok: bool)
      requires Inv(State())
      modifies this
      ensures Outcome(old(State()), S.DeletePage(old(State()), key), ok, State())
    {
      hide Inv, S.UpdateContent, ContentCheck, PageCheck, Utf8Length;
      if key !in pages || key.content !in contents {
        return false;
      }
      var parent, old_ := contents[key.content], pages[key];
      if parent.status != Processing {
        return false;
      }
      ghost var s := State();
      var next := S.Measured(parent, -1, 0 - |old_.text|, 0 - Utf8Length(old_.text));
      ok := UpdateContent(key.content, next, true);
      NestedContent(s, key.content, next);
      if ok {
        pages := pages - {key};
      }
    }

    // knowledge_revision_guard, index rows

    method InsertIndex(id: Id, row: Index) returns (ok: bool)
      modifies this
      ensures Outcome(old(State()), S.InsertIndex(old(State()), id, row), ok, State())
    {
      if id in indexes || row.document !in documents || row.content !in contents {
        return false;
      }
      var d, c := documents[row.document], contents[row.content];
      if (row.document, row.subject, row.uploader) != (c.document, c.subject, c.uploader) {
        return false;
      }
      if row.status != Staged || row.isActive || row.actualChunks != 0 || row.actualEmbedded != 0 || row.actualBytes != 0
         || row.error.Some? {
        return false;
      }
      if row.space !in spaces || spaces[row.space] != row.profile {
        return false;
      }
      if c.status != PendingIndex && c.status != ContentReady {
        return false;
      }
      if |S.IndexesOf(indexes, row.document)| >= INDEX_REVISIONS {
        return false;
      }
      var total := SumCharges(row.document);
      if total + row.reservedBytes > DOCUMENT_BYTES || !IndexCheck(row) || !S.UniqueIndex(indexes, id, row) {
        return false;
      }
      var before := usage;
      ok := AdjustUsage(d.subject, d.uploader, 0, row.reservedBytes);
      if ok {
        indexes := indexes[id := row];
      } else {
        usage := before;
      }
    }

    method UpdateIndex(id: Id, row: Index, nested: bool) returns (ok: bool)
      modifies this
      ensures Outcome(old(State()), S.UpdateIndex(old(State()), id, row, nested), ok, State())
    {
      hide S.Charged, S.AdjustUsage, S.UniqueIndex, IndexCheck, S.SameIndexIdentity, S.Exposed, S.IndexTransition, S.Bump;
      if id !in indexes || indexes[id].document !in documents {
        return false;
      }
      var old_ := indexes[id];
      var d := documents[old_.document];
      if !S.SameIndexIdentity(old_, row) || !(row.status == old_.status || S.IndexTransition(old_.status, row.status)) {
        return false;
      }
      if row.space !in spaces || spaces[row.space] != row.profile {
        return false;
      }
      if !nested && (row.actualChunks, row.actualEmbedded, row.actualBytes)
                    != (old_.actualChunks, old_.actualEmbedded, old_.actualBytes) {
        return false;
      }
      var total := SumCharges(old_.document);
      var delta := row.reservedBytes - old_.reservedBytes;
      if total + delta > DOCUMENT_BYTES || !IndexCheck(row) || !S.UniqueIndex(indexes, id, row) {
        return false;
      }
      var before := usage;
      ok := AdjustUsage(d.subject, d.uploader, 0, delta);
      if !ok {
        usage := before;
        return;
      }
      indexes := indexes[id := row];
      IndexChanged(old_, row);
    }

    method DeleteIndex(id: Id) returns (ok: bool)
      modifies this
      ensures Outcome(old(State()), S.DeleteIndex(old(State()), id), ok, State())
    {
      hide *;
      IndexRefused(State(), id);
      if id !in indexes || indexes[id].document !in documents {
        OutcomeMeans(State(), S.DeleteIndex(State(), id), false, State());
        return false;
      }
      var old_ := indexes[id];
      var d := documents[old_.document];
      var before := usage;
      ok := AdjustUsage(d.subject, d.uploader, 0, -old_.reservedBytes);
      if !ok {
        usage := before;
        OutcomeMeans(old(State()), S.DeleteIndex(old(State()), id), false, State());
        return;
      }
      indexes := indexes - {id};
      DropChunksOf(id);
      IndexRemoved(old_);
      IndexGone(old(State()), State(), id);
      OutcomeMeans(old(State()), S.DeleteIndex(old(State()), id), true, State());
    }

    method DropChunksOf(index: Id)
      modifies this`chunks, this`jobs
      ensures ChunksGone(old(chunks), old(jobs), chunks, jobs, index)
    {
      chunks := map k | k in chunks && chunks[k].index != index :: chunks[k];
      jobs := map j | j in jobs && jobs[j].index != index :: jobs[j];
    }

    /** The revision releases its own bytes; then the cascade walks its indexes, each releasing its own. */
    method DeleteContent(id: Id) returns (ok: bool)
      requires Inv(State())
      modifies this
      ensures Outcome(old(State()), S.DeleteContent(old(State()), id), ok, State())
    {
      hide *;
      ContentReleases(State(), id);
      if id !in contents || contents[id].document !in documents {
        OutcomeMeans(State(), S.DeleteContent(State(), id), false, State());
        return false;
      }
      var old_ := contents[id];
      var d := documents[old_.document];
      ghost var s := State();
      ok := AdjustUsage(d.subject, d.uploader, 0, -old_.reservedBytes);
      ghost var usageAfterOwn := usage;
      ContentReleased(s, id, usage);
      contents := contents - {id};
      ContentRemoved(old_);
      ReleaseIndexes(id, d.subject, d.uploader);
      DropContentRows(id);
      ContentGone(s, usageAfterOwn, State(), id);
      OutcomeMeans(old(State()), S.DeleteContent(old(State()), id), true, State());
    }

    method DropContentRows(content: Id)
      modifies this`pages, this`chunks, this`jobs
      ensures ContentRowsGone(old(pages), old(chunks), old(jobs), pages, chunks, jobs, content)
    {
      pages := map p | p in pages && p.content != content :: pages[p];
      chunks := map k | k in chunks && chunks[k].content != content :: chunks[k];
      jobs := map j | j in jobs && jobs[j].content != content :: jobs[j];
    }

    /** The cascaded removal of one index: its own guard gives its bytes back. */
    method ReleaseIndex(x: Id, subject: Id, uploader: Id, ghost start: map<Scope, Usage>, ghost released: int, ghost rest: int)
      requires x in indexes && indexes[x].reservedBytes >= 0 && rest >= 0
      requires Holds(usage, subject, uploader, indexes[x].reservedBytes + rest) && Released(start, usage, subject, uploader, released)
      modifies this`usage, this`indexes
      ensures indexes == old(indexes) - {x}
      ensures Holds(usage, subject, uploader, rest)
      ensures Released(start, usage, subject, uploader, released + old(indexes)[x].reservedBytes)
    {
      hide *;
      ReleaseMore(start, usage, subject, uploader, released, indexes[x].reservedBytes, rest);
      var ok := AdjustUsage(subject, uploader, 0, -indexes[x].reservedBytes);
      indexes := indexes - {x};
    }

    method ReleaseIndexes(content: Id, subject: Id, uploader: Id)
      requires Holds(usage, subject, uploader, Total(S.IndexesOfContent(indexes, content)))
      requires forall x :: x in indexes ==> indexes[x].reservedBytes >= 0
      modifies this`usage, this`indexes
      ensures IndexesGone(old(indexes), indexes, content)
      ensures Released(old(usage), usage, subject, uploader, Total(S.IndexesOfContent(old(indexes), content)))
    {
      hide *;
      var todo := S.IndexesOfContent(indexes, content).Keys;
      ghost var start, startUsage, released := indexes, usage, 0;
      NothingReleased(start, usage, subject, uploader, content);
      while todo != {}
        invariant Releasing(start, startUsage, indexes, usage, subject, uploader, content, todo, released)
        decreases |todo|
      {
        var x :| x in todo;
        ghost var before, usageBefore := indexes, usage;
        NextRelease(start, startUsage, indexes, usage, subject, uploader, content, todo, released, x);
        ReleaseIndex(x, subject, uploader, startUsage, released, Total(Rest(start, todo - {x})));
        IndexReleased(start, startUsage, before, usageBefore, usage, subject, uploader, content, todo, released, x);
        released := released + start[x].reservedBytes;
        todo := todo - {x};
      }
      AllReleased(start, startUsage, indexes, usage, subject, uploader, content, released);
    }

    // knowledge_chunk_guard: the chunk's trigger updates its index, whose own triggers run in turn

    method InsertChunk(id: Id, row: Chunk) returns (ok: bool)
      requires Inv(State())
      modifies this
      ensures Outcome(old(State()), S.InsertChunk(old(State()), id, row), ok, State())
    {
      hide Inv, S.UpdateIndex, IndexCheck, ChunkCheck, ChunkBytes, Embedded;
      if id in chunks || !ChunkCheck(row) || row.index !in indexes {
        return false;
      }
      var parent := indexes[row.index];
      if (row.content, row.document, row.subject, row.uploader, row.space)
         != (parent.content, parent.document, parent.subject, parent.uploader, parent.space) {
        return false;
      }
      if PageKey(row.content, row.pageNumber) !in pages {
        return false;
      }
      if exists k | k in chunks && chunks[k].index == row.index :: chunks[k].position == row.position {
        return false;
      }
      if !parent.Open() || row.position >= parent.reservedChunks {
        return false;
      }
      ghost var s := State();
      var next := S.Filled(parent, 1, Embedded(row), ChunkBytes(row));
      ok := UpdateIndex(row.index, next, true);
      NestedIndex(s, row.index, next);
      if ok {
        chunks := chunks[id := row];
      }
    }

    method UpdateChunk(id: Id, row: Chunk) returns (ok: bool)
      requires Inv(State())
      modifies this
      ensures Outcome(old(State()), S.UpdateChunk(old(State()), id, row), ok, State())
    {
      hide Inv, S.UpdateIndex, IndexCheck, ChunkCheck, ChunkBytes, Embedded;
      if id !in chunks || !ChunkCheck(row) || chunks[id].index !in indexes {
        return false;
      }
      var old_ := chunks[id];
      var parent := indexes[old_.index];
      if (row.index, row.content, row.document, row.subject, row.uploader, row.position, row.pageNumber, row.space)
         != (old_.index, old_.content, old_.document, old_.subject, old_.uploader, old_.position, old_.pageNumber, old_.space) {
        return false;
      }
      if !parent.Open() || row.position >= parent.reservedChunks {
        return false;
      }
      ghost var s := State();
      var next := S.Filled(parent, 0, Embedded(row) - Embedded(old_), ChunkBytes(row) - ChunkBytes(old_));
      ok := UpdateIndex(row.index, next, true);
      NestedIndex(s, row.index, next);
      if ok {
        chunks := chunks[id := row];
      }
    }

    method DeleteChunk(id: Id) returns (ok: bool)
      requires Inv(State())
      modifies this
      ensures Outcome(old(State()), S.DeleteChunk(old(State()), id), ok, State())
    {
      hide Inv, S.UpdateIndex, IndexCheck, ChunkCheck, ChunkBytes, Embedded;
      if id !in chunks || chunks[id].index !in indexes {
        return false;
      }
      var old_ := chunks[id];
      var parent := indexes[old_.index];
      if !parent.Open() {
        return false;
      }
      ghost var s := State();
      var next := S.Filled(parent, -1, -Embedded(old_), -ChunkBytes(old_));
      ok := UpdateIndex(old_.index, next, true);
      NestedIndex(s, old_.index, next);
      if ok {
        chunks := chunks - {id};
      }
    }

    // knowledge_document_guard

    method InsertDocument(id: Id, row: Document) returns (ok: bool)
      modifies this
      ensures Outcome(old(State()), S.InsertDocument(old(State()), id, row), ok, State())
    {
      if id in documents || !DocumentCheck(row) || row.uploader !in instructors {
        return false;
      }
      if row.subject !in subjects || subjects[row.subject].instructor != row.uploader {
        return false;
      }
      var before := usage;
      ok := AdjustUsage(row.subject, row.uploader, 1, 0);
      if ok {
        documents := documents[id := row];
      } else {
        usage := before;
      }
    }

    /** One release for the whole document; then the cascade removes its revisions, each live one moving the stamp. */
    method DeleteDocument(id: Id) returns (ok: bool)
      modifies this
      ensures Outcome(old(State()), S.DeleteDocument(old(State()), id), ok, State())
    {
      hide *;
      ghost var s := State();
      DocumentRefused(s, id);
      if id !in documents {
        return false;
      }
      var d := documents[id];
      var total := SumCharges(id);
      var before := usage;
      ok := AdjustUsage(d.subject, d.uploader, -1, -total);
      if !ok {
        usage := before;
        return;
      }
      documents := documents - {id};
      DropContentsOf(id, d.subject);
      DropRowsOf(id);
      DocumentGone(s, State(), id);
    }

    method DropRowsOf(id: Id)
      modifies this`pages, this`indexes, this`chunks, this`jobs
      ensures RowsGone(old(pages), old(indexes), old(chunks), old(jobs), pages, indexes, chunks, jobs, id)
    {
      pages := map p | p in pages && pages[p].document != id :: pages[p];
      indexes := map x | x in indexes && indexes[x].document != id :: indexes[x];
      chunks := map k | k in chunks && chunks[k].document != id :: chunks[k];
      jobs := map j | j in jobs && jobs[j].document != id :: jobs[j];
    }

    method DropContentsOf(id: Id, subject: Id)
      modifies this`contents, this`subjects
      ensures ContentsGone(old(contents), contents, id)
      ensures subjects == S.Bump(old(subjects), subject, |S.LiveContents(old(contents), id)|)
    {
      var todo := S.ContentsOf(contents, id);
      ghost var gone, all, live := {}, todo, S.LiveContents(contents, id);
      BumpNone(subjects, subject);
      hide S.Bump, S.LiveContents;
      while todo != {}
        invariant gone !! todo && gone + todo == all
        invariant contents == old(contents) - gone
        invariant subjects == S.Bump(old(subjects), subject, |gone * live|)
        decreases |todo|
      {
        var c :| c in todo;
        var row := contents[c];
        contents := contents - {c};
        LiveMeans(old(contents), id, c);
        OneMoreGone(gone, live, c);
        if row.Live() {
          BumpCorpus(subject);
          BumpOnce(old(subjects), subject, |gone * live|);
        }
        todo, gone := todo - {c}, gone + {c};
      }
      AllGone(old(contents), id);
    }

    // knowledge_subject_guard and knowledge_job_guard

    method UpdateSubject(id: Id, row: Subject) returns (ok: bool)
      modifies this
      ensures Outcome(old(State()), S.UpdateSubject(old(State()), id, row), ok, State())
      ensures forall k :: k in old(subjects) <==> k in subjects
      ensures forall k :: k in old(subjects) ==> old(subjects)[k].corpusRevision <= subjects[k].corpusRevision
      ensures forall k :: k in old(subjects) ==>
                (subjects[k].activeSpace, subjects[k].stagedSpace) == (old(subjects)[k].activeSpace, old(subjects)[k].stagedSpace)
                || old(subjects)[k].corpusRevision < subjects[k].corpusRevision
      ensures ok ==> id in subjects && (subjects[id].activeSpace, subjects[id].stagedSpace) == (row.activeSpace, row.stagedSpace)
    {
      if id !in subjects || row.corpusRevision < subjects[id].corpusRevision {
        return false;
      }
      var next := row;
      if (row.activeSpace, row.stagedSpace) != (subjects[id].activeSpace, subjects[id].stagedSpace) {
        next := next.(corpusRevision := Max(next.corpusRevision, subjects[id].corpusRevision + 1));
      }
      if !SubjectCheck(next) || !S.SpaceKnown(spaces, row.activeSpace) || !S.SpaceKnown(spaces, row.stagedSpace) {
        return false;
      }
      if row.instructor != subjects[id].instructor && exists d | d in documents :: documents[d].subject == id {
        return false;
      }
      subjects := subjects[id := next];
      ok := true;
    }

    method UpdateJob(id: Id, row: Job) returns (ok: bool)
      modifies this
      ensures Outcome(old(State()), S.UpdateJob(old(State()), id, row), ok, State())
      ensures JobMovesOn(old(jobs), jobs, id)
    {
      if id !in jobs {
        return false;
      }
      hide JobCheck, S.ResultReady, S.SameJobTarget, JobMovesOn;
      NoJobMoves(jobs, id);
      var old_ := jobs[id];
      if old_.Terminal() && row != old_ {
        return false;
      }
      if row.status != old_.status && !S.JobTransition(old_.status, row.status) {
        return false;
      }
      if row.attempts != old_.attempts
         && !(old_.status == Queued && row.status == Running && row.attempts == old_.attempts + 1) {
        return false;
      }
      if old_.status == Queued && row.status == Running && row.attempts != old_.attempts + 1 {
        return false;
      }
      if old_.status == Running && row.status == Running && (row.worker, row.claimToken) != (old_.worker, old_.claimToken) {
        return false;
      }
      if !S.SameJobTarget(old_, row) {
        return false;
      }
      if old_.cancellationRequestedAt.Some? && row.cancellationRequestedAt != old_.cancellationRequestedAt {
        return false;
      }
      if !S.ResultReady(indexes, row) || !JobCheck(row) {
        return false;
      }
      JobReplaced(jobs, id, row);
      jobs := jobs[id := row];
      ok := true;
    }
  }

  /** No job but one changes, an ended one not even so; a change of status is paid for, and claims alone raise the attempts. */
  ghost predicate JobMovesOn(before: map<Id, Job>, after: map<Id, Job>, id: Id) {
    && after.Keys == before.Keys
    && (forall j :: j in after && (before[j].Terminal() || j != id) ==> after[j] == before[j])
    && (id in after ==>
          && Spent(after[id]) >= Spent(before[id]) + (if after[id].status != before[id].status then 1 else 0)
          && after[id].attempts
             == before[id].attempts + (if before[id].status == Queued && after[id].status == Running then 1 else 0))
  }

  lemma NoJobMoves(jobs: map<Id, Job>, id: Id)
    ensures JobMovesOn(jobs, jobs, id)
  {
  }

  lemma JobReplaced(jobs: map<Id, Job>, id: Id, row: Job)
    requires id in jobs && S.JobGuard(jobs[id], row)
    ensures JobMovesOn(jobs, jobs[id := row], id)
  {
    GuardPays(jobs[id], row);
  }

  /** Every counter of the scope can still give back this many bytes. */
  ghost predicate Holds(usage: map<Scope, Usage>, subject: Id, uploader: Id, bytes: int) {
    && CountersBounded(usage) && Global in usage
    && forall scope :: Touches(scope, subject, uploader) ==> S.Lookup(usage, scope).bytes >= bytes
  }

  /** The counters of the scope, and no others, have given back exactly this many bytes. */
  ghost predicate Released(before: map<Scope, Usage>, after: map<Scope, Usage>, subject: Id, uploader: Id, bytes: int) {
    && CountersBounded(after) && Global in after
    && forall scope ::
         && S.Lookup(after, scope).documents == S.Lookup(before, scope).documents
         && S.Lookup(after, scope).bytes == S.Lookup(before, scope).bytes - (if Touches(scope, subject, uploader) then bytes else 0)
  }

  lemma ReleasedNothing(usage: map<Scope, Usage>, subject: Id, uploader: Id, bytes: int)
    requires Holds(usage, subject, uploader, bytes)
    ensures Released(usage, usage, subject, uploader, 0)
  {
  }

  lemma GlobalStays(usage: map<Scope, Usage>, subject: Id, uploader: Id, documents: int, bytes: int)
    requires S.AdjustUsage(usage, subject, uploader, documents, bytes).Some?
    ensures Global in S.AdjustUsage(usage, subject, uploader, documents, bytes).value
  {
    var scopes := [Global, OfSubject(subject), OfUploader(uploader)];
    assert scopes[1..] == [OfSubject(subject), OfUploader(uploader)] && scopes[1..][1..] == [OfUploader(uploader)];
    var first := S.AdjustScope(usage, Global, documents, bytes).value;
    assert S.AdjustUsage(usage, subject, uploader, documents, bytes) == S.AdjustScopes(first, scopes[1..], documents, bytes);
    var second := S.AdjustScope(first, OfSubject(subject), documents, bytes).value;
    assert S.AdjustScopes(first, scopes[1..], documents, bytes) == S.AdjustScopes(second, scopes[1..][1..], documents, bytes);
    assert scopes[1..][1..][1..] == [];
    var third := S.AdjustScope(second, OfUploader(uploader), documents, bytes).value;
    assert S.AdjustScopes(second, scopes[1..][1..], documents, bytes) == Some(third);
  }

  /** Giving back part of what is held is never refused, and the rest is still held. */
  lemma ReleaseMore(start: map<Scope, Usage>, usage: map<Scope, Usage>, subject: Id, uploader: Id, released: int, part: int, rest: int)
    requires Holds(usage, subject, uploader, part + rest) && part >= 0 && rest >= 0
    requires Released(start, usage, subject, uploader, released)
    ensures S.AdjustUsage(usage, subject, uploader, 0, -part).Some?
    ensures var next := S.AdjustUsage(usage, subject, uploader, 0, -part).value;
            Holds(next, subject, uploader, rest) && Released(start, next, subject, uploader, released + part)
  {
    hide S.AdjustUsage, S.Lookup, Touches, CountersBounded;
    forall scope | Touches(scope, subject, uploader)
      ensures S.Lookup(usage, scope).documents + 0 >= 0 && S.Lookup(usage, scope).bytes + (0 - part) >= 0
    {
      LookupNonNegative(usage, scope);
    }
    AdjustDown(usage, subject, uploader, 0, 0 - part);
    var next := S.AdjustUsage(usage, subject, uploader, 0, -part).value;
    forall scope
      ensures S.Lookup(next, scope).documents == S.Lookup(usage, scope).documents
      ensures S.Lookup(next, scope).bytes == S.Lookup(usage, scope).bytes - (if Touches(scope, subject, uploader) then part else 0)
      ensures CountersBounded(next)
    {
      AdjustUsageEffect(usage, subject, uploader, 0, 0 - part, scope);
    }
    AdjustUsageEffect(usage, subject, uploader, 0, 0 - part, Global);
    GlobalStays(usage, subject, uploader, 0, 0 - part);
  }

  lemma LookupNonNegative(usage: map<Scope, Usage>, scope: Scope)
    requires CountersBounded(usage)
    ensures S.Lookup(usage, scope).documents >= 0 && S.Lookup(usage, scope).bytes >= 0
  {
  }

  /** Counters in normal form are determined by what a lookup sees. */
  lemma CountersDetermined(a: map<Scope, Usage>, b: map<Scope, Usage>)
    requires CountersBounded(a) && CountersBounded(b) && Global in a && Global in b
    requires forall scope :: S.Lookup(a, scope) == S.Lookup(b, scope)
    ensures a == b
  {
    forall scope ensures scope in a <==> scope in b {
      assert S.Lookup(a, scope) == S.Lookup(b, scope);
    }
    forall scope | scope in a ensures a[scope] == b[scope] {
      assert S.Lookup(a, scope) == S.Lookup(b, scope);
    }
  }

  lemma BumpNone(subjects: map<Id, Subject>, subject: Id)
    ensures S.Bump(subjects, subject, 0) == subjects
  {
  }

  lemma BumpOnce(subjects: map<Id, Subject>, subject: Id, n: nat)
    ensures S.Bump(S.Bump(subjects, subject, n), subject, 1) == S.Bump(subjects, subject, n + 1)
  {
  }

  lemma LiveMeans(contents: map<Id, Content>, id: Id, c: Id)
    requires c in contents && contents[c].document == id
    ensures c in S.LiveContents(contents, id) <==> contents[c].Live()
  {
  }

  lemma OneMoreGone(gone: set<Id>, live: set<Id>, c: Id)
    requires c !in gone
    ensures |(gone + {c}) * live| == |gone * live| + (if c in live then 1 else 0)
  {
    if c in live {
      assert (gone + {c}) * live == gone * live + {c};
    } else {
      assert (gone + {c}) * live == gone * live;
    }
  }

  lemma AllGone(contents: map<Id, Content>, id: Id)
    ensures ContentsGone(contents, contents - S.ContentsOf(contents, id), id)
    ensures S.ContentsOf(contents, id) * S.LiveContents(contents, id) == S.LiveContents(contents, id)
  {
  }

  lemma DocumentRefused(s: Db, id: Id)
    ensures id !in s.documents
            || S.AdjustUsage(s.usage, s.documents[id].subject, s.documents[id].uploader, -1,
                             0 - S.Charged(s.contents, s.indexes, S.DocumentSlice(id))).None?
            ==> Outcome(s, S.DeleteDocument(s, id), false, s)
  {
    hide S.AdjustUsage, S.Charged, S.Bump, S.LiveContents;
  }

  /** The rows a document's cascade leaves, table by table. */
  lemma DocumentGone(s: Db, t: Db, id: Id)
    requires id in s.documents
    requires var d := s.documents[id];
             S.AdjustUsage(s.usage, d.subject, d.uploader, -1, 0 - S.Charged(s.contents, s.indexes, S.DocumentSlice(id))) == Some(t.usage)
             && t.subjects == S.Bump(s.subjects, d.subject, |S.LiveContents(s.contents, id)|)
    requires t.instructors == s.instructors && t.spaces == s.spaces && t.documents == s.documents - {id}
    requires ContentsGone(s.contents, t.contents, id) && RowsGone(s.pages, s.indexes, s.chunks, s.jobs, t.pages, t.indexes, t.chunks, t.jobs, id)
    ensures Outcome(s, S.DeleteDocument(s, id), true, t)
  {
    hide S.AdjustUsage, S.Charged, S.Bump, S.LiveContents;
    var u := S.DeleteDocument(s, id).value;
    assert u.contents == t.contents && u.pages == t.pages && u.indexes == t.indexes && u.chunks == t.chunks && u.jobs == t.jobs;
  }

  lemma CounterRefused(before: map<Scope, Usage>, scope: Scope, documents: int, bytes: int)
    requires var row := S.Lookup(before, scope); !UsageCheck(scope, Usage(row.documents + documents, row.bytes + bytes))
    ensures S.AdjustScope(before, scope, documents, bytes) == None
  {
  }

  /** Creating the row, adding to it and dropping it at zero is what the specification says in one go. */
  lemma CounterMoved(before: map<Scope, Usage>, after: map<Scope, Usage>, scope: Scope, documents: int, bytes: int)
    requires var created := if scope in before then before else before[scope := Usage(0, 0)];
             var row := Usage(created[scope].documents + documents, created[scope].bytes + bytes);
             && UsageCheck(scope, row)
             && after == if scope != Global && row == Usage(0, 0) then created[scope := row] - {scope} else created[scope := row]
    ensures S.AdjustScope(before, scope, documents, bytes) == Some(after)
  {
    var created := if scope in before then before else before[scope := Usage(0, 0)];
    var row := Usage(created[scope].documents + documents, created[scope].bytes + bytes);
    assert created[scope := row] == before[scope := row];
    assert created[scope := row] - {scope} == before - {scope};
  }

  /** What the indexes still to be removed will release. */
  ghost function Rest(indexes: map<Id, Index>, todo: set<Id>): map<Id, int> {
    map x | x in todo && x in indexes :: indexes[x].reservedBytes
  }

  /** The cascade under way: of the content's indexes those in `todo` remain, and the others have given back `released`. */
  ghost predicate Releasing(start: map<Id, Index>, startUsage: map<Scope, Usage>, indexes: map<Id, Index>, usage: map<Scope, Usage>,
                            subject: Id, uploader: Id, content: Id, todo: set<Id>, released: int)
  {
    var all := S.IndexesOfContent(start, content).Keys;
    && (forall x :: x in start ==> start[x].reservedBytes >= 0)
    && todo <= all <= start.Keys && indexes == start - (all - todo)
    && released + Total(Rest(start, todo)) == Total(S.IndexesOfContent(start, content))
    && Holds(usage, subject, uploader, Total(Rest(start, todo)))
    && Released(startUsage, usage, subject, uploader, released)
  }

  lemma NothingReleased(start: map<Id, Index>, usage: map<Scope, Usage>, subject: Id, uploader: Id, content: Id)
    requires Holds(usage, subject, uploader, Total(S.IndexesOfContent(start, content)))
    requires forall x :: x in start ==> start[x].reservedBytes >= 0
    ensures Releasing(start, usage, start, usage, subject, uploader, content, S.IndexesOfContent(start, content).Keys, 0)
  {
    hide Holds, Released, Total;
    var all := S.IndexesOfContent(start, content).Keys;
    assert Rest(start, all) == S.IndexesOfContent(start, content);
    assert start - (all - all) == start;
    ReleasedNothing(usage, subject, uploader, Total(Rest(start, all)));
  }

  lemma NextRelease(start: map<Id, Index>, startUsage: map<Scope, Usage>, indexes: map<Id, Index>, usage: map<Scope, Usage>,
                    subject: Id, uploader: Id, content: Id, todo: set<Id>, released: int, x: Id)
    requires Releasing(start, startUsage, indexes, usage, subject, uploader, content, todo, released) && x in todo
    ensures x in start && x in indexes && indexes[x] == start[x] && start[x].reservedBytes >= 0
    ensures Total(Rest(start, todo - {x})) >= 0
    ensures Holds(usage, subject, uploader, indexes[x].reservedBytes + Total(Rest(start, todo - {x})))
    ensures Released(startUsage, usage, subject, uploader, released)
  {
    hide Holds, Released, Total, Rest, S.IndexesOfContent;
    RestWithout(start, S.IndexesOfContent(start, content).Keys, todo, x);
  }

  lemma IndexReleased(start: map<Id, Index>, startUsage: map<Scope, Usage>, indexes: map<Id, Index>, usage: map<Scope, Usage>,
                      usage': map<Scope, Usage>, subject: Id, uploader: Id, content: Id, todo: set<Id>, released: int, x: Id)
    requires Releasing(start, startUsage, indexes, usage, subject, uploader, content, todo, released) && x in todo && x in start
    requires Holds(usage', subject, uploader, Total(Rest(start, todo - {x})))
    requires Released(startUsage, usage', subject, uploader, released + start[x].reservedBytes)
    ensures Releasing(start, startUsage, indexes - {x}, usage', subject, uploader, content, todo - {x}, released + start[x].reservedBytes)
  {
    hide Holds, Released, Total, Rest, S.IndexesOfContent;
    RestWithout(start, S.IndexesOfContent(start, content).Keys, todo, x);
  }

  lemma AllReleased(start: map<Id, Index>, startUsage: map<Scope, Usage>, indexes: map<Id, Index>, usage: map<Scope, Usage>,
                    subject: Id, uploader: Id, content: Id, released: int)
    requires Releasing(start, startUsage, indexes, usage, subject, uploader, content, {}, released)
    ensures IndexesGone(start, indexes, content)
    ensures Released(startUsage, usage, subject, uploader, Total(S.IndexesOfContent(start, content)))
  {
    hide Holds, Released;
    assert Rest(start, {}) == map[];
    assert S.IndexesOfContent(start, content).Keys - {} == S.IndexesOfContent(start, content).Keys;
  }

  lemma RestWithout(indexes: map<Id, Index>, all: set<Id>, todo: set<Id>, x: Id)
    requires x in todo && todo <= all <= indexes.Keys
    requires forall k :: k in indexes ==> indexes[k].reservedBytes >= 0
    ensures Total(Rest(indexes, todo)) == indexes[x].reservedBytes + Total(Rest(indexes, todo - {x}))
    ensures Total(Rest(indexes, todo - {x})) >= 0
    ensures indexes - (all - (todo - {x})) == (indexes - (all - todo)) - {x}
    ensures x in indexes - (all - todo) && (indexes - (all - todo))[x] == indexes[x]
  {
    TotalRemove(Rest(indexes, todo), x);
    TotalNonNegative(Rest(indexes, todo - {x}));
    assert Rest(indexes, todo) - {x} == Rest(indexes, todo - {x});
    assert all - (todo - {x}) == (all - todo) + {x};
  }

  lemma IndexRefused(s: Db, id: Id)
    ensures S.DeleteIndex(s, id).Some? <==>
              id in s.indexes && s.indexes[id].document in s.documents
              && S.AdjustUsage(s.usage, s.documents[s.indexes[id].document].subject, s.documents[s.indexes[id].document].uploader,
                               0, 0 - s.indexes[id].reservedBytes).Some?
  {
    hide S.AdjustUsage, S.Bump, S.Exposed;
  }

  lemma IndexGone(s: Db, t: Db, id: Id)
    requires id in s.indexes && s.indexes[id].document in s.documents
    requires var d := s.documents[s.indexes[id].document];
             S.AdjustUsage(s.usage, d.subject, d.uploader, 0, 0 - s.indexes[id].reservedBytes) == Some(t.usage)
    requires t.subjects == S.Bump(s.subjects, s.indexes[id].subject,
                                  if S.Exposed(s.subjects, s.contents, s.indexes[id]) && s.indexes[id].Serving() then 1 else 0)
    requires t.instructors == s.instructors && t.spaces == s.spaces && t.documents == s.documents
    requires t.contents == s.contents && t.pages == s.pages && t.indexes == s.indexes - {id}
    requires ChunksGone(s.chunks, s.jobs, t.chunks, t.jobs, id)
    ensures S.DeleteIndex(s, id) == Some(t)
  {
    hide S.AdjustUsage, S.Bump, S.Exposed;
    var u := S.DeleteIndex(s, id).value;
    assert u.chunks == t.chunks && u.jobs == t.jobs;
  }

  /** A content revision's own bytes and those of its indexes are all still held by its three counters. */
  lemma ContentHeld(s: Db, id: Id)
    requires Inv(s) && id in s.contents
    ensures s.contents[id].document in s.documents
    ensures s.contents[id].reservedBytes >= 0 && Total(S.IndexesOfContent(s.indexes, id)) >= 0
    ensures forall x :: x in s.indexes ==> s.indexes[x].reservedBytes >= 0
    ensures var d := s.documents[s.contents[id].document];
            Holds(s.usage, d.subject, d.uploader, s.contents[id].reservedBytes + Total(S.IndexesOfContent(s.indexes, id)))
  {
    hide S.Charged, CountersBounded, Conserved, DocumentsCapped, Measures, S.Lookup, Total, S.IndexesOfContent;
    hide SubjectRefs, DocumentRefs, ContentRefs, PageRefs, IndexRefs, ChunkRefs, ChunkPositions, JobRefs, UniqueRevisions;
    var row := s.contents[id];
    ContentScopes(s);
    assert ContentScoped(s, id);
    ReservationsNonNegative(s);
    IndexesOfContentNonNegative(s.indexes, id);
    var d := s.documents[row.document];
    DocumentKeepsRest(s, id);
    forall scope | Touches(scope, d.subject, d.uploader)
      ensures S.Lookup(s.usage, scope).bytes >= row.reservedBytes + Total(S.IndexesOfContent(s.indexes, id))
    {
      ScopeHoldsDocument(s, row.document, scope);
    }
    ScopeHoldsDocument(s, row.document, Global);
    HeldCounterExists(s.usage, Global);
  }

  lemma HeldCounterExists(usage: map<Scope, Usage>, scope: Scope)
    requires S.Lookup(usage, scope).documents >= 1
    ensures scope in usage
  {
  }

  lemma IndexesOfContentNonNegative(indexes: map<Id, Index>, content: Id)
    requires forall x :: x in indexes ==> indexes[x].reservedBytes >= 0
    ensures Total(S.IndexesOfContent(indexes, content)) >= 0
  {
    hide Total;
    TotalNonNegative(S.IndexesOfContent(indexes, content));
  }

  lemma DocumentKeepsRest(s: Db, id: Id)
    requires Refs(s) && id in s.contents
    ensures s.contents[id].reservedBytes + Total(S.IndexesOfContent(s.indexes, id))
            <= S.Charged(s.contents, s.indexes, S.DocumentSlice(s.contents[id].document))
  {
    hide S.Charged, Total, SubjectRefs, DocumentRefs, ContentRefs, PageRefs, IndexRefs, ChunkRefs, ChunkPositions, JobRefs, UniqueRevisions;
    var row := s.contents[id];
    var slice := S.DocumentSlice(row.document);
    var contents, indexes := s.contents - {id}, map x | x in s.indexes && s.indexes[x].content != id :: s.indexes[x];
    ContentScopes(s);
    IndexScopes(s);
    assert ContentScoped(s, id);
    forall x | x in s.indexes && s.indexes[x].content == id
      ensures (s.indexes[x].document, s.indexes[x].subject, s.indexes[x].uploader) == (row.document, row.subject, row.uploader)
    {
      assert IndexScoped(s, x);
    }
    ContentCut(s.contents, s.indexes, id, slice);
    IndexesCut(contents, s.indexes, indexes, id, row, slice);
    ReservationsNonNegative(s);
    ChargesNonNegative(contents, indexes, slice);
  }

  lemma ContentReleases(s: Db, id: Id)
    requires Inv(s)
    ensures S.DeleteContent(s, id).Some? <==> id in s.contents
    ensures id in s.contents ==>
              && s.contents[id].document in s.documents
              && S.AdjustUsage(s.usage, s.documents[s.contents[id].document].subject, s.documents[s.contents[id].document].uploader,
                               0, 0 - s.contents[id].reservedBytes).Some?
    ensures forall x :: x in s.indexes ==> s.indexes[x].reservedBytes >= 0
  {
    hide Inv, S.AdjustUsage, S.Bump, S.IndexesOfContent, Total, Holds, Released;
    if id in s.contents {
      ContentHeld(s, id);
      var row, all := s.contents[id], Total(S.IndexesOfContent(s.indexes, id));
      var d := s.documents[row.document];
      ReleasedNothing(s.usage, d.subject, d.uploader, row.reservedBytes + all);
      ReleaseMore(s.usage, s.usage, d.subject, d.uploader, 0, row.reservedBytes, all);
      ReleaseMore(s.usage, s.usage, d.subject, d.uploader, 0, row.reservedBytes + all, 0);
    }
    NoNegativeIndex(s);
  }

  lemma NoNegativeIndex(s: Db)
    requires Inv(s)
    ensures forall x :: x in s.indexes ==> s.indexes[x].reservedBytes >= 0
  {
    hide SubjectRefs, DocumentRefs, PageRefs, ChunkRefs, ChunkPositions, JobRefs, UniqueRevisions, Measures, Counters;
    ReservationsNonNegative(s);
  }

  lemma ContentReleased(s: Db, id: Id, usage: map<Scope, Usage>)
    requires Inv(s) && id in s.contents && s.contents[id].document in s.documents
    requires var d := s.documents[s.contents[id].document];
             S.AdjustUsage(s.usage, d.subject, d.uploader, 0, 0 - s.contents[id].reservedBytes) == Some(usage)
    ensures var d := s.documents[s.contents[id].document];
            && Released(s.usage, usage, d.subject, d.uploader, s.contents[id].reservedBytes)
            && Holds(usage, d.subject, d.uploader, Total(S.IndexesOfContent(s.indexes, id)))
  {
    hide Inv, S.AdjustUsage, S.IndexesOfContent, Total, Holds, Released;
    ContentHeld(s, id);
    var row, all := s.contents[id], Total(S.IndexesOfContent(s.indexes, id));
    var d := s.documents[row.document];
    ReleasedNothing(s.usage, d.subject, d.uploader, row.reservedBytes + all);
    ReleaseMore(s.usage, s.usage, d.subject, d.uploader, 0, row.reservedBytes, all);
  }

  /** Two releases in a row leave the counters where one release of the sum would. */
  lemma ReleasedTwice(start: map<Scope, Usage>, mid: map<Scope, Usage>, end: map<Scope, Usage>, subject: Id, uploader: Id, a: int, b: int)
    requires Holds(start, subject, uploader, a + b) && a >= 0 && b >= 0
    requires Released(start, mid, subject, uploader, a) && Released(mid, end, subject, uploader, b)
    ensures S.AdjustUsage(start, subject, uploader, 0, 0 - (a + b)) == Some(end)
  {
    hide S.AdjustUsage, S.Lookup, CountersBounded;
    ReleasedNothing(start, subject, uploader, a + b);
    ReleaseMore(start, start, subject, uploader, 0, a + b, 0);
    var once := S.AdjustUsage(start, subject, uploader, 0, 0 - (a + b)).value;
    forall scope ensures S.Lookup(once, scope) == S.Lookup(end, scope) {
      assert S.Lookup(end, scope).bytes == S.Lookup(mid, scope).bytes - (if Touches(scope, subject, uploader) then b else 0);
      assert S.Lookup(mid, scope).bytes == S.Lookup(start, scope).bytes - (if Touches(scope, subject, uploader) then a else 0);
    }
    CountersDetermined(once, end);
  }

  lemma ContentGone(s: Db, mid: map<Scope, Usage>, t: Db, id: Id)
    requires Inv(s) && id in s.contents && s.contents[id].document in s.documents
    requires var d := s.documents[s.contents[id].document];
             && Released(s.usage, mid, d.subject, d.uploader, s.contents[id].reservedBytes)
             && Released(mid, t.usage, d.subject, d.uploader, Total(S.IndexesOfContent(s.indexes, id)))
    requires t.subjects == S.Bump(s.subjects, s.contents[id].subject, if s.contents[id].Live() then 1 else 0)
    requires (t.instructors, t.spaces, t.documents, t.contents) == (s.instructors, s.spaces, s.documents, s.contents - {id})
    requires IndexesGone(s.indexes, t.indexes, id)
    requires ContentRowsGone(s.pages, s.chunks, s.jobs, t.pages, t.chunks, t.jobs, id)
    ensures S.DeleteContent(s, id) == Some(t)
  {
    hide Inv, S.AdjustUsage, S.Bump, S.IndexesOfContent, Total, Holds, Released;
    ContentHeld(s, id);
    var d := s.documents[s.contents[id].document];
    ReleasedTwice(s.usage, mid, t.usage, d.subject, d.uploader, s.contents[id].reservedBytes, Total(S.IndexesOfContent(s.indexes, id)));
    var u := S.DeleteContent(s, id).value;
    assert u.pages == t.pages && u.indexes == t.indexes && u.chunks == t.chunks && u.jobs == t.jobs;
  }

  /** An update that only moves measured columns of content in `processing` is admitted exactly when the row check allows it. */
  lemma NestedContent(s: Db, id: Id, next: Content)
    requires Inv(s) && id in s.contents && s.contents[id].status == Processing
    requires next == s.contents[id].(actualPages := next.actualPages, actualChars := next.actualChars, actualBytes := next.actualBytes)
    ensures S.UpdateContent(s, id, next, true)
            == if ContentCheck(next) then Some(s.(contents := s.contents[id := next])) else None
  {
    hide Inv, ContentCheck, S.Charged, S.AdjustUsage, S.UniqueContent;
    ContentNeighbours(s, id, next);
    NothingToAdjust(s, s.contents[id].document);
  }

  lemma ContentNeighbours(s: Db, id: Id, next: Content)
    requires Inv(s) && id in s.contents
    requires (next.document, next.revisionNo, next.isActive) == (s.contents[id].document, s.contents[id].revisionNo, s.contents[id].isActive)
    ensures s.contents[id].document in s.documents
    ensures S.UniqueContent(s.contents, id, next)
    ensures S.Charged(s.contents, s.indexes, S.DocumentSlice(s.contents[id].document)) <= DOCUMENT_BYTES
  {
    hide Measures, ContentCheck, S.Charged, SubjectRefs, DocumentRefs, PageRefs, IndexRefs, ChunkRefs, ChunkPositions, JobRefs, Conserved;
    assert ContentRef(s.documents, s.contents[id]);
  }

  lemma NothingToAdjust(s: Db, d: Id)
    requires Inv(s) && d in s.documents
    ensures S.AdjustUsage(s.usage, s.documents[d].subject, s.documents[d].uploader, 0, 0) == Some(s.usage)
  {
    hide Measures, SubjectRefs, DocumentRefs, ContentRefs, PageRefs, IndexRefs, ChunkRefs, ChunkPositions, JobRefs, UniqueRevisions;
    hide S.AdjustUsage, S.Charged, CountersBounded, Conserved, DocumentsCapped;
    var subject, uploader := s.documents[d].subject, s.documents[d].uploader;
    ScopeHoldsDocument(s, d, Global);
    ScopeHoldsDocument(s, d, OfSubject(subject));
    ScopeHoldsDocument(s, d, OfUploader(uploader));
    AdjustNothing(s.usage, subject, uploader);
  }

  /** The same for an index that is still open. */
  lemma NestedIndex(s: Db, id: Id, next: Index)
    requires Inv(s) && id in s.indexes && s.indexes[id].Open()
    requires next == s.indexes[id].(actualChunks := next.actualChunks, actualEmbedded := next.actualEmbedded, actualBytes := next.actualBytes)
    ensures S.UpdateIndex(s, id, next, true)
            == if IndexCheck(next) then Some(s.(indexes := s.indexes[id := next])) else None
  {
    hide Inv, IndexCheck, S.Charged, S.AdjustUsage, S.UniqueIndex, S.Exposed;
    IndexNeighbours(s, id, next);
    NothingToAdjust(s, s.indexes[id].document);
  }

  lemma IndexNeighbours(s: Db, id: Id, next: Index)
    requires Inv(s) && id in s.indexes && s.indexes[id].Open()
    requires (next.content, next.revisionNo, next.isActive) == (s.indexes[id].content, s.indexes[id].revisionNo, s.indexes[id].isActive)
    ensures s.indexes[id].document in s.documents
    ensures s.indexes[id].space in s.spaces && s.spaces[s.indexes[id].space] == s.indexes[id].profile
    ensures S.UniqueIndex(s.indexes, id, next)
    ensures S.Charged(s.contents, s.indexes, S.DocumentSlice(s.indexes[id].document)) <= DOCUMENT_BYTES
  {
    hide Measures, ContentCheck, S.Charged, SubjectRefs, DocumentRefs, PageRefs, ChunkRefs, ChunkPositions, JobRefs, Conserved;
    assert IndexRef(s.spaces, s.contents, s.indexes[id]);
    assert ContentRef(s.documents, s.contents[s.indexes[id].content]);
  }
}
