/** The measured columns always equal the stored pages and chunks. */
module KnowledgeMeasures {
  import opened Prelude
  import opened MapSums
  import opened KnowledgeTables
  import opened KnowledgeStatements
  import opened KnowledgeInvariants
  import opened KnowledgeRefs

  // Pages of one content revision

  /** How the measures of content `c` differ between two page tables that differ only at content `at`. */
  ghost predicate PagesShift(
      pages: map<PageKey, Page>, pages': map<PageKey, Page>, c: Id, at: Id, count: int, chars: int, bytes: int)
  {
    && |PagesOf(pages', c)| == |PagesOf(pages, c)| + (if c == at then count else 0)
    && Total(PageChars(pages', c)) == Total(PageChars(pages, c)) + (if c == at then chars else 0)
    && Total(PageBytes(pages', c)) == Total(PageBytes(pages, c)) + (if c == at then bytes else 0)
  }

  lemma PagesElsewhere(pages: map<PageKey, Page>, pages': map<PageKey, Page>, p: PageKey, c: Id, count: int, chars: int, bytes: int)
    requires p.content != c && pages - {p} == pages' - {p}
    ensures PagesShift(pages, pages', c, p.content, count, chars, bytes)
  {
    hide Utf8Length, Total;
    forall q: PageKey | q.content == c ensures (q in pages) == (q in pages') && (q in pages ==> pages[q] == pages'[q]) {
      assert (q in pages - {p}) == (q in pages' - {p});
      assert q in pages - {p} ==> (pages - {p})[q] == (pages' - {p})[q];
    }
    assert PagesOf(pages', c) == PagesOf(pages, c);
    assert PageChars(pages', c) == PageChars(pages, c);
    assert PageBytes(pages', c) == PageBytes(pages, c);
  }

  lemma OneMoreElement<T>(s: set<T>, x: T)
    ensures |s + {x}| == |s| + (if x in s then 0 else 1)
  {
    if x in s {
      assert s + {x} == s;
    }
  }

  lemma PageCountPut(pages: map<PageKey, Page>, p: PageKey, row: Page)
    ensures |PagesOf(pages[p := row], p.content)| == |PagesOf(pages, p.content)| + (if p in pages then 0 else 1)
  {
    var before := PagesOf(pages, p.content);
    assert p in before <==> p in pages;
    assert PagesOf(pages[p := row], p.content) == before + {p};
    OneMoreElement(before, p);
  }

  lemma PageCharsPut(pages: map<PageKey, Page>, p: PageKey, row: Page)
    ensures Total(PageChars(pages[p := row], p.content))
            == Total(PageChars(pages, p.content)) + |row.text| - (if p in pages then |pages[p].text| else 0)
  {
    hide Total;
    assert PageChars(pages[p := row], p.content) == PageChars(pages, p.content)[p := |row.text|];
    TotalUpdate(PageChars(pages, p.content), p, |row.text|);
  }

  lemma PageBytesPut(pages: map<PageKey, Page>, p: PageKey, row: Page)
    ensures Total(PageBytes(pages[p := row], p.content))
            == Total(PageBytes(pages, p.content)) + Utf8Length(row.text) - (if p in pages then Utf8Length(pages[p].text) else 0)
  {
    hide Total, Utf8Length;
    assert PageBytes(pages[p := row], p.content) == PageBytes(pages, p.content)[p := Utf8Length(row.text)];
    TotalUpdate(PageBytes(pages, p.content), p, Utf8Length(row.text));
  }

  lemma PagePut(pages: map<PageKey, Page>, p: PageKey, row: Page, c: Id)
    ensures PagesShift(pages, pages[p := row], c, p.content,
                       if p in pages then 0 else 1,
                       |row.text| - (if p in pages then |pages[p].text| else 0),
                       Utf8Length(row.text) - (if p in pages then Utf8Length(pages[p].text) else 0))
  {
    hide Utf8Length, Total, PagesOf, PageChars, PageBytes;
    if p.content == c {
      PageCountPut(pages, p, row);
      PageCharsPut(pages, p, row);
      PageBytesPut(pages, p, row);
    } else {
      PagesElsewhere(pages, pages[p := row], p, c, if p in pages then 0 else 1, |row.text| - (if p in pages then |pages[p].text| else 0),
                     Utf8Length(row.text) - (if p in pages then Utf8Length(pages[p].text) else 0));
    }
  }

  /** Taking a page out is the reverse of putting it in. */
  lemma PageCut(pages: map<PageKey, Page>, p: PageKey, c: Id)
    requires p in pages
    ensures PagesShift(pages, pages - {p}, c, p.content, -1, 0 - |pages[p].text|, 0 - Utf8Length(pages[p].text))
  {
    hide Utf8Length, Total, PagesOf, PageChars, PageBytes;
    PagePut(pages - {p}, p, pages[p], c);
    assert (pages - {p})[p := pages[p]] == pages;
  }

  /** Pages that survive a cascade keep measuring the content that survives with them. */
  lemma PagesShrink(contents: map<Id, Content>, pages: map<PageKey, Page>, contents': map<Id, Content>, pages': map<PageKey, Page>)
    requires MeasuredPages(contents, pages)
    requires Sub(contents', contents) && Sub(pages', pages)
    requires forall p :: p in pages && p.content in contents' ==> p in pages'
    ensures MeasuredPages(contents', pages')
  {
    hide Utf8Length, Total, PagesOf, PageChars, PageBytes;
    forall c | c in contents' ensures ContentMeasured(pages', c, contents'[c]) {
      assert ContentMeasured(pages, c, contents[c]);
      SamePages(pages, pages', c);
    }
  }

  lemma SamePages(pages: map<PageKey, Page>, pages': map<PageKey, Page>, c: Id)
    requires Sub(pages', pages) && forall p :: p in pages && p.content == c ==> p in pages'
    ensures PagesOf(pages', c) == PagesOf(pages, c)
    ensures PageChars(pages', c) == PageChars(pages, c)
    ensures PageBytes(pages', c) == PageBytes(pages, c)
  {
    hide Utf8Length;
  }

  lemma NoPages(contents: map<Id, Content>, pages: map<PageKey, Page>, c: Id)
    requires PageRefs(contents, pages) && c !in contents
    ensures PagesOf(pages, c) == {} && PageChars(pages, c) == map[] && PageBytes(pages, c) == map[]
  {
    forall p | p in pages ensures p.content != c {
      assert PageRef(contents, p, pages[p]);
    }
  }

  // Chunks of one index revision

  ghost predicate ChunksShift(
      chunks: map<Id, Chunk>, chunks': map<Id, Chunk>, x: Id, at: Id, count: int, embedded: int, bytes: int)
  {
    && |ChunksOf(chunks', x)| == |ChunksOf(chunks, x)| + (if x == at then count else 0)
    && Total(ChunkEmbeddings(chunks', x)) == Total(ChunkEmbeddings(chunks, x)) + (if x == at then embedded else 0)
    && Total(ChunkSizes(chunks', x)) == Total(ChunkSizes(chunks, x)) + (if x == at then bytes else 0)
  }

  lemma ChunksElsewhere(chunks: map<Id, Chunk>, chunks': map<Id, Chunk>, k: Id, x: Id, at: Id, count: int, embedded: int, bytes: int)
    requires at != x && chunks - {k} == chunks' - {k}
    requires k in chunks ==> chunks[k].index != x
    requires k in chunks' ==> chunks'[k].index != x
    ensures ChunksShift(chunks, chunks', x, at, count, embedded, bytes)
  {
    hide ChunkBytes, Total, Embedded;
    forall l | l != k ensures (l in chunks) == (l in chunks') && (l in chunks ==> chunks[l] == chunks'[l]) {
      assert (l in chunks - {k}) == (l in chunks' - {k});
      assert l in chunks - {k} ==> (chunks - {k})[l] == (chunks' - {k})[l];
    }
    assert ChunksOf(chunks', x) == ChunksOf(chunks, x);
    assert ChunkEmbeddings(chunks', x) == ChunkEmbeddings(chunks, x);
    assert ChunkSizes(chunks', x) == ChunkSizes(chunks, x);
  }

  lemma ChunkCountPut(chunks: map<Id, Chunk>, k: Id, row: Chunk)
    requires k in chunks ==> chunks[k].index == row.index
    ensures |ChunksOf(chunks[k := row], row.index)| == |ChunksOf(chunks, row.index)| + (if k in chunks then 0 else 1)
  {
    var before := ChunksOf(chunks, row.index);
    assert k in before <==> k in chunks;
    assert ChunksOf(chunks[k := row], row.index) == before + {k};
    OneMoreElement(before, k);
  }

  lemma ChunkEmbeddingsPut(chunks: map<Id, Chunk>, k: Id, row: Chunk)
    requires k in chunks ==> chunks[k].index == row.index
    ensures Total(ChunkEmbeddings(chunks[k := row], row.index))
            == Total(ChunkEmbeddings(chunks, row.index)) + Embedded(row) - (if k in chunks then Embedded(chunks[k]) else 0)
  {
    hide Total, Embedded;
    assert ChunkEmbeddings(chunks[k := row], row.index) == ChunkEmbeddings(chunks, row.index)[k := Embedded(row)];
    TotalUpdate(ChunkEmbeddings(chunks, row.index), k, Embedded(row));
  }

  lemma ChunkSizesPut(chunks: map<Id, Chunk>, k: Id, row: Chunk)
    requires k in chunks ==> chunks[k].index == row.index
    ensures Total(ChunkSizes(chunks[k := row], row.index))
            == Total(ChunkSizes(chunks, row.index)) + ChunkBytes(row) - (if k in chunks then ChunkBytes(chunks[k]) else 0)
  {
    hide Total, ChunkBytes;
    assert ChunkSizes(chunks[k := row], row.index) == ChunkSizes(chunks, row.index)[k := ChunkBytes(row)];
    TotalUpdate(ChunkSizes(chunks, row.index), k, ChunkBytes(row));
  }

  lemma ChunkPut(chunks: map<Id, Chunk>, k: Id, row: Chunk, x: Id)
    requires k in chunks ==> chunks[k].index == row.index
    ensures ChunksShift(chunks, chunks[k := row], x, row.index,
                        if k in chunks then 0 else 1,
                        Embedded(row) - (if k in chunks then Embedded(chunks[k]) else 0),
                        ChunkBytes(row) - (if k in chunks then ChunkBytes(chunks[k]) else 0))
  {
    hide ChunkBytes, Total, Embedded, ChunksOf, ChunkEmbeddings, ChunkSizes;
    if row.index == x {
      ChunkCountPut(chunks, k, row);
      ChunkEmbeddingsPut(chunks, k, row);
      ChunkSizesPut(chunks, k, row);
    } else {
      ChunksElsewhere(chunks, chunks[k := row], k, x, row.index, if k in chunks then 0 else 1,
                      Embedded(row) - (if k in chunks then Embedded(chunks[k]) else 0),
                      ChunkBytes(row) - (if k in chunks then ChunkBytes(chunks[k]) else 0));
    }
  }

  lemma ChunkCut(chunks: map<Id, Chunk>, k: Id, x: Id)
    requires k in chunks
    ensures ChunksShift(chunks, chunks - {k}, x, chunks[k].index, -1, 0 - Embedded(chunks[k]), 0 - ChunkBytes(chunks[k]))
  {
    hide ChunkBytes, Total, Embedded, ChunksOf, ChunkEmbeddings, ChunkSizes;
    ChunkPut(chunks - {k}, k, chunks[k], x);
    assert (chunks - {k})[k := chunks[k]] == chunks;
  }

  lemma ChunksShrink(indexes: map<Id, Index>, chunks: map<Id, Chunk>, indexes': map<Id, Index>, chunks': map<Id, Chunk>)
    requires MeasuredChunks(indexes, chunks)
    requires Sub(indexes', indexes) && Sub(chunks', chunks)
    requires forall k :: k in chunks && chunks[k].index in indexes' ==> k in chunks'
    ensures MeasuredChunks(indexes', chunks')
  {
    hide ChunkBytes, Total;
    forall x | x in indexes' ensures IndexMeasured(chunks', x, indexes'[x]) {
      assert IndexMeasured(chunks, x, indexes[x]);
      assert ChunksOf(chunks', x) == ChunksOf(chunks, x);
      assert ChunkEmbeddings(chunks', x) == ChunkEmbeddings(chunks, x);
      assert ChunkSizes(chunks', x) == ChunkSizes(chunks, x);
    }
  }

  lemma NoChunks(indexes: map<Id, Index>, pages: map<PageKey, Page>, chunks: map<Id, Chunk>, x: Id)
    requires ChunkRefs(indexes, pages, chunks) && x !in indexes
    ensures ChunksOf(chunks, x) == {} && ChunkEmbeddings(chunks, x) == map[] && ChunkSizes(chunks, x) == map[]
  {
    forall k | k in chunks ensures chunks[k].index != x {
      assert ChunkRef(indexes, pages, chunks[k]);
    }
  }

  // Changes of the measuring row

  lemma ContentRowSet(contents: map<Id, Content>, pages: map<PageKey, Page>, c: Id, row: Content)
    requires MeasuredPages(contents, pages) && ContentMeasured(pages, c, row)
    ensures MeasuredPages(contents[c := row], pages)
  {
  }

  lemma IndexRowSet(indexes: map<Id, Index>, chunks: map<Id, Chunk>, x: Id, row: Index)
    requires MeasuredChunks(indexes, chunks) && IndexMeasured(chunks, x, row)
    ensures MeasuredChunks(indexes[x := row], chunks)
  {
  }

  /** A page change moves the measured columns of its content by exactly what changed. */
  lemma PagesMoved(
      contents: map<Id, Content>, pages: map<PageKey, Page>, pages': map<PageKey, Page>, c: Id, count: int, chars: int, bytes: int)
    requires MeasuredPages(contents, pages) && c in contents
    requires forall b :: PagesShift(pages, pages', b, c, count, chars, bytes)
    ensures MeasuredPages(contents[c := Measured(contents[c], count, chars, bytes)], pages')
  {
    hide Total, PagesOf, PageChars, PageBytes;
    var next := contents[c := Measured(contents[c], count, chars, bytes)];
    forall b | b in next ensures ContentMeasured(pages', b, next[b]) {
      assert ContentMeasured(pages, b, contents[b]);
      assert PagesShift(pages, pages', b, c, count, chars, bytes);
    }
  }

  lemma ChunksMoved(
      indexes: map<Id, Index>, chunks: map<Id, Chunk>, chunks': map<Id, Chunk>, x: Id, count: int, embedded: int, bytes: int)
    requires MeasuredChunks(indexes, chunks) && x in indexes
    requires forall y :: ChunksShift(chunks, chunks', y, x, count, embedded, bytes)
    ensures MeasuredChunks(indexes[x := Filled(indexes[x], count, embedded, bytes)], chunks')
  {
    hide Total, ChunksOf, ChunkEmbeddings, ChunkSizes;
    var next := indexes[x := Filled(indexes[x], count, embedded, bytes)];
    forall y | y in next ensures IndexMeasured(chunks', y, next[y]) {
      assert IndexMeasured(chunks, y, indexes[y]);
      assert ChunksShift(chunks, chunks', y, x, count, embedded, bytes);
    }
  }

  // Statement by statement

  lemma InsertContentKeepsMeasures(s: Db, id: Id, row: Content)
    requires Refs(s) && Measures(s) && InsertContent(s, id, row).Some?
    ensures Measures(InsertContent(s, id, row).value)
  {
    hide MeasuredChunks, MeasuredPages, PageRefs, IndexRefs, ChunkRefs, ContentRefs, JobRefs, DocumentRefs, SubjectRefs;
    hide UniqueRevisions, ChunkPositions, Charged, AdjustUsage, ContentCheck, UniqueContent, PagesOf, PageChars, PageBytes;
    NoPages(s.contents, s.pages, id);
    ContentRowSet(s.contents, s.pages, id, row);
  }

  lemma UpdateContentKeepsMeasures(s: Db, id: Id, row: Content)
    requires Measures(s) && UpdateContent(s, id, row, false).Some?
    ensures Measures(UpdateContent(s, id, row, false).value)
  {
    hide MeasuredChunks, Charged, AdjustUsage, ContentCheck, UniqueContent, Total;
    assert ContentMeasured(s.pages, id, s.contents[id]);
    ContentRowSet(s.contents, s.pages, id, row);
  }

  lemma InsertPageKeepsMeasures(s: Db, key: PageKey, row: Page)
    requires Measures(s) && InsertPage(s, key, row).Some?
    ensures Measures(InsertPage(s, key, row).value)
  {
    hide MeasuredChunks, MeasuredPages, ContentCheck, Utf8Length, PagesShift;
    var next := s.pages[key := row];
    var chars, bytes := |row.text|, Utf8Length(row.text);
    forall b ensures PagesShift(s.pages, next, b, key.content, 1, chars, bytes) {
      PagePut(s.pages, key, row, b);
    }
    PagesMoved(s.contents, s.pages, next, key.content, 1, chars, bytes);
  }

  lemma UpdatePageKeepsMeasures(s: Db, key: PageKey, row: Page)
    requires Measures(s) && UpdatePage(s, key, row).Some?
    ensures Measures(UpdatePage(s, key, row).value)
  {
    hide MeasuredChunks, MeasuredPages, ContentCheck, Utf8Length, PagesShift;
    var next := s.pages[key := row];
    var chars, bytes := |row.text| - |s.pages[key].text|, Utf8Length(row.text) - Utf8Length(s.pages[key].text);
    forall b ensures PagesShift(s.pages, next, b, key.content, 0, chars, bytes) {
      PagePut(s.pages, key, row, b);
    }
    PagesMoved(s.contents, s.pages, next, key.content, 0, chars, bytes);
  }

  lemma DeletePageKeepsMeasures(s: Db, key: PageKey)
    requires Measures(s) && DeletePage(s, key).Some?
    ensures Measures(DeletePage(s, key).value)
  {
    hide MeasuredChunks, MeasuredPages, ContentCheck, Utf8Length, PagesShift;
    var next := s.pages - {key};
    var chars, bytes := 0 - |s.pages[key].text|, 0 - Utf8Length(s.pages[key].text);
    forall b ensures PagesShift(s.pages, next, b, key.content, -1, chars, bytes) {
      PageCut(s.pages, key, b);
    }
    PagesMoved(s.contents, s.pages, next, key.content, -1, chars, bytes);
  }

  lemma InsertIndexKeepsMeasures(s: Db, id: Id, row: Index)
    requires Refs(s) && Measures(s) && InsertIndex(s, id, row).Some?
    ensures Measures(InsertIndex(s, id, row).value)
  {
    hide MeasuredChunks, MeasuredPages, PageRefs, IndexRefs, ChunkRefs, ContentRefs, JobRefs, DocumentRefs, SubjectRefs;
    hide UniqueRevisions, ChunkPositions, Charged, AdjustUsage, IndexCheck, UniqueIndex, ChunksOf, ChunkEmbeddings, ChunkSizes;
    NoChunks(s.indexes, s.pages, s.chunks, id);
    IndexRowSet(s.indexes, s.chunks, id, row);
  }

  lemma UpdateIndexKeepsMeasures(s: Db, id: Id, row: Index)
    requires Measures(s) && UpdateIndex(s, id, row, false).Some?
    ensures Measures(UpdateIndex(s, id, row, false).value)
  {
    hide MeasuredPages, Charged, AdjustUsage, IndexCheck, UniqueIndex, Total;
    assert IndexMeasured(s.chunks, id, s.indexes[id]);
    IndexRowSet(s.indexes, s.chunks, id, row);
  }

  lemma InsertChunkKeepsMeasures(s: Db, id: Id, row: Chunk)
    requires Measures(s) && InsertChunk(s, id, row).Some?
    ensures Measures(InsertChunk(s, id, row).value)
  {
    hide MeasuredChunks, MeasuredPages, IndexCheck, ChunkCheck, ChunkBytes, Embedded, ChunksShift;
    var next := s.chunks[id := row];
    forall y ensures ChunksShift(s.chunks, next, y, row.index, 1, Embedded(row), ChunkBytes(row)) {
      ChunkPut(s.chunks, id, row, y);
    }
    ChunksMoved(s.indexes, s.chunks, next, row.index, 1, Embedded(row), ChunkBytes(row));
  }

  lemma UpdateChunkKeepsMeasures(s: Db, id: Id, row: Chunk)
    requires Measures(s) && UpdateChunk(s, id, row).Some?
    ensures Measures(UpdateChunk(s, id, row).value)
  {
    hide MeasuredChunks, MeasuredPages, IndexCheck, ChunkCheck, ChunkBytes, Embedded, ChunksShift;
    var next := s.chunks[id := row];
    var embedded, bytes := Embedded(row) - Embedded(s.chunks[id]), ChunkBytes(row) - ChunkBytes(s.chunks[id]);
    forall y ensures ChunksShift(s.chunks, next, y, row.index, 0, embedded, bytes) {
      ChunkPut(s.chunks, id, row, y);
    }
    ChunksMoved(s.indexes, s.chunks, next, row.index, 0, embedded, bytes);
  }

  lemma DeleteChunkKeepsMeasures(s: Db, id: Id)
    requires Measures(s) && DeleteChunk(s, id).Some?
    ensures Measures(DeleteChunk(s, id).value)
  {
    hide MeasuredChunks, MeasuredPages, IndexCheck, ChunkCheck, ChunkBytes, Embedded, ChunksShift;
    var next := s.chunks - {id};
    var x, embedded, bytes := s.chunks[id].index, 0 - Embedded(s.chunks[id]), 0 - ChunkBytes(s.chunks[id]);
    forall y ensures ChunksShift(s.chunks, next, y, x, -1, embedded, bytes) {
      ChunkCut(s.chunks, id, y);
    }
    ChunksMoved(s.indexes, s.chunks, next, x, -1, embedded, bytes);
  }

  lemma DeleteContentKeepsMeasures(s: Db, id: Id)
    requires Refs(s) && Measures(s) && DeleteContent(s, id).Some?
    ensures Measures(DeleteContent(s, id).value)
  {
    hide MeasuredChunks, MeasuredPages, PageRefs, IndexRefs, ChunkRefs, ContentRefs, JobRefs, DocumentRefs, SubjectRefs;
    hide UniqueRevisions, ChunkPositions, AdjustUsage;
    var t := DeleteContent(s, id).value;
    ChunksInHand(s);
    PagesShrink(s.contents, s.pages, t.contents, t.pages);
    ChunksShrink(s.indexes, s.chunks, t.indexes, t.chunks);
  }

  lemma DeleteDocumentKeepsMeasures(s: Db, id: Id)
    requires Refs(s) && Measures(s) && DeleteDocument(s, id).Some?
    ensures Measures(DeleteDocument(s, id).value)
  {
    hide MeasuredChunks, MeasuredPages, PageRefs, IndexRefs, ChunkRefs, ContentRefs, JobRefs, DocumentRefs, SubjectRefs;
    hide UniqueRevisions, ChunkPositions, AdjustUsage, Charged, LiveContents;
    var t := DeleteDocument(s, id).value;
    PagesInHand(s);
    ChunksInHand(s);
    PagesShrink(s.contents, s.pages, t.contents, t.pages);
    ChunksShrink(s.indexes, s.chunks, t.indexes, t.chunks);
  }

  lemma DeleteIndexKeepsMeasures(s: Db, id: Id)
    requires Measures(s) && DeleteIndex(s, id).Some?
    ensures Measures(DeleteIndex(s, id).value)
  {
    hide MeasuredChunks, MeasuredPages, AdjustUsage;
    var t := DeleteIndex(s, id).value;
    ChunksShrink(s.indexes, s.chunks, t.indexes, t.chunks);
  }
}
