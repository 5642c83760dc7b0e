/** Storage conservation: every admitted statement moves the counters by exactly what it reserves or releases. */
module KnowledgeCounters {
  import opened Prelude
  import opened MapSums
  import opened KnowledgeTables
  import opened KnowledgeStatements
  import opened KnowledgeInvariants
  import opened KnowledgeRefs

  // knowledge_adjust_usage

  /** The three counters of one document: the global one, its Subject's and its uploader's. */
  predicate Touches(scope: Scope, subject: Id, uploader: Id) {
    SliceOf(scope).Covers(0, subject, uploader)
  }

  lemma AdjustScopeEffect(usage: map<Scope, Usage>, at: Scope, documents: int, bytes: int, scope: Scope)
    requires AdjustScope(usage, at, documents, bytes).Some?
    ensures var next := AdjustScope(usage, at, documents, bytes).value;
            && Lookup(next, scope).documents == Lookup(usage, scope).documents + (if scope == at then documents else 0)
            && Lookup(next, scope).bytes == Lookup(usage, scope).bytes + (if scope == at then bytes else 0)
            && (CountersBounded(usage) ==> CountersBounded(next))
  {
  }

  lemma AdjustUsageEffect(usage: map<Scope, Usage>, subject: Id, uploader: Id, documents: int, bytes: int, scope: Scope)
    requires AdjustUsage(usage, subject, uploader, documents, bytes).Some?
    ensures var next := AdjustUsage(usage, subject, uploader, documents, bytes).value;
            && Lookup(next, scope).documents == Lookup(usage, scope).documents + (if Touches(scope, subject, uploader) then documents else 0)
            && Lookup(next, scope).bytes == Lookup(usage, scope).bytes + (if Touches(scope, subject, uploader) then bytes else 0)
            && (CountersBounded(usage) ==> CountersBounded(next))
  {
    hide AdjustScope, Lookup, CountersBounded;
    var scopes := [Global, OfSubject(subject), OfUploader(uploader)];
    var first := AdjustScope(usage, Global, documents, bytes).value;
    assert scopes[1..] == [OfSubject(subject), OfUploader(uploader)];
    assert AdjustUsage(usage, subject, uploader, documents, bytes) == AdjustScopes(first, scopes[1..], documents, bytes);
    var second := AdjustScope(first, OfSubject(subject), documents, bytes).value;
    assert scopes[1..][1..] == [OfUploader(uploader)];
    assert AdjustScopes(first, scopes[1..], documents, bytes) == AdjustScopes(second, [OfUploader(uploader)], documents, bytes);
    assert [OfUploader(uploader)][1..] == [];
    assert AdjustScopes(second, [OfUploader(uploader)], documents, bytes) == AdjustScope(second, OfUploader(uploader), documents, bytes);
    AdjustScopeEffect(usage, Global, documents, bytes, scope);
    AdjustScopeEffect(first, OfSubject(subject), documents, bytes, scope);
    AdjustScopeEffect(second, OfUploader(uploader), documents, bytes, scope);
  }

  // How a charge moves

  ghost predicate ChargeShift(
      contents: map<Id, Content>, indexes: map<Id, Index>, contents': map<Id, Content>, indexes': map<Id, Index>,
      slice: Slice, document: Id, subject: Id, uploader: Id, bytes: int)
  {
    Charged(contents', indexes', slice)
    == Charged(contents, indexes, slice) + (if slice.Covers(document, subject, uploader) then bytes else 0)
  }

  lemma ContentPut(contents: map<Id, Content>, indexes: map<Id, Index>, c: Id, row: Content, slice: Slice)
    requires c in contents ==>
               (contents[c].document, contents[c].subject, contents[c].uploader) == (row.document, row.subject, row.uploader)
    ensures ChargeShift(contents, indexes, contents[c := row], indexes, slice, row.document, row.subject, row.uploader,
                        row.reservedBytes - (if c in contents then contents[c].reservedBytes else 0))
  {
    hide Total;
    if slice.Covers(row.document, row.subject, row.uploader) {
      assert ContentCharges(contents[c := row], slice) == ContentCharges(contents, slice)[c := row.reservedBytes];
      TotalUpdate(ContentCharges(contents, slice), c, row.reservedBytes);
    } else {
      assert ContentCharges(contents[c := row], slice) == ContentCharges(contents, slice);
    }
  }

  lemma IndexPut(contents: map<Id, Content>, indexes: map<Id, Index>, x: Id, row: Index, slice: Slice)
    requires x in indexes ==>
               (indexes[x].document, indexes[x].subject, indexes[x].uploader) == (row.document, row.subject, row.uploader)
    ensures ChargeShift(contents, indexes, contents, indexes[x := row], slice, row.document, row.subject, row.uploader,
                        row.reservedBytes - (if x in indexes then indexes[x].reservedBytes else 0))
  {
    hide Total;
    if slice.Covers(row.document, row.subject, row.uploader) {
      assert IndexCharges(indexes[x := row], slice) == IndexCharges(indexes, slice)[x := row.reservedBytes];
      TotalUpdate(IndexCharges(indexes, slice), x, row.reservedBytes);
    } else {
      assert IndexCharges(indexes[x := row], slice) == IndexCharges(indexes, slice);
    }
  }

  lemma ContentCut(contents: map<Id, Content>, indexes: map<Id, Index>, c: Id, slice: Slice)
    requires c in contents
    ensures ChargeShift(contents, indexes, contents - {c}, indexes, slice,
                        contents[c].document, contents[c].subject, contents[c].uploader, 0 - contents[c].reservedBytes)
  {
    hide Charged;
    ContentPut(contents - {c}, indexes, c, contents[c], slice);
    assert (contents - {c})[c := contents[c]] == contents;
  }

  lemma IndexCut(contents: map<Id, Content>, indexes: map<Id, Index>, x: Id, slice: Slice)
    requires x in indexes
    ensures ChargeShift(contents, indexes, contents, indexes - {x}, slice,
                        indexes[x].document, indexes[x].subject, indexes[x].uploader, 0 - indexes[x].reservedBytes)
  {
    hide Charged;
    IndexPut(contents, indexes - {x}, x, indexes[x], slice);
    assert (indexes - {x})[x := indexes[x]] == indexes;
  }

  /** Removing the indexes of one content revision releases the sum of their reservations. */
  lemma IndexesCut(contents: map<Id, Content>, indexes: map<Id, Index>, indexes': map<Id, Index>, c: Id, row: Content, slice: Slice)
    requires indexes' == map x | x in indexes && indexes[x].content != c :: indexes[x]
    requires forall x :: x in indexes && indexes[x].content == c ==>
               (indexes[x].document, indexes[x].subject, indexes[x].uploader) == (row.document, row.subject, row.uploader)
    ensures ChargeShift(contents, indexes, contents, indexes', slice, row.document, row.subject, row.uploader,
                        0 - Total(IndexesOfContent(indexes, c)))
  {
    hide Total;
    var all, kept := IndexCharges(indexes, slice), IndexCharges(indexes', slice);
    if slice.Covers(row.document, row.subject, row.uploader) {
      assert Splits(all, kept, IndexesOfContent(indexes, c));
      TotalSplit(all, kept, IndexesOfContent(indexes, c));
    } else {
      assert all == kept;
    }
  }

  /** Removing a document releases everything charged to it, in every slice that covers it. */
  lemma DocumentContentsCut(contents: map<Id, Content>, contents': map<Id, Content>, d: Id, subject: Id, uploader: Id, slice: Slice)
    requires contents' == map c | c in contents && contents[c].document != d :: contents[c]
    requires forall c :: c in contents && contents[c].document == d ==> (contents[c].subject, contents[c].uploader) == (subject, uploader)
    ensures Total(ContentCharges(contents, slice))
            == Total(ContentCharges(contents', slice))
               + (if slice.Covers(d, subject, uploader) then Total(ContentCharges(contents, DocumentSlice(d))) else 0)
  {
    hide Total;
    var all, kept, gone := ContentCharges(contents, slice), ContentCharges(contents', slice), ContentCharges(contents, DocumentSlice(d));
    if slice.Covers(d, subject, uploader) {
      assert Splits(all, kept, gone);
      TotalSplit(all, kept, gone);
    } else {
      assert all == kept;
    }
  }

  lemma DocumentIndexesCut(indexes: map<Id, Index>, indexes': map<Id, Index>, d: Id, subject: Id, uploader: Id, slice: Slice)
    requires indexes' == map x | x in indexes && indexes[x].document != d :: indexes[x]
    requires forall x :: x in indexes && indexes[x].document == d ==> (indexes[x].subject, indexes[x].uploader) == (subject, uploader)
    ensures Total(IndexCharges(indexes, slice))
            == Total(IndexCharges(indexes', slice))
               + (if slice.Covers(d, subject, uploader) then Total(IndexCharges(indexes, DocumentSlice(d))) else 0)
  {
    hide Total;
    var all, kept, gone := IndexCharges(indexes, slice), IndexCharges(indexes', slice), IndexCharges(indexes, DocumentSlice(d));
    if slice.Covers(d, subject, uploader) {
      assert Splits(all, kept, gone);
      TotalSplit(all, kept, gone);
    } else {
      assert all == kept;
    }
  }

  lemma ReservationsNonNegative(s: Db)
    requires ContentRefs(s.documents, s.contents) && IndexRefs(s.spaces, s.contents, s.indexes)
    ensures forall c :: c in s.contents ==> s.contents[c].reservedBytes >= 0
    ensures forall x :: x in s.indexes ==> s.indexes[x].reservedBytes >= 0
  {
    forall c | c in s.contents ensures s.contents[c].reservedBytes >= 0 {
      assert ContentRef(s.documents, s.contents[c]);
    }
    forall x | x in s.indexes ensures s.indexes[x].reservedBytes >= 0 {
      assert IndexRef(s.spaces, s.contents, s.indexes[x]);
    }
  }

  lemma ChargesNonNegative(contents: map<Id, Content>, indexes: map<Id, Index>, slice: Slice)
    requires forall c :: c in contents ==> contents[c].reservedBytes >= 0
    requires forall x :: x in indexes ==> indexes[x].reservedBytes >= 0
    ensures Charged(contents, indexes, slice) >= 0
  {
    hide Total;
    TotalNonNegative(ContentCharges(contents, slice));
    TotalNonNegative(IndexCharges(indexes, slice));
  }

  // How the document count moves

  lemma DocumentsPut(documents: map<Id, Document>, d: Id, row: Document, slice: Slice)
    requires d in documents ==> (documents[d].subject, documents[d].uploader) == (row.subject, row.uploader)
    ensures |DocumentsIn(documents[d := row], slice)|
            == |DocumentsIn(documents, slice)|
               + (if d !in documents && slice.Covers(d, row.subject, row.uploader) then 1 else 0)
  {
    if slice.Covers(d, row.subject, row.uploader) {
      assert DocumentsIn(documents[d := row], slice) == DocumentsIn(documents, slice) + {d};
    } else {
      assert DocumentsIn(documents[d := row], slice) == DocumentsIn(documents, slice);
    }
  }

  lemma DocumentsCut(documents: map<Id, Document>, d: Id, slice: Slice)
    requires d in documents
    ensures |DocumentsIn(documents - {d}, slice)|
            == |DocumentsIn(documents, slice)| - (if slice.Covers(d, documents[d].subject, documents[d].uploader) then 1 else 0)
  {
    if slice.Covers(d, documents[d].subject, documents[d].uploader) {
      assert DocumentsIn(documents - {d}, slice) == DocumentsIn(documents, slice) - {d};
    } else {
      assert DocumentsIn(documents - {d}, slice) == DocumentsIn(documents, slice);
    }
  }

  // Counters and charges move together

  lemma CountersMove(
      s: Db, t: Db, document: Id, subject: Id, uploader: Id, documents: int, bytes: int)
    requires CountersBounded(s.usage) && Conserved(s.documents, s.contents, s.indexes, s.usage)
    requires AdjustUsage(s.usage, subject, uploader, documents, bytes) == Some(t.usage)
    requires forall slice :: ChargeShift(s.contents, s.indexes, t.contents, t.indexes, slice, document, subject, uploader, bytes)
    requires forall slice: Slice :: slice.DocumentSlice? ||
               |DocumentsIn(t.documents, slice)|
               == |DocumentsIn(s.documents, slice)| + (if slice.Covers(document, subject, uploader) then documents else 0)
    ensures CountersBounded(t.usage) && Conserved(t.documents, t.contents, t.indexes, t.usage)
  {
    hide Charged, AdjustUsage, CountersBounded, Lookup;
    forall scope ensures Lookup(t.usage, scope) == Owed(t.documents, t.contents, t.indexes, scope) {
      AdjustUsageEffect(s.usage, subject, uploader, documents, bytes, scope);
      assert Lookup(s.usage, scope) == Owed(s.documents, s.contents, s.indexes, scope);
      assert ChargeShift(s.contents, s.indexes, t.contents, t.indexes, SliceOf(scope), document, subject, uploader, bytes);
    }
    AdjustUsageEffect(s.usage, subject, uploader, documents, bytes, Global);
  }

  /** Charges that stay the same in every slice leave the counters right as they are. */
  lemma CountersStay(s: Db, t: Db)
    requires Counters(s) && t.usage == s.usage
    requires forall slice :: Charged(t.contents, t.indexes, slice) == Charged(s.contents, s.indexes, slice)
    requires forall slice: Slice :: slice.DocumentSlice? || |DocumentsIn(t.documents, slice)| == |DocumentsIn(s.documents, slice)|
    requires t.documents.Keys == s.documents.Keys
    ensures Counters(t)
  {
    hide Charged, CountersBounded, Lookup;
    forall scope ensures Lookup(t.usage, scope) == Owed(t.documents, t.contents, t.indexes, scope) {
      assert Lookup(s.usage, scope) == Owed(s.documents, s.contents, s.indexes, scope);
    }
  }

  lemma CapsMove(s: Db, t: Db, document: Id, subject: Id, uploader: Id, bytes: int)
    requires DocumentsCapped(s.documents, s.contents, s.indexes)
    requires forall d :: d in t.documents ==> d in s.documents
    requires forall slice :: ChargeShift(s.contents, s.indexes, t.contents, t.indexes, slice, document, subject, uploader, bytes)
    requires document in t.documents ==> Charged(s.contents, s.indexes, DocumentSlice(document)) + bytes <= DOCUMENT_BYTES
    ensures DocumentsCapped(t.documents, t.contents, t.indexes)
  {
    hide Charged;
    forall d | d in t.documents ensures Charged(t.contents, t.indexes, DocumentSlice(d)) <= DOCUMENT_BYTES {
      assert ChargeShift(s.contents, s.indexes, t.contents, t.indexes, DocumentSlice(d), document, subject, uploader, bytes);
    }
  }

  // Statement by statement

  lemma InsertDocumentKeepsCounters(s: Db, id: Id, row: Document)
    requires Refs(s) && Counters(s) && InsertDocument(s, id, row).Some?
    ensures Counters(InsertDocument(s, id, row).value)
  {
    hide AdjustUsage, CountersBounded, Conserved, Charged, DocumentCheck, DocumentsIn;
    hide DocumentRefs, SubjectRefs, PageRefs, ChunkRefs, JobRefs, ChunkPositions, UniqueRevisions, ContentRefs, IndexRefs;
    var t := InsertDocument(s, id, row).value;
    forall slice ensures ChargeShift(s.contents, s.indexes, t.contents, t.indexes, slice, id, row.subject, row.uploader, 0) {
    }
    forall slice: Slice | !slice.DocumentSlice?
      ensures |DocumentsIn(t.documents, slice)| == |DocumentsIn(s.documents, slice)| + (if slice.Covers(id, row.subject, row.uploader) then 1 else 0)
    {
      DocumentsPut(s.documents, id, row, slice);
    }
    CountersMove(s, t, id, row.subject, row.uploader, 1, 0);
    forall d | d in t.documents ensures Charged(t.contents, t.indexes, DocumentSlice(d)) <= DOCUMENT_BYTES {
      if d == id {
        NothingCharged(s, id);
      }
    }
  }

  lemma NothingCharged(s: Db, d: Id)
    requires ContentRefs(s.documents, s.contents) && IndexRefs(s.spaces, s.contents, s.indexes) && d !in s.documents
    ensures Charged(s.contents, s.indexes, DocumentSlice(d)) == 0
  {
    forall c | c in s.contents ensures s.contents[c].document != d {
      assert ContentRef(s.documents, s.contents[c]);
    }
    forall x | x in s.indexes ensures s.indexes[x].document != d {
      assert IndexRef(s.spaces, s.contents, s.indexes[x]);
    }
    assert ContentCharges(s.contents, DocumentSlice(d)) == map[];
    assert IndexCharges(s.indexes, DocumentSlice(d)) == map[];
  }

  lemma UpdateDocumentKeepsCounters(s: Db, id: Id, row: Document)
    requires Counters(s) && UpdateDocument(s, id, row).Some?
    ensures Counters(UpdateDocument(s, id, row).value)
  {
    hide Charged, DocumentCheck, DocumentsIn, Conserved, CountersBounded;
    var t := UpdateDocument(s, id, row).value;
    forall slice: Slice | !slice.DocumentSlice? ensures |DocumentsIn(t.documents, slice)| == |DocumentsIn(s.documents, slice)| {
      DocumentsPut(s.documents, id, row, slice);
    }
    CountersStay(s, t);
  }

  lemma DocumentScopes(s: Db, id: Id)
    requires ContentRefs(s.documents, s.contents) && IndexRefs(s.spaces, s.contents, s.indexes) && id in s.documents
    ensures forall c :: c in s.contents && s.contents[c].document == id
                        ==> (s.contents[c].subject, s.contents[c].uploader) == (s.documents[id].subject, s.documents[id].uploader)
    ensures forall x :: x in s.indexes && s.indexes[x].document == id
                        ==> (s.indexes[x].subject, s.indexes[x].uploader) == (s.documents[id].subject, s.documents[id].uploader)
  {
    hide ContentRefs, IndexRefs;
    ContentScopes(s);
    IndexScopes(s);
    assert forall c :: c in s.contents ==> ContentScoped(s, c);
    assert forall x :: x in s.indexes ==> IndexScoped(s, x);
  }

  /** In every slice, a document's cascade releases all that was charged to the document. */
  lemma DocumentCut(s: Db, t: Db, id: Id, slice: Slice)
    requires ContentRefs(s.documents, s.contents) && IndexRefs(s.spaces, s.contents, s.indexes) && id in s.documents
    requires t.contents == map c | c in s.contents && s.contents[c].document != id :: s.contents[c]
    requires t.indexes == map x | x in s.indexes && s.indexes[x].document != id :: s.indexes[x]
    ensures ChargeShift(s.contents, s.indexes, t.contents, t.indexes, slice, id, s.documents[id].subject, s.documents[id].uploader,
                        0 - Charged(s.contents, s.indexes, DocumentSlice(id)))
  {
    hide ContentRefs, IndexRefs, Total, ContentCharges, IndexCharges;
    var d := s.documents[id];
    DocumentScopes(s, id);
    DocumentContentsCut(s.contents, t.contents, id, d.subject, d.uploader, slice);
    DocumentIndexesCut(s.indexes, t.indexes, id, d.subject, d.uploader, slice);
  }

  lemma DeleteDocumentKeepsCounters(s: Db, id: Id)
    requires Refs(s) && Counters(s) && DeleteDocument(s, id).Some?
    ensures Counters(DeleteDocument(s, id).value)
  {
    hide AdjustUsage, CountersBounded, Conserved, DocumentsIn, DocumentsCapped, LiveContents, Bump, Charged;
    hide DocumentRefs, SubjectRefs, PageRefs, ChunkRefs, JobRefs, ChunkPositions, UniqueRevisions, ContentRefs, IndexRefs;
    var t := DeleteDocument(s, id).value;
    var d := s.documents[id];
    var freed := 0 - Charged(s.contents, s.indexes, DocumentSlice(id));
    forall slice ensures ChargeShift(s.contents, s.indexes, t.contents, t.indexes, slice, id, d.subject, d.uploader, freed) {
      DocumentCut(s, t, id, slice);
    }
    forall slice: Slice | !slice.DocumentSlice?
      ensures |DocumentsIn(t.documents, slice)| == |DocumentsIn(s.documents, slice)| + (if slice.Covers(id, d.subject, d.uploader) then -1 else 0)
    {
      DocumentsCut(s.documents, id, slice);
    }
    CountersMove(s, t, id, d.subject, d.uploader, -1, freed);
    CapsMove(s, t, id, d.subject, d.uploader, freed);
  }

  ghost predicate ContentScoped(s: Db, c: Id) {
    && c in s.contents && s.contents[c].document in s.documents
    && s.contents[c].reservedBytes >= 0
    && s.documents[s.contents[c].document].subject == s.contents[c].subject
    && s.documents[s.contents[c].document].uploader == s.contents[c].uploader
  }

  lemma ContentScopes(s: Db)
    requires ContentRefs(s.documents, s.contents)
    ensures forall c :: c in s.contents ==> ContentScoped(s, c)
  {
    forall c | c in s.contents ensures ContentScoped(s, c) {
      assert ContentRef(s.documents, s.contents[c]);
    }
  }

  ghost predicate IndexScoped(s: Db, x: Id) {
    && x in s.indexes && s.indexes[x].document in s.documents && s.indexes[x].content in s.contents
    && s.indexes[x].reservedBytes >= 0
    && s.documents[s.indexes[x].document].subject == s.indexes[x].subject
    && s.documents[s.indexes[x].document].uploader == s.indexes[x].uploader
    && s.contents[s.indexes[x].content].document == s.indexes[x].document
  }

  lemma IndexScopes(s: Db)
    requires ContentRefs(s.documents, s.contents) && IndexRefs(s.spaces, s.contents, s.indexes)
    ensures forall x :: x in s.indexes ==> IndexScoped(s, x)
  {
    forall x | x in s.indexes ensures IndexScoped(s, x) {
      assert IndexRef(s.spaces, s.contents, s.indexes[x]);
      assert ContentRef(s.documents, s.contents[s.indexes[x].content]);
    }
  }

  lemma InsertContentKeepsCounters(s: Db, id: Id, row: Content)
    requires Counters(s) && InsertContent(s, id, row).Some?
    ensures Counters(InsertContent(s, id, row).value)
  {
    hide AdjustUsage, CountersBounded, Conserved, Charged, ContentCheck, UniqueContent, DocumentsIn, DocumentsCapped, ContentsOf;
    var t := InsertContent(s, id, row).value;
    forall slice ensures ChargeShift(s.contents, s.indexes, t.contents, t.indexes, slice, row.document, row.subject, row.uploader, row.reservedBytes) {
      ContentPut(s.contents, s.indexes, id, row, slice);
    }
    CountersMove(s, t, row.document, row.subject, row.uploader, 0, row.reservedBytes);
    CapsMove(s, t, row.document, row.subject, row.uploader, row.reservedBytes);
  }

  lemma UpdateContentKeepsCounters(s: Db, id: Id, row: Content, nested: bool)
    requires Refs(s) && Counters(s) && UpdateContent(s, id, row, nested).Some?
    ensures Counters(UpdateContent(s, id, row, nested).value)
  {
    hide AdjustUsage, CountersBounded, Conserved, Charged, ContentCheck, UniqueContent, DocumentsIn, DocumentsCapped, HasReadyIndex, Bump;
    hide DocumentRefs, SubjectRefs, PageRefs, ChunkRefs, JobRefs, ChunkPositions, UniqueRevisions, ContentRefs, IndexRefs;
    var t := UpdateContent(s, id, row, nested).value;
    ContentScope(s, id);
    var delta := row.reservedBytes - s.contents[id].reservedBytes;
    forall slice ensures ChargeShift(s.contents, s.indexes, t.contents, t.indexes, slice, row.document, row.subject, row.uploader, delta) {
      ContentPut(s.contents, s.indexes, id, row, slice);
    }
    CountersMove(s, t, row.document, row.subject, row.uploader, 0, delta);
    CapsMove(s, t, row.document, row.subject, row.uploader, delta);
  }

  lemma DeleteContentKeepsCounters(s: Db, id: Id)
    requires Refs(s) && Counters(s) && DeleteContent(s, id).Some?
    ensures Counters(DeleteContent(s, id).value)
  {
    hide AdjustUsage, CountersBounded, Conserved, Charged, DocumentsIn, DocumentsCapped, Bump, Total;
    hide DocumentRefs, SubjectRefs, PageRefs, ChunkRefs, JobRefs, ChunkPositions, UniqueRevisions, ContentRefs, IndexRefs;
    var t := DeleteContent(s, id).value;
    var old_ := s.contents[id];
    var freed := 0 - (old_.reservedBytes + Total(IndexesOfContent(s.indexes, id)));
    ContentScopes(s);
    IndexScopes(s);
    assert ContentScoped(s, id);
    forall slice
      ensures ChargeShift(s.contents, s.indexes, t.contents, t.indexes, slice, old_.document, old_.subject, old_.uploader, freed)
    {
      ContentCut(s.contents, s.indexes, id, slice);
      IndexesCut(t.contents, s.indexes, t.indexes, id, old_, slice);
    }
    CountersMove(s, t, old_.document, old_.subject, old_.uploader, 0, freed);
    TotalNonNegative(IndexesOfContent(s.indexes, id));
    DocumentIsCapped(s, old_.document);
    CapsMove(s, t, old_.document, old_.subject, old_.uploader, freed);
  }

  lemma DocumentIsCapped(s: Db, d: Id)
    requires DocumentsCapped(s.documents, s.contents, s.indexes) && d in s.documents
    ensures Charged(s.contents, s.indexes, DocumentSlice(d)) <= DOCUMENT_BYTES
  {
  }

  lemma PageChangeKeepsCounters(s: Db, q: Statement)
    requires Counters(s) && Attempt(s, q).Some?
    requires q.AddPage? || q.EditPage? || q.DropPage?
    ensures Counters(Attempt(s, q).value)
  {
    hide Charged, Conserved, CountersBounded, DocumentsIn, DocumentsCapped, ContentCheck, PageCheck, Utf8Length, ChargeShift;
    var t := Attempt(s, q).value;
    var c := q.key.content;
    forall slice ensures Charged(t.contents, t.indexes, slice) == Charged(s.contents, s.indexes, slice) {
      SameReservation(s, c, t.contents[c], slice);
    }
    CountersStay(s, t);
  }

  lemma SameReservation(s: Db, c: Id, row: Content, slice: Slice)
    requires c in s.contents
    requires (s.contents[c].document, s.contents[c].subject, s.contents[c].uploader) == (row.document, row.subject, row.uploader)
    requires s.contents[c].reservedBytes == row.reservedBytes
    ensures Charged(s.contents[c := row], s.indexes, slice) == Charged(s.contents, s.indexes, slice)
  {
    ContentPut(s.contents, s.indexes, c, row, slice);
  }

  lemma InsertIndexKeepsCounters(s: Db, id: Id, row: Index)
    requires Refs(s) && Counters(s) && InsertIndex(s, id, row).Some?
    ensures Counters(InsertIndex(s, id, row).value)
  {
    hide AdjustUsage, CountersBounded, Conserved, Charged, IndexCheck, UniqueIndex, DocumentsIn, DocumentsCapped, IndexesOf;
    hide DocumentRefs, SubjectRefs, PageRefs, ChunkRefs, JobRefs, ChunkPositions, UniqueRevisions, ContentRefs, IndexRefs;
    var t := InsertIndex(s, id, row).value;
    ContentScope(s, row.content);
    forall slice ensures ChargeShift(s.contents, s.indexes, t.contents, t.indexes, slice, row.document, row.subject, row.uploader, row.reservedBytes) {
      IndexPut(s.contents, s.indexes, id, row, slice);
    }
    CountersMove(s, t, row.document, row.subject, row.uploader, 0, row.reservedBytes);
    CapsMove(s, t, row.document, row.subject, row.uploader, row.reservedBytes);
  }

  lemma UpdateIndexKeepsCounters(s: Db, id: Id, row: Index, nested: bool)
    requires Refs(s) && Counters(s) && UpdateIndex(s, id, row, nested).Some?
    ensures Counters(UpdateIndex(s, id, row, nested).value)
  {
    hide AdjustUsage, CountersBounded, Conserved, Charged, IndexCheck, UniqueIndex, DocumentsIn, DocumentsCapped, IndexBump, Bump;
    hide DocumentRefs, SubjectRefs, PageRefs, ChunkRefs, JobRefs, ChunkPositions, UniqueRevisions, ContentRefs, IndexRefs;
    var t := UpdateIndex(s, id, row, nested).value;
    IndexScopes(s);
    assert IndexScoped(s, id);
    var delta := row.reservedBytes - s.indexes[id].reservedBytes;
    forall slice ensures ChargeShift(s.contents, s.indexes, t.contents, t.indexes, slice, row.document, row.subject, row.uploader, delta) {
      IndexPut(s.contents, s.indexes, id, row, slice);
    }
    CountersMove(s, t, row.document, row.subject, row.uploader, 0, delta);
    CapsMove(s, t, row.document, row.subject, row.uploader, delta);
  }

  lemma DeleteIndexKeepsCounters(s: Db, id: Id)
    requires Refs(s) && Counters(s) && DeleteIndex(s, id).Some?
    ensures Counters(DeleteIndex(s, id).value)
  {
    hide AdjustUsage, CountersBounded, Conserved, Charged, DocumentsIn, DocumentsCapped, Exposed, Bump;
    hide DocumentRefs, SubjectRefs, PageRefs, ChunkRefs, JobRefs, ChunkPositions, UniqueRevisions, ContentRefs, IndexRefs;
    var t := DeleteIndex(s, id).value;
    var old_ := s.indexes[id];
    var freed := 0 - old_.reservedBytes;
    IndexScopes(s);
    assert IndexScoped(s, id);
    forall slice
      ensures ChargeShift(s.contents, s.indexes, t.contents, t.indexes, slice, old_.document, old_.subject, old_.uploader, freed)
    {
      IndexCut(s.contents, s.indexes, id, slice);
    }
    CountersMove(s, t, old_.document, old_.subject, old_.uploader, 0, freed);
    DocumentIsCapped(s, old_.document);
    CapsMove(s, t, old_.document, old_.subject, old_.uploader, freed);
  }

  /** A chunk statement moves nothing but the measured columns of one index. */
  lemma ChunkChangeFills(s: Db, q: Statement)
    requires Attempt(s, q).Some?
    requires q.AddChunk? || q.EditChunk? || q.DropChunk?
    ensures var t := Attempt(s, q).value;
            && t.documents == s.documents && t.contents == s.contents && t.usage == s.usage
            && (q.AddChunk? || q.id in s.chunks)
            && var x := if q.AddChunk? then q.chunk.index else s.chunks[q.id].index;
               && x in s.indexes && x in t.indexes && t.indexes == s.indexes[x := t.indexes[x]]
               && (s.indexes[x].document, s.indexes[x].subject, s.indexes[x].uploader)
                  == (t.indexes[x].document, t.indexes[x].subject, t.indexes[x].uploader)
               && s.indexes[x].reservedBytes == t.indexes[x].reservedBytes
  {
    hide IndexCheck, ChunkCheck, ChunkBytes, Embedded;
    hide InsertSpace, DeleteSpace, InsertSubject, UpdateSubject, InsertDocument, UpdateDocument, DeleteDocument, DeleteSubject;
    hide InsertContent, UpdateContent, DeleteContent, InsertPage, UpdatePage, DeletePage;
    hide InsertIndex, UpdateIndex, DeleteIndex, InsertJob, UpdateJob, DeleteJob;
  }

  lemma ChunkChangeKeepsCounters(s: Db, q: Statement)
    requires Counters(s) && Attempt(s, q).Some?
    requires q.AddChunk? || q.EditChunk? || q.DropChunk?
    ensures Counters(Attempt(s, q).value)
  {
    hide Charged, Conserved, CountersBounded, DocumentsIn, DocumentsCapped, ChargeShift, Attempt;
    ChunkChangeFills(s, q);
    var t := Attempt(s, q).value;
    var x := if q.AddChunk? then q.chunk.index else s.chunks[q.id].index;
    forall slice ensures Charged(t.contents, t.indexes, slice) == Charged(s.contents, s.indexes, slice) {
      SameIndexReservation(s, x, t.indexes[x], slice);
    }
    CountersStay(s, t);
  }

  lemma SameIndexReservation(s: Db, x: Id, row: Index, slice: Slice)
    requires x in s.indexes
    requires (s.indexes[x].document, s.indexes[x].subject, s.indexes[x].uploader) == (row.document, row.subject, row.uploader)
    requires s.indexes[x].reservedBytes == row.reservedBytes
    ensures Charged(s.contents, s.indexes[x := row], slice) == Charged(s.contents, s.indexes, slice)
  {
    IndexPut(s.contents, s.indexes, x, row, slice);
  }

  /** Adjusting three existing, admissible counters by nothing changes nothing. */
  lemma AdjustNothing(usage: map<Scope, Usage>, subject: Id, uploader: Id)
    requires CountersBounded(usage) && Global in usage && OfSubject(subject) in usage && OfUploader(uploader) in usage
    ensures AdjustUsage(usage, subject, uploader, 0, 0) == Some(usage)
  {
    hide AdjustScope, CountersBounded;
    var scopes := [Global, OfSubject(subject), OfUploader(uploader)];
    AdjustScopeNothing(usage, Global);
    AdjustScopeNothing(usage, OfSubject(subject));
    AdjustScopeNothing(usage, OfUploader(uploader));
    assert scopes[1..] == [OfSubject(subject), OfUploader(uploader)];
    assert scopes[1..][1..] == [OfUploader(uploader)] && scopes[1..][1..][1..] == [];
    assert AdjustScopes(usage, scopes[1..][1..], 0, 0) == Some(usage);
    assert AdjustScopes(usage, scopes[1..], 0, 0) == Some(usage);
  }

  lemma AdjustScopeNothing(usage: map<Scope, Usage>, scope: Scope)
    requires CountersBounded(usage) && scope in usage
    ensures AdjustScope(usage, scope, 0, 0) == Some(usage)
  {
    assert UsageCheck(scope, usage[scope]);
    assert usage[scope := usage[scope]] == usage;
  }
}
