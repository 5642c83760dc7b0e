/** The invariant over whole runs, and what it gives: storage conservation, and removals that are never refused. */
module KnowledgeRuns {
  import opened Prelude
  import opened MapSums
  import opened KnowledgeTables
  import opened KnowledgeStatements
  import opened KnowledgeEffects
  import opened KnowledgeInvariants
  import opened KnowledgeRefs
  import opened KnowledgeMeasures
  import opened KnowledgeCounters

  // Each statement keeps the invariant

  lemma SubjectStatementKeepsInv(s: Db, q: Statement)
    requires Inv(s) && Attempt(s, q).Some?
    requires q.SetInstructors? || q.AddSpace? || q.DropSpace? || q.AddSubject? || q.EditSubject?
    ensures Inv(Attempt(s, q).value)
  {
    hide Refs, Measures, Counters;
    match q {
      case SetInstructors(ids) => SameTables(s, Attempt(s, q).value);
      case AddSpace(hash, profile) => InsertSpaceKeepsRefs(s, hash, profile); SameTables(s, Attempt(s, q).value);
      case DropSpace(hash) => DeleteSpaceKeepsRefs(s, hash); SameTables(s, Attempt(s, q).value);
      case AddSubject(id, row) => InsertSubjectKeepsRefs(s, id, row); SameTables(s, Attempt(s, q).value);
      case EditSubject(id, row) => UpdateSubjectKeepsRefs(s, id, row); SameTables(s, Attempt(s, q).value);
    }
  }

  lemma SameTables(s: Db, t: Db)
    requires Inv(s)
    requires (t.documents, t.contents, t.pages, t.indexes, t.chunks, t.jobs, t.usage)
             == (s.documents, s.contents, s.pages, s.indexes, s.chunks, s.jobs, s.usage)
    requires (t.spaces, t.subjects) == (s.spaces, s.subjects) || Refs(t)
    ensures Inv(t)
  {
    hide MeasuredPages, MeasuredChunks, CountersBounded, Conserved, DocumentsCapped;
  }

  lemma DocumentStatementKeepsInv(s: Db, q: Statement)
    requires Inv(s) && Attempt(s, q).Some?
    requires q.AddDocument? || q.EditDocument? || q.DropDocument?
    ensures Inv(Attempt(s, q).value)
  {
    hide Refs, MeasuredPages, MeasuredChunks, Counters, AdjustUsage, Charged, Bump, LiveContents, DocumentCheck;
    match q {
      case AddDocument(id, row) => InsertDocumentKeepsRefs(s, id, row); InsertDocumentKeepsCounters(s, id, row);
      case EditDocument(id, row) => UpdateDocumentKeepsRefs(s, id, row); UpdateDocumentKeepsCounters(s, id, row);
      case DropDocument(id) =>
        DeleteDocumentKeepsRefs(s, id);
        DeleteDocumentKeepsMeasures(s, id);
        DeleteDocumentKeepsCounters(s, id);
    }
  }

  lemma ContentStatementKeepsInv(s: Db, q: Statement)
    requires Inv(s) && Attempt(s, q).Some?
    requires q.AddContent? || q.EditContent? || q.DropContent?
    ensures Inv(Attempt(s, q).value)
  {
    hide Refs, Measures, Counters, InsertContent, UpdateContent, DeleteContent;
    match q {
      case AddContent(id, row) =>
        InsertContentKeepsRefs(s, id, row);
        InsertContentKeepsMeasures(s, id, row);
        InsertContentKeepsCounters(s, id, row);
      case EditContent(id, row) =>
        UpdateContentKeepsRefs(s, id, row, false);
        UpdateContentKeepsMeasures(s, id, row);
        UpdateContentKeepsCounters(s, id, row, false);
      case DropContent(id) =>
        DeleteContentKeepsRefs(s, id);
        DeleteContentKeepsMeasures(s, id);
        DeleteContentKeepsCounters(s, id);
    }
  }

  lemma PageStatementKeepsInv(s: Db, q: Statement)
    requires Inv(s) && Attempt(s, q).Some?
    requires q.AddPage? || q.EditPage? || q.DropPage?
    ensures Inv(Attempt(s, q).value)
  {
    hide Refs, Measures, Counters, InsertPage, UpdatePage, DeletePage;
    PageChangeKeepsCounters(s, q);
    match q {
      case AddPage(key, row) => InsertPageKeepsRefs(s, key, row); InsertPageKeepsMeasures(s, key, row);
      case EditPage(key, row) => UpdatePageKeepsRefs(s, key, row); UpdatePageKeepsMeasures(s, key, row);
      case DropPage(key) => DeletePageKeepsRefs(s, key); DeletePageKeepsMeasures(s, key);
    }
  }

  lemma IndexStatementKeepsInv(s: Db, q: Statement)
    requires Inv(s) && Attempt(s, q).Some?
    requires q.AddIndex? || q.EditIndex? || q.DropIndex?
    ensures Inv(Attempt(s, q).value)
  {
    hide Refs, Measures, Counters, InsertIndex, UpdateIndex, DeleteIndex;
    match q {
      case AddIndex(id, row) =>
        InsertIndexKeepsRefs(s, id, row);
        InsertIndexKeepsMeasures(s, id, row);
        InsertIndexKeepsCounters(s, id, row);
      case EditIndex(id, row) =>
        UpdateIndexKeepsRefs(s, id, row, false);
        UpdateIndexKeepsMeasures(s, id, row);
        UpdateIndexKeepsCounters(s, id, row, false);
      case DropIndex(id) =>
        DeleteIndexKeepsRefs(s, id);
        DeleteIndexKeepsMeasures(s, id);
        DeleteIndexKeepsCounters(s, id);
    }
  }

  lemma ChunkStatementKeepsInv(s: Db, q: Statement)
    requires Inv(s) && Attempt(s, q).Some?
    requires q.AddChunk? || q.EditChunk? || q.DropChunk?
    ensures Inv(Attempt(s, q).value)
  {
    hide Refs, Measures, Counters, InsertChunk, UpdateChunk, DeleteChunk;
    ChunkChangeKeepsCounters(s, q);
    match q {
      case AddChunk(id, row) => InsertChunkKeepsRefs(s, id, row); InsertChunkKeepsMeasures(s, id, row);
      case EditChunk(id, row) => UpdateChunkKeepsRefs(s, id, row); UpdateChunkKeepsMeasures(s, id, row);
      case DropChunk(id) => DeleteChunkKeepsRefs(s, id); DeleteChunkKeepsMeasures(s, id);
    }
  }

  lemma JobStatementKeepsInv(s: Db, q: Statement)
    requires Inv(s) && Attempt(s, q).Some?
    requires q.AddJob? || q.EditJob? || q.DropJob?
    ensures Inv(Attempt(s, q).value)
  {
    hide Refs, Measures, Counters;
    match q {
      case AddJob(id, row) => InsertJobKeepsRefs(s, id, row);
      case EditJob(id, row) => UpdateJobKeepsRefs(s, id, row);
      case DropJob(id) => DeleteJobKeepsRefs(s, id);
    }
    JobStatementEffect(s, q);
    JobsAside(s, Attempt(s, q).value);
  }

  lemma DeleteJobKeepsRefs(s: Db, id: Id)
    requires Refs(s)
    ensures Refs(DeleteJob(s, id).value)
  {
    hide SubjectRefs, DocumentRefs, ContentRefs, PageRefs, IndexRefs, ChunkRefs, ChunkPositions, JobRefs, UniqueRevisions;
    var t := DeleteJob(s, id).value;
    JobsInHand(s);
    JobRefsShrink(s.indexes, s.jobs, s.indexes, t.jobs);
  }

  lemma JobsAside(s: Db, t: Db)
    requires Measures(s) && Counters(s) && t == s.(jobs := t.jobs)
    ensures Measures(t) && Counters(t)
  {
  }

  // Deleting a Subject: its documents one by one, then the row

  lemma {:induction false} DeleteDocumentsKeepsInv(s: Db, order: seq<Id>)
    requires Inv(s) && DeleteDocuments(s, order).Some?
    ensures Inv(DeleteDocuments(s, order).value)
    ensures DeleteDocuments(s, order).value.documents == map d | d in s.documents && d !in order :: s.documents[d]
    ensures forall k :: k in s.subjects <==> k in DeleteDocuments(s, order).value.subjects
    ensures (DeleteDocuments(s, order).value.instructors, DeleteDocuments(s, order).value.spaces) == (s.instructors, s.spaces)
    decreases |order|
  {
    hide Inv, AdjustUsage, Charged, LiveContents;
    if order != [] {
      var next := DeleteDocument(s, order[0]).value;
      DropDocumentKeepsInv(s, order[0]);
      DeleteDocumentsKeepsInv(next, order[1..]);
      assert order == [order[0]] + order[1..];
    }
  }

  lemma DropDocumentKeepsInv(s: Db, id: Id)
    requires Inv(s) && DeleteDocument(s, id).Some?
    ensures Inv(DeleteDocument(s, id).value)
  {
    hide Inv, DeleteDocument;
    assert Attempt(s, DropDocument(id)) == DeleteDocument(s, id);
    DocumentStatementKeepsInv(s, DropDocument(id));
  }

  lemma DropSubjectKeepsInv(s: Db, id: Id, order: seq<Id>)
    requires Inv(s) && DeleteSubject(s, id, order).Some?
    ensures Inv(DeleteSubject(s, id, order).value)
  {
    hide Measures, Counters, DeleteDocuments;
    hide ContentRefs, PageRefs, IndexRefs, ChunkRefs, ChunkPositions, JobRefs, UniqueRevisions;
    var rest, t := DeleteDocuments(s, order).value, DeleteSubject(s, id, order).value;
    DeleteDocumentsKeepsInv(s, order);
    forall d | d in rest.documents ensures DocumentRef(t.subjects, rest.documents[d]) {
      assert DocumentRef(rest.subjects, rest.documents[d]);
    }
    forall k | k in t.subjects ensures SubjectRef(t.spaces, t.subjects[k]) {
      assert SubjectRef(rest.spaces, rest.subjects[k]);
    }
    SubjectsAside(rest, t);
  }

  lemma SubjectsAside(s: Db, t: Db)
    requires Measures(s) && Counters(s) && t == s.(subjects := t.subjects)
    ensures Measures(t) && Counters(t)
  {
  }

  // Runs

  /** Every statement, admitted or refused, keeps the invariant. */
  lemma StepKeepsInv(s: Db, q: Statement)
    requires Inv(s)
    ensures Inv(Execute(s, q))
  {
    hide Inv, Attempt;
    if Attempt(s, q).Some? {
      if q.SetInstructors? || q.AddSpace? || q.DropSpace? || q.AddSubject? || q.EditSubject? {
        SubjectStatementKeepsInv(s, q);
      } else if q.DropSubject? {
        DropSubjectAttempt(s, q);
      } else if q.AddDocument? || q.EditDocument? || q.DropDocument? {
        DocumentStatementKeepsInv(s, q);
      } else if q.AddContent? || q.EditContent? || q.DropContent? {
        ContentStatementKeepsInv(s, q);
      } else if q.AddPage? || q.EditPage? || q.DropPage? {
        PageStatementKeepsInv(s, q);
      } else if q.AddIndex? || q.EditIndex? || q.DropIndex? {
        IndexStatementKeepsInv(s, q);
      } else if q.AddChunk? || q.EditChunk? || q.DropChunk? {
        ChunkStatementKeepsInv(s, q);
      } else {
        JobStatementKeepsInv(s, q);
      }
    }
  }

  lemma DropSubjectAttempt(s: Db, q: Statement)
    requires Inv(s) && q.DropSubject? && Attempt(s, q).Some?
    ensures Inv(Attempt(s, q).value)
  {
    hide Inv, DeleteSubject;
    DropSubjectKeepsInv(s, q.id, q.order);
  }

  lemma EmptyInv()
    ensures Inv(EMPTY_DB)
  {
    hide Total;
    forall scope ensures Owed(map[], map[], map[], scope) == Usage(0, 0) {
      EmptyTotals(SliceOf(scope));
    }
  }

  lemma EmptyTotals(slice: Slice)
    ensures DocumentsIn(map[], slice) == {} && Charged(map[], map[], slice) == 0
  {
    assert ContentCharges(map[], slice) == map[];
    assert IndexCharges(map[], slice) == map[];
  }

  /** Whatever statements have been issued, in whatever order, the invariant holds. */
  lemma {:induction false} ReachableInv(qs: seq<Statement>)
    ensures Inv(Run(EMPTY_DB, qs))
    decreases |qs|
  {
    hide Inv, Execute;
    if qs == [] {
      EmptyInv();
    } else {
      ReachableInv(qs[..|qs| - 1]);
      StepKeepsInv(Run(EMPTY_DB, qs[..|qs| - 1]), qs[|qs| - 1]);
    }
  }

  /**
   * Storage conservation. In every reachable state each counter holds exactly the documents and the
   * reserved page and index bytes of its scope; no counter is negative or over its cap; a counter row
   * other than the global one exists only while it is not zero; no document is over its own cap.
   */
  lemma StorageConservation(qs: seq<Statement>, scope: Scope)
    ensures var s := Run(EMPTY_DB, qs);
            && Lookup(s.usage, scope).documents == |DocumentsIn(s.documents, SliceOf(scope))|
            && Lookup(s.usage, scope).bytes
               == Total(ContentCharges(s.contents, SliceOf(scope))) + Total(IndexCharges(s.indexes, SliceOf(scope)))
            && UsageCheck(scope, Lookup(s.usage, scope))
            && (scope in s.usage && scope != Global ==> s.usage[scope] != Usage(0, 0))
            && (forall d :: d in s.documents ==> Charged(s.contents, s.indexes, DocumentSlice(d)) <= DOCUMENT_BYTES)
  {
    hide Run, Refs, Measures, Total;
    ReachableInv(qs);
    var s := Run(EMPTY_DB, qs);
    assert Lookup(s.usage, scope) == Owed(s.documents, s.contents, s.indexes, scope);
  }

  // Removals

  /** A charge that is part of what a scope holds can always be given back. */
  lemma AdjustDown(usage: map<Scope, Usage>, subject: Id, uploader: Id, documents: int, bytes: int)
    requires CountersBounded(usage) && documents <= 0 && bytes <= 0
    requires forall scope :: Touches(scope, subject, uploader) ==>
               Lookup(usage, scope).documents + documents >= 0 && Lookup(usage, scope).bytes + bytes >= 0
    ensures AdjustUsage(usage, subject, uploader, documents, bytes).Some?
  {
    hide AdjustScope, CountersBounded;
    var a, b, c := Global, OfSubject(subject), OfUploader(uploader);
    assert Touches(a, subject, uploader) && Touches(b, subject, uploader) && Touches(c, subject, uploader);
    AdjustScopeDown(usage, a, documents, bytes);
    var first := AdjustScope(usage, a, documents, bytes).value;
    AdjustScopeEffect(usage, a, documents, bytes, b);
    AdjustScopeEffect(usage, a, documents, bytes, c);
    AdjustScopeDown(first, b, documents, bytes);
    var second := AdjustScope(first, b, documents, bytes).value;
    AdjustScopeEffect(first, b, documents, bytes, c);
    AdjustScopeDown(second, c, documents, bytes);
    var scopes := [a, b, c];
    assert scopes[1..] == [b, c] && [b, c][1..] == [c] && [c][1..] == [];
    assert AdjustScopes(second, [c], documents, bytes).Some?;
    assert AdjustScopes(first, [b, c], documents, bytes) == AdjustScopes(second, [c], documents, bytes);
    assert AdjustScopes(usage, scopes, documents, bytes) == AdjustScopes(first, [b, c], documents, bytes);
  }

  lemma AdjustScopeDown(usage: map<Scope, Usage>, scope: Scope, documents: int, bytes: int)
    requires CountersBounded(usage) && documents <= 0 && bytes <= 0
    requires Lookup(usage, scope).documents + documents >= 0 && Lookup(usage, scope).bytes + bytes >= 0
    ensures AdjustScope(usage, scope, documents, bytes).Some?
  {
  }

  /** What is charged to a slice inside a scope is at most what is charged to the scope. */
  lemma PartOfCharge(s: Db, d: Id, slice: Slice)
    requires ContentRefs(s.documents, s.contents) && IndexRefs(s.spaces, s.contents, s.indexes) && d in s.documents
    requires slice.Covers(d, s.documents[d].subject, s.documents[d].uploader)
    ensures 0 <= Charged(s.contents, s.indexes, DocumentSlice(d)) <= Charged(s.contents, s.indexes, slice)
  {
    hide Charged, ContentRefs, IndexRefs;
    ReservationsNonNegative(s);
    ChargesNonNegative(s.contents, s.indexes, DocumentSlice(d));
    var t := OutsideDocument(s, d);
    OutsideCharges(s, d, slice);
    DocumentCut(s, t, d, slice);
  }

  ghost function OutsideDocument(s: Db, d: Id): Db {
    s.(contents := map c | c in s.contents && s.contents[c].document != d :: s.contents[c],
       indexes := map x | x in s.indexes && s.indexes[x].document != d :: s.indexes[x])
  }

  lemma OutsideCharges(s: Db, d: Id, slice: Slice)
    requires forall c :: c in s.contents ==> s.contents[c].reservedBytes >= 0
    requires forall x :: x in s.indexes ==> s.indexes[x].reservedBytes >= 0
    ensures Charged(OutsideDocument(s, d).contents, OutsideDocument(s, d).indexes, slice) >= 0
  {
    hide Charged;
    var t := OutsideDocument(s, d);
    ChargesNonNegative(t.contents, t.indexes, slice);
  }

  lemma ScopeHoldsDocument(s: Db, id: Id, scope: Scope)
    requires ContentRefs(s.documents, s.contents) && IndexRefs(s.spaces, s.contents, s.indexes) && id in s.documents
    requires Conserved(s.documents, s.contents, s.indexes, s.usage)
    requires Touches(scope, s.documents[id].subject, s.documents[id].uploader)
    ensures Lookup(s.usage, scope).documents >= 1
    ensures Lookup(s.usage, scope).bytes >= Charged(s.contents, s.indexes, DocumentSlice(id)) >= 0
  {
    hide Charged, ContentRefs, IndexRefs;
    assert Lookup(s.usage, scope) == Owed(s.documents, s.contents, s.indexes, scope);
    assert id in DocumentsIn(s.documents, SliceOf(scope));
    PartOfCharge(s, id, SliceOf(scope));
  }

  /** Removing a document is refused exactly when there is no such document: its release never overdraws a counter. */
  lemma DocumentRemovalIsNeverRefused(s: Db, id: Id)
    requires Inv(s)
    ensures DeleteDocument(s, id).Some? <==> id in s.documents
  {
    hide SubjectRefs, DocumentRefs, ContentRefs, PageRefs, IndexRefs, ChunkRefs, ChunkPositions, JobRefs, UniqueRevisions, Measures;
    hide Charged, AdjustUsage, LiveContents, Bump, CountersBounded, DocumentsCapped, Conserved, Lookup;
    if id in s.documents {
      var d, charge := s.documents[id], Charged(s.contents, s.indexes, DocumentSlice(id));
      forall scope | Touches(scope, d.subject, d.uploader)
        ensures Lookup(s.usage, scope).documents >= 1 && Lookup(s.usage, scope).bytes >= charge >= 0
      {
        ScopeHoldsDocument(s, id, scope);
      }
      assert Touches(Global, d.subject, d.uploader);
      AdjustDown(s.usage, d.subject, d.uploader, -1, 0 - charge);
    }
  }
}
