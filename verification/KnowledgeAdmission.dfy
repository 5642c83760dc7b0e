/**
 * When the guards admit: in every reachable state, what the triggers decide from their counters and measured
 * columns is what a recount of the tables would decide.
 */
module KnowledgeAdmission {
  import opened Prelude
  import opened MapSums
  import opened KnowledgeTables
  import opened KnowledgeStatements
  import opened KnowledgeInvariants
  import opened KnowledgeCounters
  import opened FrozenContent

  // Counters

  lemma AdjustScopeAdmitted(usage: map<Scope, Usage>, at: Scope, documents: int, bytes: int)
    ensures AdjustScope(usage, at, documents, bytes).Some?
            <==> UsageCheck(at, Usage(Lookup(usage, at).documents + documents, Lookup(usage, at).bytes + bytes))
    ensures AdjustScope(usage, at, documents, bytes).Some? ==>
              forall scope :: scope != at ==> Lookup(AdjustScope(usage, at, documents, bytes).value, scope) == Lookup(usage, scope)
  {
  }

  predicate Allows(usage: map<Scope, Usage>, scope: Scope, documents: int, bytes: int) {
    UsageCheck(scope, Usage(Lookup(usage, scope).documents + documents, Lookup(usage, scope).bytes + bytes))
  }

  lemma AdjustUsageAdmitted(usage: map<Scope, Usage>, subject: Id, uploader: Id, documents: int, bytes: int)
    ensures AdjustUsage(usage, subject, uploader, documents, bytes).Some?
            <==> && Allows(usage, Global, documents, bytes) && Allows(usage, OfSubject(subject), documents, bytes)
                 && Allows(usage, OfUploader(uploader), documents, bytes)
  {
    hide AdjustScope, Lookup, UsageCheck;
    var scopes := [Global, OfSubject(subject), OfUploader(uploader)];
    assert scopes[1..] == [OfSubject(subject), OfUploader(uploader)] && scopes[1..][1..] == [OfUploader(uploader)];
    assert scopes[1..][1..][1..] == [];
    AdjustScopeAdmitted(usage, Global, documents, bytes);
    if Allows(usage, Global, documents, bytes) {
      var first := AdjustScope(usage, Global, documents, bytes).value;
      AdjustScopeAdmitted(first, OfSubject(subject), documents, bytes);
      assert Allows(first, OfSubject(subject), documents, bytes) == Allows(usage, OfSubject(subject), documents, bytes);
      if Allows(first, OfSubject(subject), documents, bytes) {
        var second := AdjustScope(first, OfSubject(subject), documents, bytes).value;
        AdjustScopeAdmitted(second, OfUploader(uploader), documents, bytes);
        assert Allows(second, OfUploader(uploader), documents, bytes) == Allows(usage, OfUploader(uploader), documents, bytes);
        assert AdjustScopes(second, scopes[1..][1..], documents, bytes).Some? == AdjustScope(second, OfUploader(uploader), documents, bytes).Some?;
      }
      assert AdjustScopes(first, scopes[1..], documents, bytes)
          == if AdjustScope(first, OfSubject(subject), documents, bytes).None? then None
             else AdjustScopes(AdjustScope(first, OfSubject(subject), documents, bytes).value, scopes[1..][1..], documents, bytes);
    }
  }

  /** Counting anew, there is room for so many documents and bytes more in all, in the Subject and with the uploader. */
  ghost predicate Room(s: Db, subject: Id, uploader: Id, documents: nat, bytes: int) {
    && |s.documents| + documents <= 500
    && Charged(s.contents, s.indexes, Everything) + bytes <= 2147483648
    && |DocumentsIn(s.documents, SubjectSlice(subject))| + documents <= 50
    && Charged(s.contents, s.indexes, SubjectSlice(subject)) + bytes <= 268435456
    && |DocumentsIn(s.documents, UploaderSlice(uploader))| + documents <= 100
    && Charged(s.contents, s.indexes, UploaderSlice(uploader)) + bytes <= 536870912
  }

  lemma CounterIsRecount(s: Db, scope: Scope)
    requires Inv(s)
    ensures Lookup(s.usage, scope) == Usage(|DocumentsIn(s.documents, SliceOf(scope))|, Charged(s.contents, s.indexes, SliceOf(scope)))
    ensures Charged(s.contents, s.indexes, SliceOf(scope)) >= 0
  {
    hide SubjectRefs, DocumentRefs, ContentRefs, PageRefs, IndexRefs, ChunkRefs, ChunkPositions, JobRefs, UniqueRevisions, Measures;
    hide Charged, Lookup, CountersBounded, DocumentsCapped;
    ReservationsNonNegative(s);
    ChargesNonNegative(s.contents, s.indexes, SliceOf(scope));
    assert Lookup(s.usage, scope) == Owed(s.documents, s.contents, s.indexes, scope);
  }

  /** The counters decide as a recount would, for whatever is not taken away from nothing. */
  lemma CountersDecide(s: Db, subject: Id, uploader: Id, documents: nat, bytes: int)
    requires Inv(s)
    requires bytes >= 0 || forall scope :: Touches(scope, subject, uploader) ==> Charged(s.contents, s.indexes, SliceOf(scope)) + bytes >= 0
    ensures AdjustUsage(s.usage, subject, uploader, documents, bytes).Some? <==> Room(s, subject, uploader, documents, bytes)
  {
    hide Inv, Charged, Lookup, AdjustUsage;
    AdjustUsageAdmitted(s.usage, subject, uploader, documents, bytes);
    CounterIsRecount(s, Global);
    CounterIsRecount(s, OfSubject(subject));
    CounterIsRecount(s, OfUploader(uploader));
    assert DocumentsIn(s.documents, Everything) == s.documents.Keys;
    assert Touches(Global, subject, uploader) && Touches(OfSubject(subject), subject, uploader) && Touches(OfUploader(uploader), subject, uploader);
  }

  /** A document is admitted exactly when its uploader may add to the Subject and a recount finds room for it. */
  lemma DocumentAdmitted(s: Db, id: Id, row: Document)
    requires Inv(s)
    ensures Attempt(s, AddDocument(id, row)).Some? <==>
              && id !in s.documents && DocumentCheck(row)
              && row.uploader in s.instructors && row.subject in s.subjects && s.subjects[row.subject].instructor == row.uploader
              && Room(s, row.subject, row.uploader, 1, 0)
  {
    hide Inv, Room, AdjustUsage, DocumentCheck;
    CountersDecide(s, row.subject, row.uploader, 1, 0);
  }

  /** A new revision is admitted exactly when it is blank, the document has fewer than four, and a recount finds room for its bytes. */
  lemma ContentAdmitted(s: Db, id: Id, row: Content)
    requires Inv(s)
    ensures Attempt(s, AddContent(id, row)).Some? <==>
              && id !in s.contents && row.document in s.documents
              && row.subject == s.documents[row.document].subject && row.uploader == s.documents[row.document].uploader
              && row.status == Processing && !row.isActive && row.actualPages == 0 && row.actualChars == 0 && row.actualBytes == 0
              && row.reviewedAt.None? && row.reviewedBy.None? && row.publishedAt.None? && row.error.None? && ContentCheck(row) && row.reservedBytes >= 0
              && |set c | c in s.contents && s.contents[c].document == row.document| < 4
              && (forall c :: c in s.contents && s.contents[c].document == row.document ==> s.contents[c].revisionNo != row.revisionNo)
              && Charged(s.contents, s.indexes, DocumentSlice(row.document)) + row.reservedBytes <= 67108864
              && Room(s, row.subject, row.uploader, 0, row.reservedBytes)
  {
    hide Inv, Room, AdjustUsage, ContentCheck, Charged;
    ReservationChecked(row);
    if row.reservedBytes >= 0 {
      CountersDecide(s, row.subject, row.uploader, 0, row.reservedBytes);
    }
    assert ContentsOf(s.contents, row.document) == set c | c in s.contents && s.contents[c].document == row.document;
  }

  /** The same for a new index, which moreover needs captured content and a known embedding space. */
  lemma IndexAdmitted(s: Db, id: Id, row: Index)
    requires Inv(s)
    ensures Attempt(s, AddIndex(id, row)).Some? <==>
              && id !in s.indexes && row.content in s.contents
              && (s.contents[row.content].status == PendingIndex || s.contents[row.content].status == ContentReady)
              && (row.document, row.subject, row.uploader)
                 == (s.contents[row.content].document, s.contents[row.content].subject, s.contents[row.content].uploader)
              && row.status == Staged && !row.isActive && row.actualChunks == 0 && row.actualEmbedded == 0 && row.actualBytes == 0
              && row.error.None? && IndexCheck(row) && row.reservedBytes >= 0
              && row.space in s.spaces && s.spaces[row.space] == row.profile
              && |set x | x in s.indexes && s.indexes[x].document == row.document| < 8
              && (forall x :: x in s.indexes && s.indexes[x].content == row.content ==> s.indexes[x].revisionNo != row.revisionNo)
              && Charged(s.contents, s.indexes, DocumentSlice(row.document)) + row.reservedBytes <= 67108864
              && Room(s, row.subject, row.uploader, 0, row.reservedBytes)
  {
    hide Inv, Room, AdjustUsage, IndexCheck, Charged;
    IndexReservationChecked(row);
    if row.reservedBytes >= 0 {
      CountersDecide(s, row.subject, row.uploader, 0, row.reservedBytes);
    }
    assert IndexesOf(s.indexes, row.document) == set x | x in s.indexes && s.indexes[x].document == row.document;
    ContentHasDocument(s, row.content);
  }

  lemma ContentHasDocument(s: Db, c: Id)
    requires Inv(s)
    ensures c in s.contents ==>
              && s.contents[c].document in s.documents
              && s.documents[s.contents[c].document].subject == s.contents[c].subject
              && s.documents[s.contents[c].document].uploader == s.contents[c].uploader
              && ContentCheck(s.contents[c]) && (s.contents[c].status == PendingIndex ==> s.contents[c].Complete())
              && Charged(s.contents, s.indexes, DocumentSlice(s.contents[c].document)) <= DOCUMENT_BYTES
  {
    hide SubjectRefs, DocumentRefs, PageRefs, IndexRefs, ChunkRefs, ChunkPositions, JobRefs, UniqueRevisions, Measures, Charged, Conserved;
    if c in s.contents {
      assert ContentRef(s.documents, s.contents[c]);
    }
  }

  lemma ReservationChecked(row: Content)
    ensures ContentCheck(row) ==> row.reservedBytes >= 0
  {
  }

  lemma IndexReservationChecked(row: Index)
    ensures IndexCheck(row) ==> row.reservedBytes >= 0
  {
  }

  // Pages and chunks

  /** A page is admitted exactly while its content is being processed, under its reservations as counted from the stored pages. */
  lemma PageAdmitted(s: Db, key: PageKey, row: Page)
    requires Inv(s)
    ensures Attempt(s, AddPage(key, row)).Some? <==>
              && key !in s.pages && key.content in s.contents && PageCheck(key, row)
              && var parent := s.contents[key.content];
              && parent.status == Processing && key.number <= parent.reservedPages
              && (row.document, row.subject, row.uploader) == (parent.document, parent.subject, parent.uploader)
              && |PagesOf(s.pages, key.content)| + 1 <= parent.reservedPages
              && Total(PageChars(s.pages, key.content)) + |row.text| <= parent.reservedChars
              && Total(PageBytes(s.pages, key.content)) + Utf8Length(row.text) <= parent.reservedBytes
  {
    hide Inv, Total, PagesOf, PageChars, PageBytes, PageCheck, Utf8Length, Charged;
    ContentHasDocument(s, key.content);
    if key.content in s.contents {
      PagesStored(s, key.content);
    }
  }

  lemma PagesStored(s: Db, c: Id)
    requires Inv(s) && c in s.contents
    ensures s.contents[c].actualPages == |PagesOf(s.pages, c)|
    ensures s.contents[c].actualChars == Total(PageChars(s.pages, c)) && s.contents[c].actualBytes == Total(PageBytes(s.pages, c))
  {
    hide Refs, Counters, MeasuredChunks, Total, PagesOf, PageChars, PageBytes;
    assert ContentMeasured(s.pages, c, s.contents[c]);
  }

  /** The same for a chunk of an open index, in a position that is free, from a page that is there. */
  lemma ChunkAdmitted(s: Db, id: Id, row: Chunk)
    requires Inv(s)
    ensures Attempt(s, AddChunk(id, row)).Some? <==>
              && id !in s.chunks && row.index in s.indexes && ChunkCheck(row)
              && PageKey(row.content, row.pageNumber) in s.pages
              && var parent := s.indexes[row.index];
              && (parent.status == Staged || parent.status == Indexing) && row.position < parent.reservedChunks
              && (row.content, row.document, row.subject, row.uploader, row.space)
                 == (parent.content, parent.document, parent.subject, parent.uploader, parent.space)
              && (forall k :: k in s.chunks && s.chunks[k].index == row.index ==> s.chunks[k].position != row.position)
              && |ChunksOf(s.chunks, row.index)| + 1 <= parent.reservedChunks
              && Total(ChunkSizes(s.chunks, row.index)) + ChunkBytes(row) <= parent.reservedBytes
  {
    hide Inv, Total, ChunksOf, ChunkEmbeddings, ChunkSizes, ChunkCheck, ChunkBytes, Charged;
    if row.index in s.indexes {
      IndexHasDocument(s, row.index);
      ChunksStored(s, row.index);
      ChunkIsCharged(row);
    }
  }

  lemma ChunkIsCharged(row: Chunk)
    ensures ChunkBytes(row) >= 6408
  {
  }

  // Edits of revisions and indexes

  /** What one revision reserves is part of every slice it stands in. */
  lemma ReservedInSlice(s: Db, c: Id, slice: Slice)
    requires Inv(s) && c in s.contents && slice.Covers(s.contents[c].document, s.contents[c].subject, s.contents[c].uploader)
    ensures Charged(s.contents, s.indexes, slice) >= s.contents[c].reservedBytes
  {
    hide SubjectRefs, DocumentRefs, ContentRefs, PageRefs, IndexRefs, ChunkRefs, ChunkPositions, JobRefs, UniqueRevisions, Measures, Counters, Charged;
    ReservationsNonNegative(s);
    ChargesNonNegative(s.contents - {c}, s.indexes, slice);
    ContentCut(s.contents, s.indexes, c, slice);
  }

  lemma IndexReservedInSlice(s: Db, x: Id, slice: Slice)
    requires Inv(s) && x in s.indexes && slice.Covers(s.indexes[x].document, s.indexes[x].subject, s.indexes[x].uploader)
    ensures Charged(s.contents, s.indexes, slice) >= s.indexes[x].reservedBytes
  {
    hide SubjectRefs, DocumentRefs, ContentRefs, PageRefs, IndexRefs, ChunkRefs, ChunkPositions, JobRefs, UniqueRevisions, Measures, Counters, Charged;
    ReservationsNonNegative(s);
    ChargesNonNegative(s.contents, s.indexes - {x}, slice);
    IndexCut(s.contents, s.indexes, x, slice);
  }

  /** The row differs in nothing that is fixed once the revision exists: whose it is, what it captures, what was measured. */
  predicate SameRevision(old_: Content, row: Content) {
    row == old_.(status := row.status, isActive := row.isActive, reservedPages := row.reservedPages, reservedChars := row.reservedChars,
                 reservedBytes := row.reservedBytes, reviewedBy := row.reviewedBy, reviewedAt := row.reviewedAt, publishedAt := row.publishedAt,
                 error := row.error)
  }

  /** Where a revision may go from here: extraction ends one way or the other, captured content becomes ready or is cancelled. */
  predicate GoesOn(from: ContentStatus, to: ContentStatus) {
    match from
    case Processing => to != ContentReady
    case PendingIndex => to == PendingIndex || to == ContentReady || to == ContentCancelled
    case _ => to == from
  }

  ghost predicate MayEdit(s: Db, id: Id, row: Content)
    requires id in s.contents
  {
    var old_ := s.contents[id];
    && SameRevision(old_, row) && ContentCheck(row)
    && GoesOn(old_.status, row.status)
    && (row.status == PendingIndex || row.status == ContentReady ==>
          row.reservedPages != 0 && (row.reservedPages, row.reservedChars, row.reservedBytes) == (old_.actualPages, old_.actualChars, old_.actualBytes))
    && (row.status == ContentReady ==> exists x :: x in s.indexes && s.indexes[x].content == id && s.indexes[x].status == IndexReady)
    && (row.isActive ==> forall c :: c in s.contents && c != id && s.contents[c].document == row.document ==> !s.contents[c].isActive)
    && Charged(s.contents, s.indexes, DocumentSlice(row.document)) + row.reservedBytes - old_.reservedBytes <= 67108864
    && Room(s, row.subject, row.uploader, 0, row.reservedBytes - old_.reservedBytes)
  }

  /** An edit of a revision is admitted exactly under these conditions, whatever it changes. */
  lemma ContentEditAdmitted(s: Db, id: Id, row: Content)
    requires Inv(s) && id in s.contents
    ensures Attempt(s, EditContent(id, row)).Some? <==> MayEdit(s, id, row)
  {
    hide Inv, AdjustUsage, Charged, Room, Bump, ContentCheck, HasReadyIndex;
    var old_ := s.contents[id];
    ContentHasDocument(s, id);
    ReservationChecked(row);
    OthersNumbered(s, id);
    ReadyIndexThere(s, id);
    if row.reservedBytes >= 0 {
      forall scope | Touches(scope, old_.subject, old_.uploader)
        ensures Charged(s.contents, s.indexes, SliceOf(scope)) + row.reservedBytes - old_.reservedBytes >= 0
      {
        ReservedInSlice(s, id, SliceOf(scope));
      }
      CountersDecide(s, old_.subject, old_.uploader, 0, row.reservedBytes - old_.reservedBytes);
    }
  }

  lemma ReadyIndexThere(s: Db, id: Id)
    ensures HasReadyIndex(s.indexes, id) <==> exists x :: x in s.indexes && s.indexes[x].content == id && s.indexes[x].status == IndexReady
  {
  }

  predicate SameIndex(old_: Index, row: Index) {
    row == old_.(status := row.status, isActive := row.isActive, reservedChunks := row.reservedChunks, reservedBytes := row.reservedBytes,
                 error := row.error)
  }

  predicate IndexGoesOn(from: IndexStatus, to: IndexStatus) {
    match from
    case Staged => true
    case Indexing => to != Staged
    case _ => to == from
  }

  ghost predicate MayEditIndex(s: Db, id: Id, row: Index)
    requires id in s.indexes
  {
    var old_ := s.indexes[id];
    && SameIndex(old_, row) && IndexCheck(row)
    && IndexGoesOn(old_.status, row.status)
    && (row.isActive ==> forall x :: x in s.indexes && x != id && s.indexes[x].content == row.content ==> !s.indexes[x].isActive)
    && Charged(s.contents, s.indexes, DocumentSlice(row.document)) + row.reservedBytes - old_.reservedBytes <= 67108864
    && Room(s, row.subject, row.uploader, 0, row.reservedBytes - old_.reservedBytes)
  }

  lemma IndexEditAdmitted(s: Db, id: Id, row: Index)
    requires Inv(s) && id in s.indexes
    ensures Attempt(s, EditIndex(id, row)).Some? <==> MayEditIndex(s, id, row)
  {
    hide Inv, AdjustUsage, Charged, Room, Bump, IndexCheck, IndexBump;
    var old_ := s.indexes[id];
    IndexHasDocument(s, id);
    IndexReservationChecked(row);
    if row.reservedBytes >= 0 {
      forall scope | Touches(scope, old_.subject, old_.uploader)
        ensures Charged(s.contents, s.indexes, SliceOf(scope)) + row.reservedBytes - old_.reservedBytes >= 0
      {
        IndexReservedInSlice(s, id, SliceOf(scope));
      }
      CountersDecide(s, old_.subject, old_.uploader, 0, row.reservedBytes - old_.reservedBytes);
    }
  }

  // Index jobs

  /** A job is admitted exactly if it is fresh, at its Subject's revision, the only one of its index, and its uploader never used the key before. */
  lemma JobAdmitted(s: Db, id: Id, row: Job)
    ensures Attempt(s, AddJob(id, row)).Some? <==>
              && id !in s.jobs && JobCheck(row) && row.index in s.indexes
              && var x := s.indexes[row.index];
              && (row.content, row.document, row.subject, row.uploader) == (x.content, x.document, x.subject, x.uploader)
              && row == row.(status := Queued, attempts := 0, worker := None, claimToken := None, heartbeatAt := None, leaseExpiresAt := None,
                             cancellationRequestedAt := None, completedAt := None, error := None)
              && row.subject in s.subjects && row.corpusRevision == s.subjects[row.subject].corpusRevision
              && forall j :: j in s.jobs ==>
                   s.jobs[j].index != row.index && !(s.jobs[j].uploader == row.uploader && s.jobs[j].operationKey == row.operationKey)
  {
    hide JobCheck;
  }

  /** What a worker, a retry, a cancellation or a failure may make of a job. */
  ghost predicate MayMove(s: Db, old_: Job, row: Job) {
    match old_.status
    case Queued =>
      if row.status == Running then row.attempts == old_.attempts + 1
      else row.attempts == old_.attempts && (row.status == Queued || row.status == JobFailed || row.status == JobCancelled)
    case Running =>
      && row.attempts == old_.attempts
      && (row.status == Running ==> row.worker == old_.worker && row.claimToken == old_.claimToken)
      && (row.status == JobCompleted ==> row.index in s.indexes && s.indexes[row.index].status == IndexReady)
    case _ => row == old_ && (row.status == JobCompleted ==> row.index in s.indexes && s.indexes[row.index].status == IndexReady)
  }

  /** An edit of a job is admitted exactly if it may move so, keeps its target, its limits and a cancellation request, and passes the row check. */
  lemma JobEditAdmitted(s: Db, id: Id, row: Job)
    requires id in s.jobs
    ensures var old_ := s.jobs[id];
            Attempt(s, EditJob(id, row)).Some? <==>
              && MayMove(s, old_, row) && JobCheck(row)
              && row == old_.(status := row.status, attempts := row.attempts, worker := row.worker, claimToken := row.claimToken,
                              availableAt := row.availableAt, heartbeatAt := row.heartbeatAt, leaseExpiresAt := row.leaseExpiresAt, completedAt := row.completedAt,
                              cancellationRequestedAt := row.cancellationRequestedAt, error := row.error)
              && (old_.cancellationRequestedAt.Some? ==> row.cancellationRequestedAt == old_.cancellationRequestedAt)
  {
    hide JobCheck;
  }

  // Publishing

  lemma RoomAsIs(s: Db, subject: Id, uploader: Id)
    requires Inv(s)
    ensures Room(s, subject, uploader, 0, 0)
  {
    hide Inv, Charged;
    BoundedCounters(s);
    CounterIsRecount(s, Global);
    CounterIsRecount(s, OfSubject(subject));
    CounterIsRecount(s, OfUploader(uploader));
    assert DocumentsIn(s.documents, Everything) == s.documents.Keys;
  }

  lemma BoundedCounters(s: Db)
    requires Inv(s)
    ensures forall scope :: UsageCheck(scope, Lookup(s.usage, scope))
  {
    hide Refs, Measures, Conserved, DocumentsCapped;
  }

  /**
   * One of the revision's indexes is ready, the review is by the uploader, nothing is published unreviewed, and
   * no other revision of the document is active beside it.
   */
  ghost predicate MayPublish(s: Db, id: Id, row: Content)
    requires id in s.contents
  {
    && (s.contents[id].status == PendingIndex || s.contents[id].status == ContentReady)
    && (exists x :: x in s.indexes && s.indexes[x].content == id && s.indexes[x].status == IndexReady)
    && row.reviewedBy == (if row.reviewedAt.Some? then Some(row.uploader) else None)
    && (row.publishedAt.Some? ==> row.reviewedAt.Some?)
    && (row.isActive ==> forall c :: c in s.contents && c != id && s.contents[c].document == row.document ==> !s.contents[c].isActive)
  }

  /** Making captured content ready, or reviewing, publishing, activating it; that its pages are complete is settled by then. */
  lemma PublishingAdmitted(s: Db, id: Id, row: Content)
    requires Inv(s) && id in s.contents
    requires row == s.contents[id].(status := ContentReady, isActive := row.isActive, reviewedAt := row.reviewedAt,
                                    reviewedBy := row.reviewedBy, publishedAt := row.publishedAt)
    ensures Attempt(s, EditContent(id, row)).Some? <==> MayPublish(s, id, row)
  {
    hide Inv, AdjustUsage, Charged, Room, Bump;
    ContentHasDocument(s, id);
    RoomAsIs(s, row.subject, row.uploader);
    CountersDecide(s, row.subject, row.uploader, 0, 0);
    OthersNumbered(s, id);
  }

  lemma OthersNumbered(s: Db, id: Id)
    requires Inv(s) && id in s.contents
    ensures forall c :: c in s.contents && c != id && s.contents[c].document == s.contents[id].document ==>
              s.contents[c].revisionNo != s.contents[id].revisionNo
  {
    hide SubjectRefs, DocumentRefs, ContentRefs, PageRefs, IndexRefs, ChunkRefs, ChunkPositions, JobRefs, Measures, Counters, UniqueIndexes;
  }

  lemma ChunksStored(s: Db, x: Id)
    requires Inv(s) && x in s.indexes
    ensures s.indexes[x].actualChunks == |ChunksOf(s.chunks, x)|
    ensures s.indexes[x].actualEmbedded == Total(ChunkEmbeddings(s.chunks, x)) && s.indexes[x].actualBytes == Total(ChunkSizes(s.chunks, x))
    ensures 0 <= s.indexes[x].actualChunks <= s.indexes[x].reservedChunks && 0 <= s.indexes[x].actualBytes <= s.indexes[x].reservedBytes
  {
    hide SubjectRefs, DocumentRefs, ContentRefs, PageRefs, ChunkRefs, ChunkPositions, JobRefs, UniqueRevisions;
    hide Counters, MeasuredPages, Total, ChunksOf, ChunkEmbeddings, ChunkSizes;
    assert IndexMeasured(s.chunks, x, s.indexes[x]);
    assert IndexRef(s.spaces, s.contents, s.indexes[x]);
  }

  lemma IndexHasDocument(s: Db, x: Id)
    requires Inv(s) && x in s.indexes
    ensures var row := s.indexes[x];
            && row.document in s.documents && IndexCheck(row)
            && s.documents[row.document].subject == row.subject && s.documents[row.document].uploader == row.uploader
            && row.space in s.spaces && s.spaces[row.space] == row.profile
            && Charged(s.contents, s.indexes, DocumentSlice(row.document)) <= DOCUMENT_BYTES
            && (forall y :: y in s.indexes && y != x && s.indexes[y].content == row.content ==> s.indexes[y].revisionNo != row.revisionNo)
  {
    hide SubjectRefs, DocumentRefs, PageRefs, ChunkRefs, ChunkPositions, JobRefs, Measures, Charged, Conserved, UniqueContents;
    assert IndexRef(s.spaces, s.contents, s.indexes[x]);
    assert ContentRef(s.documents, s.contents[s.indexes[x].content]);
  }

  /** As many embeddings as chunks means that every chunk has one. */
  lemma AllEmbedded(chunks: map<Id, Chunk>, x: Id)
    ensures Total(ChunkEmbeddings(chunks, x)) == |ChunksOf(chunks, x)|
            <==> forall k :: k in chunks && chunks[k].index == x ==> chunks[k].embedding.Some?
  {
    hide Total;
    var m := ChunkEmbeddings(chunks, x);
    assert m.Keys == ChunksOf(chunks, x);
    assert forall k :: k in chunks && chunks[k].index == x ==> k in m && m[k] == Embedded(chunks[k]);
    if Total(m) == |ChunksOf(chunks, x)| {
      forall k | k in m ensures m[k] == 1 {
        FullHouse(m, k);
      }
    } else if forall k :: k in m ==> m[k] == 1 {
      AllOnes(m);
    }
  }

  lemma {:induction false} AllOnes(m: map<Id, int>)
    requires forall k :: k in m ==> m[k] == 1
    ensures Total(m) == |m.Keys|
    decreases |m|
  {
    hide Total;
    if m == map[] {
      EmptyTotal(m);
    } else {
      var k :| k in m;
      TotalRemove(m, k);
      assert (m - {k}).Keys == m.Keys - {k};
      AllOnes(m - {k});
    }
  }

  /** As many chunks as reserved are stored, all with embeddings, and no other index of the content is active beside it. */
  ghost predicate MayServe(s: Db, id: Id, row: Index)
    requires id in s.indexes
  {
    && (s.indexes[id].status == Staged || s.indexes[id].status == Indexing || s.indexes[id].status == IndexReady)
    && |ChunksOf(s.chunks, id)| == row.reservedChunks > 0
    && (forall k :: k in s.chunks && s.chunks[k].index == id ==> s.chunks[k].embedding.Some?)
    && (row.isActive ==> forall x :: x in s.indexes && x != id && s.indexes[x].content == row.content ==> !s.indexes[x].isActive)
  }

  /** Making an index ready, or activating it. */
  lemma ReadyingAdmitted(s: Db, id: Id, row: Index)
    requires Inv(s) && id in s.indexes && row == s.indexes[id].(status := IndexReady, isActive := row.isActive)
    ensures Attempt(s, EditIndex(id, row)).Some? <==> MayServe(s, id, row)
  {
    hide Inv, AdjustUsage, Charged, Room, Total, ChunksOf, ChunkEmbeddings, Bump, IndexBump;
    IndexHasDocument(s, id);
    ChunksStored(s, id);
    AllEmbedded(s.chunks, id);
    RoomAsIs(s, row.subject, row.uploader);
    CountersDecide(s, row.subject, row.uploader, 0, 0);
  }
}
