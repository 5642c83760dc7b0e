/**
 * The corpus stamp is precise: it moves for the changes that reach published content and for no others, each
 * time by one, so that capturing, indexing and retiring unpublished revisions disturb no reader.
 */
module StampPrecision {
  import opened Prelude
  import opened KnowledgeTables
  import opened KnowledgeStatements
  import opened KnowledgeEffects
  import opened KnowledgeInvariants
  import opened KnowledgeRuns
  import opened VersionStamp

  predicate Published(row: Content) {
    row.status == ContentReady && row.isActive && row.publishedAt.Some?
  }

  /** The index is of published content, in the space that the Subject reads. */
  predicate InReach(s: Db, x: Index) {
    && x.content in s.contents && Published(s.contents[x.content])
    && s.contents[x.content].subject in s.subjects
    && s.subjects[s.contents[x.content].subject].activeSpace == Some(x.space)
  }

  /** The Subjects are as before, but for one stamp that rose by `n`. */
  ghost predicate Risen(before: map<Id, Subject>, after: map<Id, Subject>, subject: Id, n: nat) {
    && after.Keys == before.Keys
    && forall k :: k in before ==>
         after[k] == if k == subject then before[k].(corpusRevision := before[k].corpusRevision + n) else before[k]
  }

  lemma BumpIsRise(before: map<Id, Subject>, subject: Id, n: nat)
    ensures Risen(before, Bump(before, subject, n), subject, n)
  {
  }

  lemma NoRise(before: map<Id, Subject>, after: map<Id, Subject>, subject: Id)
    requires Risen(before, after, subject, 0)
    ensures after == before
  {
  }

  // Statement by statement

  /** Editing a revision moves the stamp by one if it was or becomes published and one of five columns changes; else not at all. */
  lemma EditContentMoves(s: Db, id: Id, row: Content)
    requires Attempt(s, EditContent(id, row)).Some?
    ensures id in s.contents && row.subject == s.contents[id].subject
    ensures var old_, after := s.contents[id], Attempt(s, EditContent(id, row)).value.subjects;
            if (row.status, row.isActive, row.reviewedAt, row.reviewedBy, row.publishedAt)
               == (old_.status, old_.isActive, old_.reviewedAt, old_.reviewedBy, old_.publishedAt)
               || !(Published(old_) || Published(row))
            then after == s.subjects
            else Risen(s.subjects, after, row.subject, 1)
  {
    hide AdjustUsage, Charged, ContentCheck, UniqueContent, HasReadyIndex, Bump;
    BumpIsRise(s.subjects, row.subject, 0);
    BumpIsRise(s.subjects, row.subject, 1);
    NoRise(s.subjects, Bump(s.subjects, row.subject, 0), row.subject);
  }

  lemma DropContentMoves(s: Db, id: Id)
    requires Attempt(s, DropContent(id)).Some?
    ensures id in s.contents
    ensures var after := Attempt(s, DropContent(id)).value.subjects;
            if Published(s.contents[id]) then Risen(s.subjects, after, s.contents[id].subject, 1) else after == s.subjects
  {
    hide AdjustUsage, IndexesOfContent, Bump;
    BumpIsRise(s.subjects, s.contents[id].subject, 0);
    BumpIsRise(s.subjects, s.contents[id].subject, 1);
    NoRise(s.subjects, Bump(s.subjects, s.contents[id].subject, 0), s.contents[id].subject);
  }

  /** Editing an index moves the stamp only if it enters or leaves service, or changes in it, where readers look. */
  lemma EditIndexMoves(s: Db, id: Id, row: Index)
    requires Attempt(s, EditIndex(id, row)).Some?
    ensures id in s.indexes && row.subject == s.indexes[id].subject
    ensures var old_, after := s.indexes[id], Attempt(s, EditIndex(id, row)).value.subjects;
            if (row.status, row.isActive) == (old_.status, old_.isActive)
               || !((old_.isActive && old_.status == IndexReady) || (row.isActive && row.status == IndexReady))
               || !InReach(s, row)
            then after == s.subjects
            else Risen(s.subjects, after, row.subject, 1)
  {
    hide AdjustUsage, Charged, IndexCheck, UniqueIndex, Bump;
    BumpIsRise(s.subjects, row.subject, 0);
    BumpIsRise(s.subjects, row.subject, 1);
    NoRise(s.subjects, Bump(s.subjects, row.subject, 0), row.subject);
  }

  lemma DropIndexMoves(s: Db, id: Id)
    requires Attempt(s, DropIndex(id)).Some?
    ensures id in s.indexes
    ensures var old_, after := s.indexes[id], Attempt(s, DropIndex(id)).value.subjects;
            if old_.isActive && old_.status == IndexReady && InReach(s, old_)
            then Risen(s.subjects, after, old_.subject, 1) else after == s.subjects
  {
    hide AdjustUsage, Bump;
    BumpIsRise(s.subjects, s.indexes[id].subject, 0);
    BumpIsRise(s.subjects, s.indexes[id].subject, 1);
    NoRise(s.subjects, Bump(s.subjects, s.indexes[id].subject, 0), s.indexes[id].subject);
  }

  function PublishedOf(contents: map<Id, Content>, document: Id): set<Id> {
    set c | c in contents && contents[c].document == document && Published(contents[c])
  }

  lemma DropDocumentMoves(s: Db, id: Id)
    requires Attempt(s, DropDocument(id)).Some?
    ensures id in s.documents
    ensures Risen(s.subjects, Attempt(s, DropDocument(id)).value.subjects, s.documents[id].subject, |PublishedOf(s.contents, id)|)
  {
    hide AdjustUsage, Charged, Bump;
    assert PublishedOf(s.contents, id) == LiveContents(s.contents, id);
    BumpIsRise(s.subjects, s.documents[id].subject, |PublishedOf(s.contents, id)|);
  }

  /** A Subject's own row: the stamp it is given, or one more than it had where a space changes and that is greater. */
  lemma EditSubjectMoves(s: Db, id: Id, row: Subject)
    requires Attempt(s, EditSubject(id, row)).Some?
    ensures id in s.subjects && row.corpusRevision >= s.subjects[id].corpusRevision
    ensures var old_, after := s.subjects[id], Attempt(s, EditSubject(id, row)).value.subjects;
            && after == s.subjects[id := after[id]]
            && after[id] == row.(corpusRevision := after[id].corpusRevision)
            && (if (row.activeSpace == old_.activeSpace && row.stagedSpace == old_.stagedSpace) || row.corpusRevision > old_.corpusRevision
                then after[id].corpusRevision == row.corpusRevision
                else after[id].corpusRevision == old_.corpusRevision + 1)
  {
    hide SubjectCheck, SpaceKnown;
  }

  lemma {:induction false} DocumentsLeaveOthers(s: Db, order: seq<Id>, subject: Id)
    requires DeleteDocuments(s, order).Some? && subject in s.subjects
    requires forall d :: d in order && d in s.documents ==> s.documents[d].subject != subject
    ensures subject in DeleteDocuments(s, order).value.subjects
    ensures DeleteDocuments(s, order).value.subjects[subject] == s.subjects[subject]
    decreases |order|
  {
    if order != [] {
      assert Attempt(s, DropDocument(order[0])) == DeleteDocument(s, order[0]);
      DropDocumentMoves(s, order[0]);
      DropDocumentLeaves(s, order[0]);
      hide DeleteDocument;
      DocumentsLeaveOthers(DeleteDocument(s, order[0]).value, order[1..], subject);
    }
  }

  lemma DropDocumentLeaves(s: Db, id: Id)
    requires DeleteDocument(s, id).Some?
    ensures DeleteDocument(s, id).value.documents == s.documents - {id}
  {
    hide AdjustUsage, Charged, Bump, LiveContents;
  }

  lemma DropSubjectMoves(s: Db, id: Id, order: seq<Id>, subject: Id)
    requires Attempt(s, DropSubject(id, order)).Some? && subject in s.subjects && subject != id
    ensures subject in Attempt(s, DropSubject(id, order)).value.subjects
    ensures Attempt(s, DropSubject(id, order)).value.subjects[subject] == s.subjects[subject]
  {
    hide DeleteDocuments;
    DocumentsLeaveOthers(s, order, subject);
  }

  // All statements

  /** By how much a statement moves a Subject's stamp, read off the columns; edits of the Subject itself aside. */
  ghost function Moves(s: Db, q: Statement, subject: Id): nat {
    match q
    case EditContent(id, row) =>
      if id in s.contents && row.subject == subject && (Published(s.contents[id]) || Published(row))
         && (row.status, row.isActive, row.reviewedAt, row.reviewedBy, row.publishedAt)
            != (s.contents[id].status, s.contents[id].isActive, s.contents[id].reviewedAt, s.contents[id].reviewedBy, s.contents[id].publishedAt)
      then 1 else 0
    case DropContent(id) => if id in s.contents && s.contents[id].subject == subject && Published(s.contents[id]) then 1 else 0
    case EditIndex(id, row) =>
      if id in s.indexes && row.subject == subject && InReach(s, row)
         && (row.status, row.isActive) != (s.indexes[id].status, s.indexes[id].isActive)
         && ((s.indexes[id].isActive && s.indexes[id].status == IndexReady) || (row.isActive && row.status == IndexReady))
      then 1 else 0
    case DropIndex(id) =>
      if id in s.indexes && s.indexes[id].subject == subject && InReach(s, s.indexes[id])
         && s.indexes[id].isActive && s.indexes[id].status == IndexReady
      then 1 else 0
    case DropDocument(id) => if id in s.documents && s.documents[id].subject == subject then |PublishedOf(s.contents, id)| else 0
    case _ => 0
  }

  ghost predicate Moved(s: Db, t: Db, subject: Id, n: nat) {
    && subject in s.subjects && subject in t.subjects
    && t.subjects[subject] == s.subjects[subject].(corpusRevision := s.subjects[subject].corpusRevision + n)
  }

  lemma RisenMoves(s: Db, t: Db, at: Id, n: nat, subject: Id)
    requires Risen(s.subjects, t.subjects, at, n) && subject in s.subjects
    ensures Moved(s, t, subject, if subject == at then n else 0)
  {
  }

  lemma UnmovedIsMoved(s: Db, t: Db, subject: Id)
    requires t.subjects == s.subjects && subject in s.subjects
    ensures Moved(s, t, subject, 0)
  {
  }

  lemma BumpingMoves(s: Db, q: Statement, subject: Id)
    requires Attempt(s, q).Some? && subject in s.subjects && Bumps(q)
    ensures Moved(s, Attempt(s, q).value, subject, Moves(s, q, subject))
  {
    hide Attempt, Published, InReach, PublishedOf, Risen, Moved;
    var t := Attempt(s, q).value;
    if t.subjects == s.subjects {
      UnmovedIsMoved(s, t, subject);
    }
    forall at, n: nat | Risen(s.subjects, t.subjects, at, n) ensures Moved(s, t, subject, if subject == at then n else 0) {
      RisenMoves(s, t, at, n, subject);
    }
    match q {
      case EditContent(id, row) => EditContentMoves(s, id, row);
      case DropContent(id) => DropContentMoves(s, id);
      case EditIndex(id, row) => EditIndexMoves(s, id, row);
      case DropIndex(id) => DropIndexMoves(s, id);
      case DropDocument(id) => DropDocumentMoves(s, id);
    }
  }

  lemma OwnerMovesNothing(s: Db, q: Statement, subject: Id)
    requires Attempt(s, q).Some? && subject in s.subjects && OnOwner(q)
    requires q.EditSubject? ==> q.id != subject
    ensures Moved(s, Attempt(s, q).value, subject, 0)
  {
    hide AdjustUsage, DocumentCheck, SubjectCheck, SpaceKnown;
    hide InsertContent, UpdateContent, InsertPage, UpdatePage, DeletePage, InsertIndex;
    hide DeleteContent, UpdateIndex, DeleteIndex, DeleteDocument, DeleteSubject, InsertJob, UpdateJob, DeleteJob, InsertChunk, UpdateChunk, DeleteChunk;
  }

  /** Every statement but an edit or the deletion of the Subject itself leaves its row alone, the stamp apart, which moves by just so much. */
  lemma StampMoves(s: Db, q: Statement, subject: Id)
    requires subject in s.subjects && Attempt(s, q).Some?
    requires q.EditSubject? || q.DropSubject? ==> q.id != subject
    ensures Moved(s, Attempt(s, q).value, subject, Moves(s, q, subject))
  {
    hide Attempt;
    if Bumps(q) {
      BumpingMoves(s, q, subject);
    } else if q.DropSubject? {
      DropSubjectMoves(s, q.id, q.order, subject);
    } else if OnOwner(q) {
      OwnerMovesNothing(s, q, subject);
    } else if OnCapture(q) {
      CaptureLeavesChunks(s, q);
    } else if OnChunk(q) {
      ChunkStatementEffect(s, q);
    } else {
      JobStatementEffect(s, q);
    }
  }

  // Runs

  ghost predicate LeavesSubject(qs: seq<Statement>, subject: Id) {
    forall i :: 0 <= i < |qs| && (qs[i].EditSubject? || qs[i].DropSubject?) ==> qs[i].id != subject
  }

  /** What the admitted statements of a run move a stamp by. */
  ghost function MovesOf(start: seq<Statement>, more: seq<Statement>, subject: Id): nat
    decreases |more|
  {
    if more == [] then 0 else
      var n := |more| - 1;
      var s := Run(EMPTY_DB, start + more[..n]);
      MovesOf(start, more[..n], subject) + (if Attempt(s, more[n]).Some? then Moves(s, more[n], subject) else 0)
  }

  /**
   * Over any run that does not edit the Subject itself, the stamp counts: it rises by exactly one for each
   * admitted change of published content or of an index in its reach, and for nothing else.
   */
  lemma {:induction false} StampCounts(start: seq<Statement>, more: seq<Statement>, subject: Id)
    requires subject in Run(EMPTY_DB, start).subjects && LeavesSubject(more, subject)
    ensures Moved(Run(EMPTY_DB, start), Run(EMPTY_DB, start + more), subject, MovesOf(start, more, subject))
    decreases |more|
  {
    hide Attempt, Moves;
    if more == [] {
      assert start + more == start;
    } else {
      var n := |more| - 1;
      var s := Run(EMPTY_DB, start + more[..n]);
      StampCounts(start, more[..n], subject);
      assert (start + more)[..|start + more| - 1] == start + more[..n];
      if Attempt(s, more[n]).Some? {
        StampMoves(s, more[n], subject);
      }
    }
  }
}
