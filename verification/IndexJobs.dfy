/** Index jobs always run down: bounded status changes, one attempt per claim, fixed claims, frozen endings. */
module IndexJobs {
  import opened Prelude
  import opened KnowledgeTables
  import opened KnowledgeStatements
  import opened KnowledgeEffects
  import opened KnowledgeInvariants
  import opened KnowledgeRuns

  /** Statements on other rows leave the jobs alone. */
  lemma JobsUntouched(s: Db, q: Statement)
    requires Attempt(s, q).Some? && !OnJob(q) && !Cascades(q)
    ensures Attempt(s, q).value.jobs == s.jobs
  {
    hide Attempt;
    if OnOwner(q) {
      OwnerStatementEffect(s, q);
    } else if OnContent(q) {
      ContentStatementEffect(s, q);
    } else if OnChunk(q) {
      ChunkStatementEffect(s, q);
    } else {
      IndexStatementEffect(s, q);
    }
  }

  /** A cascade only takes jobs away. */
  lemma CascadeTakesJobs(s: Db, q: Statement, j: Id)
    requires Attempt(s, q).Some? && Cascades(q) && j in Attempt(s, q).value.jobs
    ensures j in s.jobs && Attempt(s, q).value.jobs[j] == s.jobs[j]
  {
    hide AdjustUsage, Charged, ContentCheck, IndexCheck, ChunkCheck, PageCheck, DocumentCheck, SubjectCheck, JobCheck, JobGuard;
    hide UniqueContent, UniqueIndex, UniqueJob, HasReadyIndex, IndexBump, ContentBump, Exposed, Utf8Length, ChunkBytes, Bump;
    hide ContentsOf, IndexesOf, IndexesOfContent, LiveContents, SameContentIdentity, SameIndexIdentity, DeleteSubject, ResultReady;
    hide InsertContent, UpdateContent, InsertPage, UpdatePage, DeletePage, InsertIndex, UpdateIndex, InsertChunk, UpdateChunk;
    hide DeleteChunk, InsertJob, UpdateJob, DeleteJob;
    if q.DropSubject? {
      SubjectKeepsJob(s, q.id, q.order, j);
    }
  }

  /** A statement leaves a job as it is, deletes it, or is the one that edits it under the job guard. */
  lemma JobMoves(s: Db, q: Statement, j: Id)
    requires j in Execute(s, q).jobs && (j in s.jobs ==> Execute(s, q).jobs[j] != s.jobs[j])
    ensures j in s.jobs ==> q.EditJob? && q.id == j && JobGuard(s.jobs[j], q.job) && JobCheck(q.job) && Execute(s, q).jobs[j] == q.job
    ensures j !in s.jobs ==> Execute(s, q).jobs[j].status == Queued && Execute(s, q).jobs[j].attempts == 0
  {
    hide InsertContent, UpdateContent, DeleteContent, InsertPage, UpdatePage, DeletePage, DeleteDocument, DeleteSubject;
    hide InsertIndex, UpdateIndex, DeleteIndex, InsertChunk, UpdateChunk, DeleteChunk, JobCheck, JobGuard, UniqueJob, ResultReady;
    if Attempt(s, q).Some? {
      if Cascades(q) {
        CascadeTakesJobs(s, q, j);
      } else if !OnJob(q) {
        JobsUntouched(s, q);
      }
    }
  }

  lemma SubjectKeepsJob(s: Db, id: Id, order: seq<Id>, j: Id)
    ensures var r := DeleteSubject(s, id, order); r.Some? && j in r.value.jobs ==> j in s.jobs && r.value.jobs[j] == s.jobs[j]
  {
    hide DeleteDocuments;
    if DeleteDocuments(s, order).Some? {
      DocumentsKeepJob(s, order, j);
    }
  }

  lemma {:induction false} DocumentsKeepJob(s: Db, order: seq<Id>, j: Id)
    requires DeleteDocuments(s, order).Some?
    ensures j in DeleteDocuments(s, order).value.jobs ==> j in s.jobs && DeleteDocuments(s, order).value.jobs[j] == s.jobs[j]
    decreases |order|
  {
    hide AdjustUsage, Charged, Bump, LiveContents;
    if order != [] {
      DocumentsKeepJob(DeleteDocument(s, order[0]).value, order[1..], j);
    }
  }

  // Counting

  /** Status changes of a job since it was last added, along a run. */
  ghost function Changes(qs: seq<Statement>, j: Id): nat {
    if qs == [] then 0 else
      var n := |qs| - 1;
      var before, after := Run(EMPTY_DB, qs[..n]), Run(EMPTY_DB, qs);
      if j !in before.jobs || j !in after.jobs then 0 else
        Changes(qs[..n], j) + (if after.jobs[j].status != before.jobs[j].status then 1 else 0)
  }

  /** Claims of a job since it was last added: changes from queued to running. */
  ghost function Claims(qs: seq<Statement>, j: Id): nat {
    if qs == [] then 0 else
      var n := |qs| - 1;
      var before, after := Run(EMPTY_DB, qs[..n]), Run(EMPTY_DB, qs);
      if j !in before.jobs || j !in after.jobs then 0 else
        Claims(qs[..n], j) + (if before.jobs[j].status == Queued && after.jobs[j].status == Running then 1 else 0)
  }

  /** How many status changes a job in this state can have behind it. */
  function Spent(row: Job): int {
    2 * row.attempts + (if row.status == Queued then 0 else if row.status == Running then -1 else 1)
  }

  /** Every admitted edit that changes the status pays for it, and exactly the claims raise the attempts. */
  lemma GuardPays(old_: Job, row: Job)
    requires JobGuard(old_, row)
    ensures Spent(row) >= Spent(old_) + (if row.status != old_.status then 1 else 0)
    ensures row.attempts == old_.attempts + (if old_.status == Queued && row.status == Running then 1 else 0)
  {
  }

  lemma {:induction false} ChangesAreSpent(qs: seq<Statement>, j: Id)
    requires j in Run(EMPTY_DB, qs).jobs
    ensures Changes(qs, j) <= Spent(Run(EMPTY_DB, qs).jobs[j])
    ensures Claims(qs, j) == Run(EMPTY_DB, qs).jobs[j].attempts
    decreases |qs|
  {
    hide Execute, JobGuard, Spent, JobCheck;
    if qs != [] {
      var n := |qs| - 1;
      var before, after := Run(EMPTY_DB, qs[..n]), Run(EMPTY_DB, qs);
      assert after == Execute(before, qs[n]);
      if j in before.jobs {
        ChangesAreSpent(qs[..n], j);
        if after.jobs[j] != before.jobs[j] {
          JobMoves(before, qs[n], j);
          GuardPays(before.jobs[j], after.jobs[j]);
        }
      } else {
        JobMoves(before, qs[n], j);
        FreshJobSpentNothing(after.jobs[j]);
      }
    }
  }

  lemma FreshJobSpentNothing(row: Job)
    requires row.status == Queued && row.attempts == 0
    ensures Spent(row) == 0
  {
  }

  /** Whatever happens to a job, it changes status at most `2 * maxAttempts + 1` times, and each claim is one attempt. */
  lemma IndexJobsRunDown(qs: seq<Statement>, j: Id)
    requires j in Run(EMPTY_DB, qs).jobs
    ensures var row := Run(EMPTY_DB, qs).jobs[j];
            && Changes(qs, j) <= 2 * row.maxAttempts + 1
            && Claims(qs, j) == row.attempts <= row.maxAttempts
  {
    hide Run, Refs, Measures, Counters, Changes, Claims;
    ChangesAreSpent(qs, j);
    ReachableInv(qs);
    JobsAreChecked(Run(EMPTY_DB, qs), j);
  }

  lemma JobsAreChecked(s: Db, j: Id)
    requires Inv(s) && j in s.jobs
    ensures JobCheck(s.jobs[j])
    ensures s.jobs[j].status == JobCompleted ==> s.jobs[j].index in s.indexes && s.indexes[s.jobs[j].index].status == IndexReady
  {
    hide Measures, Counters, JobCheck;
    assert JobRef(s.indexes, s.jobs[j]);
  }

  // Along a stretch of a run

  ghost predicate Present(start: seq<Statement>, more: seq<Statement>, j: Id) {
    forall i :: 0 <= i <= |more| ==> j in Run(EMPTY_DB, start + more[..i]).jobs
  }

  ghost predicate AllRunning(start: seq<Statement>, more: seq<Statement>, j: Id) {
    forall i :: 0 <= i <= |more| ==>
      j in Run(EMPTY_DB, start + more[..i]).jobs && Run(EMPTY_DB, start + more[..i]).jobs[j].status == Running
  }

  lemma OneMore(start: seq<Statement>, more: seq<Statement>)
    requires more != []
    ensures Run(EMPTY_DB, start + more)
            == Execute(Run(EMPTY_DB, start + more[..|more| - 1]), more[|more| - 1])
    ensures start + more[..|more|] == start + more
  {
    hide Execute;
    assert (start + more)[..|start + more| - 1] == start + more[..|more| - 1];
  }

  /** While a job keeps running it keeps its worker and its claim token. */
  lemma {:induction false} ClaimIsFixed(start: seq<Statement>, more: seq<Statement>, j: Id)
    requires AllRunning(start, more, j)
    ensures var a, b := Run(EMPTY_DB, start), Run(EMPTY_DB, start + more);
            j in a.jobs && j in b.jobs && a.jobs[j].claimToken == b.jobs[j].claimToken && a.jobs[j].worker == b.jobs[j].worker
    decreases |more|
  {
    hide Execute, Run, JobCheck;
    if more == [] {
      assert start + more == start && more[..0] == more;
    } else {
      var n := |more| - 1;
      forall i | 0 <= i <= n ensures more[..n][..i] == more[..i] {
      }
      ClaimIsFixed(start, more[..n], j);
      OneMore(start, more);
      var mid, end := Run(EMPTY_DB, start + more[..n]), Run(EMPTY_DB, start + more);
      assert mid.jobs[j].status == Running && end.jobs[j].status == Running by {
        assert more[..n + 1] == more;
      }
      if end.jobs[j] != mid.jobs[j] {
        JobMoves(mid, more[n], j);
      }
    }
  }

  /** A job that has ended stays exactly as it is until it is deleted. */
  lemma {:induction false} EndedJobIsFrozen(start: seq<Statement>, more: seq<Statement>, j: Id)
    requires Present(start, more, j) && j in Run(EMPTY_DB, start).jobs && Run(EMPTY_DB, start).jobs[j].Terminal()
    ensures j in Run(EMPTY_DB, start + more).jobs && Run(EMPTY_DB, start + more).jobs[j] == Run(EMPTY_DB, start).jobs[j]
    decreases |more|
  {
    hide Execute, Run, JobCheck;
    if more == [] {
      assert start + more == start;
    } else {
      var n := |more| - 1;
      forall i | 0 <= i <= n ensures more[..n][..i] == more[..i] {
      }
      EndedJobIsFrozen(start, more[..n], j);
      OneMore(start, more);
      var mid, end := Run(EMPTY_DB, start + more[..n]), Run(EMPTY_DB, start + more);
      assert j in end.jobs by {
        assert more[..n + 1] == more;
      }
      if end.jobs[j] != mid.jobs[j] {
        JobMoves(mid, more[n], j);
        assert false;
      }
    }
  }

  /** From its completion until it is deleted, a completed job has a ready index to show for it. */
  lemma CompletedJobHasReadyIndex(start: seq<Statement>, more: seq<Statement>, j: Id)
    requires Present(start, more, j) && j in Run(EMPTY_DB, start).jobs && Run(EMPTY_DB, start).jobs[j].status == JobCompleted
    ensures var s := Run(EMPTY_DB, start + more);
            && j in s.jobs && s.jobs[j].status == JobCompleted
            && s.jobs[j].index in s.indexes && s.indexes[s.jobs[j].index].status == IndexReady
  {
    hide Run, Inv, Present;
    EndedJobIsFrozen(start, more, j);
    ReachableInv(start + more);
    JobsAreChecked(Run(EMPTY_DB, start + more), j);
  }
}
