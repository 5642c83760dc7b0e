/**
 * Provider spending of an Ask job: per retry epoch at most one embedding request and one judgment request
 * are recorded, over any run, and evidence is admitted only on a judgment that is known to have succeeded.
 */
module AskRequests {
  import opened Prelude
  import opened MapSums
  import opened KnowledgeTables
  import opened KnowledgeStatements
  import opened AskTables
  import opened AskStatements

  /** Stages belong to an epoch their job has reached, and the remote ones are unique in it. */
  ghost predicate StageHolds(jobs: map<Id, AskJob>, row: Stage) {
    StageCheck(row) && row.job in jobs && row.retry <= jobs[row.job].retries
  }

  ghost predicate StagesHold(jobs: map<Id, AskJob>, stages: map<Id, Stage>) {
    forall t :: t in stages ==> StageHolds(jobs, stages[t])
  }

  predicate SameRemote(a: Stage, b: Stage) {
    a.kind != Retrieval && (a.job, a.retry, a.kind) == (b.job, b.retry, b.kind)
  }

  ghost predicate RemoteOnce(stages: map<Id, Stage>) {
    forall t, u :: t in stages && u in stages && t != u ==> !SameRemote(stages[t], stages[u])
  }

  ghost predicate RetriesInRange(jobs: map<Id, AskJob>) {
    forall j :: j in jobs ==> 0 <= jobs[j].retries <= 10
  }

  ghost predicate StageInv(w: World) {
    StagesHold(w.jobs, w.stages) && RemoteOnce(w.stages) && RetriesInRange(w.jobs)
  }

  // Steps

  /** Stages only ever disappear, and no job loses an epoch: every step but the two that write a stage. */
  lemma FewerStages(w: World, t: World)
    requires StageInv(w) && RetriesInRange(t.jobs)
    requires forall u :: u in t.stages ==> u in w.stages && t.stages[u] == w.stages[u] && t.stages[u].job in t.jobs
    requires forall j :: j in w.jobs && j in t.jobs ==> w.jobs[j].retries <= t.jobs[j].retries
    ensures StageInv(t)
  {
    hide StageCheck;
    forall u | u in t.stages ensures StageHolds(t.jobs, t.stages[u]) {
      assert StageHolds(w.jobs, w.stages[u]);
    }
  }

  lemma StageStepKeepsStages(w: World, id: Id, row: Stage)
    requires StageInv(w) && StageGuard(w, id, row)
    ensures StageInv(w.(stages := w.stages[id := row]))
  {
    hide StageCheck;
  }

  lemma JobStepKeepsStages(w: World, id: Id, row: AskJob)
    requires StageInv(w) && 0 <= row.retries <= 10 && (id in w.jobs ==> w.jobs[id].retries <= row.retries)
    ensures StageInv(w.(jobs := w.jobs[id := row]))
  {
    hide StageInv, StageHolds, RemoteOnce;
    var t := w.(jobs := w.jobs[id := row]);
    assert RetriesInRange(w.jobs) && StagesHold(w.jobs, w.stages) by {
      StageInvGives(w);
    }
    forall u | u in t.stages ensures t.stages[u].job in t.jobs {
      assert StageHolds(w.jobs, w.stages[u]);
      HeldStageHasJob(w.jobs, w.stages[u]);
    }
    FewerStages(w, t);
  }

  lemma StageInvGives(w: World)
    requires StageInv(w)
    ensures RetriesInRange(w.jobs) && StagesHold(w.jobs, w.stages)
  {
  }

  lemma HeldStageHasJob(jobs: map<Id, AskJob>, row: Stage)
    requires StageHolds(jobs, row)
    ensures row.job in jobs
  {
  }

  lemma OfferKeepsStages(w: World, step: Step)
    requires StageInv(w) && Offer(w, step).Some?
    ensures StageInv(Offer(w, step).value)
  {
    hide Attempt, StageGuard, CompletionGuard, UniqueAskJob, EvidenceGuard, EvidenceCheck, AskTransition, StagesHold, RemoteOnce;
    var t := Offer(w, step).value;
    match step {
      case AddStage(id, row) => StageStepKeepsStages(w, id, row);
      case EditStage(id, row) => StageStepKeepsStages(w, id, row);
      case AddAskJob(id, row) => JobStepKeepsStages(w, id, row);
      case EditAskJob(id, row) => JobStepKeepsStages(w, id, row);
      case _ => OtherStepKeepsStages(w, step);
    }
  }

  /** Cascades remove stages only together with their jobs. */
  lemma CascadeKeepsStages(w: World, t: World)
    requires StageInv(w) && t.stages == w.stages && RetriesInRange(t.jobs)
    requires forall j :: j in t.jobs ==> j in w.jobs && t.jobs[j] == w.jobs[j]
    ensures StageInv(Cascade(t))
  {
    hide StagesHold, RemoteOnce, RetriesInRange;
    var c := Cascade(t);
    forall j | j in c.jobs ensures j in w.jobs && c.jobs[j] == w.jobs[j] {
    }
    FewerJobs(w.jobs, c.jobs);
    FewerStages(w, c);
  }

  lemma FewerJobs(jobs: map<Id, AskJob>, fewer: map<Id, AskJob>)
    requires RetriesInRange(jobs) && forall j :: j in fewer ==> j in jobs && fewer[j] == jobs[j]
    ensures RetriesInRange(fewer)
  {
  }

  lemma OtherStepKeepsStages(w: World, step: Step)
    requires StageInv(w) && Offer(w, step).Some?
    requires !step.AddStage? && !step.EditStage? && !step.AddAskJob? && !step.EditAskJob?
    ensures StageInv(Offer(w, step).value)
  {
    hide Attempt, InsertEvidence, Cascade, StagesHold, RemoteOnce, RetriesInRange;
    match step {
      case Corpus(q) => CascadeKeepsStages(w, w.(db := Attempt(w.db, q).value));
      case DropQuestion(id) => CascadeKeepsStages(w, w.(questions := w.questions - {id}));
      case DropAskJob(id) =>
        FewerJobs(w.jobs, w.jobs - {id});
        CascadeKeepsStages(w, w.(jobs := w.jobs - {id}));
      case _ =>
        SameJobsFewerStages(w, step);
    }
  }

  lemma SameJobsFewerStages(w: World, step: Step)
    requires StageInv(w) && Offer(w, step).Some?
    requires step.SetReaders? || step.AddQuestion? || step.EditQuestion? || step.DropStage? || step.AddEvidence?
             || step.EditEvidence? || step.DropEvidence?
    ensures StageInv(Offer(w, step).value)
  {
    hide Attempt, Cascade, EvidenceGuard, EvidenceCheck, StageHolds, InsertAskJob, UpdateAskJob, InsertStage, UpdateStage;
    var t := Offer(w, step).value;
    forall u | u in t.stages ensures t.stages[u].job in t.jobs {
      assert StageHolds(w.jobs, w.stages[u]);
      HeldStageHasJob(w.jobs, w.stages[u]);
    }
    FewerStages(w, t);
  }

  lemma TakeKeepsStages(w: World, step: Step)
    requires StageInv(w)
    ensures StageInv(Take(w, step))
  {
    hide StageInv, Offer;
    if Offer(w, step).Some? {
      OfferKeepsStages(w, step);
    }
  }

  lemma {:induction false} ReachableStageInv(steps: seq<Step>)
    ensures StageInv(Reach(EMPTY_WORLD, steps))
    decreases |steps|
  {
    hide Take;
    if steps != [] {
      hide StageInv;
      ReachableStageInv(steps[..|steps| - 1]);
      TakeKeepsStages(Reach(EMPTY_WORLD, steps[..|steps| - 1]), steps[|steps| - 1]);
    }
  }

  // Counting requests

  /** Recorded provider requests of a job's epochs before `bound`. */
  ghost function RequestsBelow(stages: map<Id, Stage>, job: Id, bound: int): map<Id, int> {
    map t | t in stages && stages[t].job == job && stages[t].retry < bound :: stages[t].requests
  }

  ghost function EpochRequests(stages: map<Id, Stage>, job: Id, epoch: int): map<Id, int> {
    map t | t in stages && stages[t].job == job && stages[t].retry == epoch :: stages[t].requests
  }

  ghost function KindRequests(stages: map<Id, Stage>, job: Id, epoch: int, kind: StageKind): map<Id, int> {
    map t | t in stages && stages[t].job == job && stages[t].retry == epoch && stages[t].kind == kind :: stages[t].requests
  }

  lemma KindBound(jobs: map<Id, AskJob>, stages: map<Id, Stage>, job: Id, epoch: int, kind: StageKind)
    requires StagesHold(jobs, stages) && RemoteOnce(stages)
    ensures Total(KindRequests(stages, job, epoch, kind)) <= (if kind == Retrieval then 0 else 1)
  {
    var m := KindRequests(stages, job, epoch, kind);
    if m != map[] {
      var t :| t in m;
      assert StageHolds(jobs, stages[t]);
      TotalRemove(m, t);
      if kind == Retrieval {
        TotalNonPositive(m);
      } else {
        forall u | u in m ensures u == t {
          assert SameRemote(stages[t], stages[u]);
        }
        assert m - {t} == map[];
      }
    }
  }

  lemma EpochBound(jobs: map<Id, AskJob>, stages: map<Id, Stage>, job: Id, epoch: int)
    requires StagesHold(jobs, stages) && RemoteOnce(stages)
    ensures Total(EpochRequests(stages, job, epoch)) <= 2
  {
    hide StagesHold, RemoteOnce, Total;
    var e := KindRequests(stages, job, epoch, QueryEmbedding);
    var r := KindRequests(stages, job, epoch, Retrieval);
    var j := KindRequests(stages, job, epoch, SourceJudgment);
    var er := map t | t in stages && stages[t].job == job && stages[t].retry == epoch && stages[t].kind != SourceJudgment
      :: stages[t].requests;
    KindBound(jobs, stages, job, epoch, QueryEmbedding);
    KindBound(jobs, stages, job, epoch, Retrieval);
    KindBound(jobs, stages, job, epoch, SourceJudgment);
    TotalSplit(er, e, r);
    TotalSplit(EpochRequests(stages, job, epoch), er, j);
  }

  lemma EpochOnTop(stages: map<Id, Stage>, job: Id, epoch: int)
    ensures Total(RequestsBelow(stages, job, epoch + 1))
            == Total(RequestsBelow(stages, job, epoch)) + Total(EpochRequests(stages, job, epoch))
  {
    hide Total;
    TotalSplit(RequestsBelow(stages, job, epoch + 1), RequestsBelow(stages, job, epoch), EpochRequests(stages, job, epoch));
  }

  lemma {:induction false} RequestsBelowBound(jobs: map<Id, AskJob>, stages: map<Id, Stage>, job: Id, bound: nat)
    requires StagesHold(jobs, stages) && RemoteOnce(stages)
    ensures Total(RequestsBelow(stages, job, bound)) <= 2 * bound
    decreases bound
  {
    hide StagesHold, RemoteOnce, Total, RequestsBelow, EpochRequests;
    if bound == 0 {
      NothingBelowZero(jobs, stages, job);
    } else {
      RequestsBelowBound(jobs, stages, job, bound - 1);
      EpochBound(jobs, stages, job, bound - 1);
      EpochOnTop(stages, job, bound - 1);
    }
  }

  lemma NothingBelowZero(jobs: map<Id, AskJob>, stages: map<Id, Stage>, job: Id)
    requires StagesHold(jobs, stages)
    ensures Total(RequestsBelow(stages, job, 0)) == 0
  {
    forall t | t in stages && stages[t].job == job ensures stages[t].retry >= 0 {
      assert StageHolds(jobs, stages[t]);
    }
    assert RequestsBelow(stages, job, 0) == map[];
  }

  /** All recorded provider requests of a job. */
  ghost function Requests(stages: map<Id, Stage>, job: Id): map<Id, int> {
    map t | t in stages && stages[t].job == job :: stages[t].requests
  }

  /** After any run, a job has spent at most two recorded requests per retry epoch, so never more than 22. */
  lemma RequestsAreBounded(steps: seq<Step>, id: Id)
    requires id in Reach(EMPTY_WORLD, steps).jobs
    ensures var w := Reach(EMPTY_WORLD, steps);
            0 <= Total(Requests(w.stages, id)) <= 2 * (w.jobs[id].retries + 1) <= 22
  {
    hide Reach;
    var w := Reach(EMPTY_WORLD, steps);
    ReachableStageInv(steps);
    forall t | t in w.stages && w.stages[t].job == id ensures 0 <= w.stages[t].requests && w.stages[t].retry < w.jobs[id].retries + 1 {
      assert StageHolds(w.jobs, w.stages[t]);
    }
    assert Requests(w.stages, id) == RequestsBelow(w.stages, id, w.jobs[id].retries + 1);
    TotalNonNegative(Requests(w.stages, id));
    RequestsBelowBound(w.jobs, w.stages, id, w.jobs[id].retries + 1);
  }

  // Epochs close

  /** A stage of an epoch its job has left is never written again: a step keeps it as it is, deletes it, or moves it to the current epoch. */
  lemma ClosedEpochIsFrozen(w: World, step: Step, t: Id)
    requires StageInv(w) && t in w.stages && w.stages[t].retry < w.jobs[w.stages[t].job].retries
    requires t in Take(w, step).stages && Take(w, step).stages[t] != w.stages[t]
    ensures step.EditStage? && step.id == t
    ensures step.stage.job in w.jobs && step.stage.retry == w.jobs[step.stage.job].retries
    ensures step.stage.attempt == w.jobs[step.stage.job].attempts
  {
    hide Attempt, StageCheck, CompletionGuard, UniqueAskJob, EvidenceGuard, EvidenceCheck, AskJobGuard, AskJobCheck, UniqueStage, StageInv;
  }

  // Admission

  /**
   * Evidence is admitted only while its job runs, in the job's current epoch, and only on a judgment of that
   * same epoch and attempt that is complete, was asked exactly once, and is not uncertain.
   */
  lemma EvidenceIsJudged(w: World, key: EvidenceKey, row: Evidence, now: int)
    requires key !in w.evidence && key in Take(w, AddEvidence(key, row, now)).evidence
    ensures key.job in w.jobs && w.jobs[key.job].status == AskRunning && w.jobs[key.job].retries == row.retry
    ensures exists t :: t in w.stages && CleanJudgment(w.stages[t], key.job, row.retry, w.jobs[key.job].attempts)
  {
    hide Cited, MayRead, WindowIn, EvidenceCheck;
  }

  // One judgment per epoch

  predicate JudgmentOf(row: Stage, job: Id, retry: int) {
    row.job == job && row.retry == retry && row.kind == SourceJudgment
  }

  /** The stage is still there, as a judgment of this job and epoch. */
  predicate Stands(stages: map<Id, Stage>, t: Id, job: Id, retry: int) {
    t in stages && JudgmentOf(stages[t], job, retry)
  }

  /** A judgment is only ever relied on by admitting evidence, which finds it completed and certain and leaves all stages alone. */
  lemma NewRuling(w: World, step: Step, r: Ruling)
    requires r in Take(w, step).rulings && r !in w.rulings
    ensures step.AddEvidence? && Take(w, step).stages == w.stages && Stands(w.stages, r.stage, r.job, r.retry)
    ensures r.job in w.jobs && CleanJudgment(w.stages[r.stage], r.job, r.retry, w.jobs[r.job].attempts)
  {
    hide Attempt, Cited, MayRead, WindowIn, EvidenceCheck, AskJobCheck, AskJobGuard, CompletionGuard, UniqueAskJob, StageGuard;
  }

  /**
   * Evidence admitted later in an epoch rests on the same judgment as earlier evidence exactly when that
   * judgment still stands: a second one can only have come after the first was removed or given away.
   */
  lemma SameRuling(w: World, step: Step, r: Ruling, r': Ruling)
    requires StageInv(w) && r in w.rulings && r' in Take(w, step).rulings && r' !in w.rulings
    requires (r'.job, r'.retry) == (r.job, r.retry)
    ensures r'.stage == r.stage <==> Stands(w.stages, r.stage, r.job, r.retry)
  {
    hide Take, StagesHold, RetriesInRange;
    NewRuling(w, step, r');
    if Stands(w.stages, r.stage, r.job, r.retry) {
      assert r'.stage != r.stage ==> !SameRemote(w.stages[r.stage], w.stages[r'.stage]);
    }
  }

  /** No step of the run removes a judgment of this job and epoch or makes it something else. */
  ghost predicate JudgmentsStay(steps: seq<Step>, job: Id, retry: int) {
    forall i, t :: 0 <= i < |steps| && Stands(Reach(EMPTY_WORLD, steps[..i]).stages, t, job, retry) ==>
      Stands(Reach(EMPTY_WORLD, steps[..i + 1]).stages, t, job, retry)
  }

  lemma {:induction false} RulingsStand(steps: seq<Step>, job: Id, retry: int)
    requires JudgmentsStay(steps, job, retry)
    ensures var w := Reach(EMPTY_WORLD, steps);
            forall r :: r in w.rulings && r.job == job && r.retry == retry ==> Stands(w.stages, r.stage, job, retry)
    decreases |steps|
  {
    if steps != [] {
      hide Take, Stands;
      var n := |steps| - 1;
      forall i | 0 <= i <= n ensures steps[..n][..i] == steps[..i] {
      }
      RulingsStand(steps[..n], job, retry);
      var w, t := Reach(EMPTY_WORLD, steps[..n]), Reach(EMPTY_WORLD, steps);
      assert steps[..n + 1] == steps;
      forall r | r in t.rulings && r.job == job && r.retry == retry ensures Stands(t.stages, r.stage, job, retry) {
        if r !in w.rulings {
          NewRuling(w, steps[n], r);
        }
        assert Stands(w.stages, r.stage, job, retry);
      }
    }
  }

  /** As long as its judgments stay, all evidence ever admitted for a job in one epoch rests on one and the same judgment. */
  lemma OneJudgmentPerEpoch(steps: seq<Step>, r: Ruling, r': Ruling)
    requires r in Reach(EMPTY_WORLD, steps).rulings && r' in Reach(EMPTY_WORLD, steps).rulings
    requires (r'.job, r'.retry) == (r.job, r.retry) && JudgmentsStay(steps, r.job, r.retry)
    ensures r == r'
  {
    hide Reach, StagesHold, RetriesInRange;
    ReachableStageInv(steps);
    RulingsStand(steps, r.job, r.retry);
    var stages := Reach(EMPTY_WORLD, steps).stages;
    assert Stands(stages, r.stage, r.job, r.retry) && Stands(stages, r'.stage, r.job, r.retry);
    assert r.stage != r'.stage ==> !SameRemote(stages[r.stage], stages[r'.stage]);
  }
}
