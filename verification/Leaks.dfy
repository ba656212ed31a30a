/** What the leak history may name: objects of tasks that can no longer complete.  So an operator may delete
    every leaked object at any time. */
module Leaks {
  import opened Wrappers
  import opened Tables
  import opened ObjectKeys
  import opened Pipeline
  import opened Invariants
  import opened ApiCalls
  import opened WorkerEndings
  import opened Theorems
  import opened Lifecycle

  /** The task has failed, or is stranded, or the worker has given up on it. */
  predicate Doomed(s: State, t: nat) {
    && t in s.db.tasks
    && (s.db.tasks[t].status == Failed
        || (s.db.tasks[t].status == Running
            && (t in s.stuck || (CurrentTask(s.pc) == Some(t) && (s.pc.StepBroken? || Unwinding(s.pc))))))
  }

  ghost predicate OwnedByDoomed(s: State, key: string) {
    exists t :: t in s.db.tasks && Doomed(s, t) && Owner(key) == s.db.tasks[t].taskNo
  }

  ghost predicate LeaksDoomed(s: State) {
    forall key :: key in s.leak ==> OwnedByDoomed(s, key)
  }

  // ---------------------------------------------------------------- a doomed task stays doomed

  lemma GivenUpStaysDoomed(s: State, step: WorkerStep, t: nat)
    requires Inv(s) && WorkEnabled(s, step) && t in s.db.tasks && s.db.tasks[t].status == Running
    requires CurrentTask(s.pc) == Some(t) && (s.pc.StepBroken? || Unwinding(s.pc))
    ensures Doomed(ApplyWork(s, step), t)
  {
    hide RowsOk;
    hide TxsOk;
    hide Coherent;
    hide ObjectsOk;
    hide RiskOk;
    hide StuckOk;
    hide StepsAt;
    hide OwnedList;
    hide IsNextQueued;
    hide CanRecover;
    hide Lists;
    hide Keys;
    hide FindStep;
    hide AfterFailStep;
    hide AfterMarkFailed;
    match step
    case FailStep(ok) =>
      StepRowsOnly(s, ok);
      BrokenUnwinds(s, ok);
    case MarkFailed(ok, summary) =>
      MarksFailed(s, ok, summary);
      WorkStrands(s, step);
    case _ =>
  }

  lemma BrokenUnwinds(s: State, ok: bool)
    requires s.pc.StepBroken?
    ensures Unwinding(AfterFailStep(s, ok).pc) && AfterFailStep(s, ok).pc.job == s.pc.job
  {
    hide FinishStep;
    hide CurrentStep;
  }

  lemma RecoveryDooms(db: Db, summary: string, t: nat)
    requires t in db.tasks && db.tasks[t].status == Running
    ensures t in Recovered(db, summary).tasks && Recovered(db, summary).tasks[t].status == Failed
  {
    hide HasRunningTask;
    hide RecoveredSteps;
  }

  lemma DoomedStays(s: State, a: Action, t: nat)
    requires Inv(s) && StrandedRun(s) && Enabled(s, a) && Doomed(s, t)
    ensures t in Apply(s, a).db.tasks && Doomed(Apply(s, a), t)
    ensures Apply(s, a).db.tasks[t].taskNo == s.db.tasks[t].taskNo
  {
    hide RowsOk;
    hide TxsOk;
    hide Coherent;
    hide PcOk;
    hide ObjectsOk;
    hide RiskOk;
    hide StuckOk;
    hide ApiEnabled;
    hide ApplyApi;
    hide ApplyWork;
    hide IsNextQueued;
    hide CanRecover;
    hide Lists;
    hide Keys;
    ActionFollows(s, a, t);
    if s.db.tasks[t].status == Running {
      match a
      case Api(call) =>
        ApiMovesNoTask(s, call, t);
        ApiKeepsStuck(s, call);
        ApiLeavesWorker(s, call);
      case Work(step) => RunningStaysDoomed(s, step, t);
      case Crash =>
    }
  }

  lemma RunningStaysDoomed(s: State, step: WorkerStep, t: nat)
    requires Inv(s) && StrandedRun(s) && WorkEnabled(s, step) && Doomed(s, t) && s.db.tasks[t].status == Running
    ensures Doomed(ApplyWork(s, step), t)
  {
    hide RowsOk;
    hide TxsOk;
    hide Coherent;
    hide PcOk;
    hide ObjectsOk;
    hide RiskOk;
    hide StuckOk;
    hide WorkEnabled;
    if t !in s.stuck {
      hide ApplyWork;
      GivenUpStaysDoomed(s, step, t);
    } else if step.RecoverCommit? {
      hide Recovered;
      hide CleanupList;
      RecoveryDooms(s.db, step.summary, t);
    } else {
      hide ApplyWork;
      WorkMovesOnlyItsTask(s, step, t);
      WorkStrands(s, step);
    }
  }

  // ---------------------------------------------------------------- new leaks

  lemma RollBackLeaks(s: State, gone: bool, key: string)
    requires PcOk(s.db, s.pc) && WorkEnabled(s, RollBackOne(false, gone)) && key == s.pc.rest[|s.pc.rest| - 1]
    ensures OwnedByDoomed(ApplyWork(s, RollBackOne(false, gone)), key)
  {
    hide Owner;
    assert Doomed(ApplyWork(s, RollBackOne(false, gone)), s.pc.job.id);
  }

  lemma CleanUpLeaks(s: State, gone: bool, key: string)
    requires PcOk(s.db, s.pc) && WorkEnabled(s, CleanOne(false, gone)) && key == s.pc.pending[0].1
    ensures OwnedByDoomed(ApplyWork(s, CleanOne(false, gone)), key)
  {
    hide Owner;
    assert Doomed(ApplyWork(s, CleanOne(false, gone)), s.pc.pending[0].0);
  }

  lemma LandedLeaks(s: State, key: string)
    requires PcOk(s.db, s.pc) && WorkEnabled(s, Put(false, true)) && key == Keys(s.pc.arts)[|s.pc.puts|]
    ensures OwnedByDoomed(ApplyWork(s, Put(false, true)), key)
  {
    hide StepsAt;
    hide Owner;
    assert Doomed(ApplyWork(s, Put(false, true)), s.pc.job.id);
  }

  lemma CrashLeaks(s: State, key: string)
    requires Inv(s) && (key in Unrecorded(s) || key in PendingKeys(s.pc))
    ensures OwnedByDoomed(AfterCrash(s), key)
  {
    hide RowsOk;
    hide TxsOk;
    hide Coherent;
    hide ObjectsOk;
    hide RiskOk;
    hide StuckOk;
    hide StepsAt;
    hide Owner;
    hide Keys;
    hide OwnsArtifacts;
    if key in PendingKeys(s.pc) {
      var i :| 0 <= i < |s.pc.pending| && s.pc.pending[i].1 == key;
      assert Doomed(AfterCrash(s), s.pc.pending[i].0);
    } else {
      UploadsAreOwned(s.db, s.pc);
      var i :| 0 <= i < |Uploads(s.pc)| && Uploads(s.pc)[i] == key;
      assert Doomed(AfterCrash(s), s.pc.job.id);
    }
  }

  lemma NewLeakIsDoomed(s: State, a: Action, key: string)
    requires Inv(s) && Enabled(s, a) && key in Apply(s, a).leak && key !in s.leak
    ensures OwnedByDoomed(Apply(s, a), key)
  {
    hide Inv;
    hide ApiEnabled;
    hide ApplyApi;
    hide IsNextQueued;
    hide CanRecover;
    hide Lists;
    hide Keys;
    hide Unrecorded;
    hide OwnedByDoomed;
    hide FindStep;
    hide Recovered;
    hide CleanupList;
    hide Collected;
    LeakGrowth(s, a);
    WorkerIsOk(s);
    if a.Crash? {
      CrashLeaks(s, key);
    } else if a.step.RollBackOne? {
      RollBackLeaks(s, a.step.gone, key);
    } else if a.step.CleanOne? {
      CleanUpLeaks(s, a.step.gone, key);
    } else {
      LandedLeaks(s, key);
    }
  }

  // ---------------------------------------------------------------- over all runs

  lemma StepKeepsLeaksDoomed(s: State, a: Action)
    requires Inv(s) && StrandedRun(s) && Enabled(s, a) && LeaksDoomed(s)
    ensures LeaksDoomed(Apply(s, a))
  {
    hide Inv;
    hide StrandedRun;
    hide Enabled;
    hide Apply;
    hide Doomed;
    hide Owner;
    forall key | key in Apply(s, a).leak ensures OwnedByDoomed(Apply(s, a), key) {
      if key in s.leak {
        var t :| t in s.db.tasks && Doomed(s, t) && Owner(key) == s.db.tasks[t].taskNo;
        DoomedStays(s, a, t);
      } else {
        NewLeakIsDoomed(s, a, key);
      }
    }
  }

  lemma {:induction false} RunKeepsLeaksDoomed(run: seq<Action>)
    requires ValidRun(INIT, run)
    ensures Inv(Exec(INIT, run)) && LeaksDoomed(Exec(INIT, run))
    decreases |run|
  {
    hide Inv;
    hide Enabled;
    hide Apply;
    hide StrandedRun;
    RunKeepsStranded(run);
    if run != [] {
      hide LeaksDoomed;
      RunKeepsStranded(run[..|run| - 1]);
      RunKeepsLeaksDoomed(run[..|run| - 1]);
      StepKeepsLeaksDoomed(Exec(INIT, run[..|run| - 1]), run[|run| - 1]);
    }
  }

  /** No leaked key is ever the key of a completed task, so deleting all leaked objects takes nothing from
      anyone. */
  lemma LeaksAreNobodys(s: State)
    requires Reachable(s)
    ensures forall key :: key in s.leak ==> !CompletedKey(s.db, key)
    ensures forall t :: t in s.db.tasks && s.db.tasks[t].status == Completed ==>
      KeysPresent(s.objects - s.leak, s.db.tasks[t].artifacts)
  {
    hide ValidRun;
    hide Exec;
    hide TxsOk;
    hide Coherent;
    hide PcOk;
    hide RiskOk;
    hide StuckOk;
    hide RowsOk;
    hide Owner;
    hide Keys;
    var run :| ValidRun(INIT, run) && Exec(INIT, run) == s;
    RunKeepsLeaksDoomed(run);
    forall key, t | key in s.leak && t in s.db.tasks && s.db.tasks[t].status == Completed
      ensures key !in Keys(s.db.tasks[t].artifacts)
    {
      var u :| u in s.db.tasks && Doomed(s, u) && Owner(key) == s.db.tasks[u].taskNo;
      OthersKeys(s.db, t, u, key);
    }
  }

  lemma OthersKeys(db: Db, t: nat, u: nat, key: string)
    requires RowsOk(db) && t in db.tasks && u in db.tasks && t != u && Owner(key) == db.tasks[u].taskNo
    requires db.tasks[t].status == Completed
    ensures key !in Keys(db.tasks[t].artifacts)
  {
    hide Owner;
    hide RowOk;
    hide IsSourceKey;
    RowOwns(db, t);
  }
}
