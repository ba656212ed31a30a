/** Safety of the pipeline over all runs: any number of API calls, one worker, crashes anywhere. */
module Theorems {
  import opened Strategy
  import opened Tables
  import opened ObjectKeys
  import opened Pipeline
  import opened Invariants
  import opened ApiCalls
  import opened WorkerSteps
  import opened WorkerEndings

  // ---------------------------------------------------------------- the invariant over runs

  lemma StepKeepsInv(s: State, a: Action)
    requires Inv(s) && Enabled(s, a)
    ensures Inv(Apply(s, a))
  {
    hide Inv;
    hide ApiEnabled;
    hide WorkEnabled;
    hide ApplyApi;
    hide ApplyWork;
    match a
    case Api(call) => ApiKeepsInv(s, call);
    case Work(step) => WorkKeepsInv(s, step);
    case Crash => CrashKeepsInv(s);
  }

  lemma {:induction false} RunsKeepInv(s: State, run: seq<Action>)
    requires Inv(s) && ValidRun(s, run)
    ensures Inv(Exec(s, run))
    decreases |run|
  {
    hide Inv;
    hide Enabled;
    hide Apply;
    if run != [] {
      var before := run[..|run| - 1];
      RunsKeepInv(s, before);
      StepKeepsInv(Exec(s, before), run[|run| - 1]);
    }
  }

  lemma Extend(s: State, run: seq<Action>, a: Action)
    requires ValidRun(s, run) && Enabled(Exec(s, run), a)
    ensures ValidRun(s, run + [a]) && Exec(s, run + [a]) == Apply(Exec(s, run), a)
  {
    hide Enabled;
    hide Apply;
    assert (run + [a])[..|run|] == run;
  }

  lemma InitInv()
    ensures Inv(INIT)
  {
  }

  lemma ReachedBy(run: seq<Action>)
    requires ValidRun(INIT, run)
    ensures Reachable(Exec(INIT, run))
  {
    hide ValidRun;
    hide Exec;
  }

  lemma ReachableInv(s: State)
    requires Reachable(s)
    ensures Inv(s)
  {
    hide Inv;
    hide ValidRun;
    hide Exec;
    var run :| ValidRun(INIT, run) && Exec(INIT, run) == s;
    InitInv();
    RunsKeepInv(INIT, run);
  }

  // ---------------------------------------------------------------- how task rows move

  /** The frozen part of a row stays; its status only moves queued, running, then completed or failed; and
      a completed or failed row never changes again. */
  predicate Follows(row: TaskRow, row': TaskRow) {
    && row'.taskNo == row.taskNo && row'.appId == row.appId && row'.createdAt == row.createdAt
    && row'.strategyName == row.strategyName && row'.snapshot == row.snapshot
    && (row' == row
        || (row.status == Queued && row'.status == Running)
        || (row.status == Running && row'.status != Queued))
  }

  lemma ApiMovesNoTask(s: State, call: ApiCall, t: nat)
    requires TxsOk(s.db, s.txs) && ApiEnabled(s, call) && t in s.db.tasks
    ensures t in ApplyApi(s, call).db.tasks && ApplyApi(s, call).db.tasks[t] == s.db.tasks[t]
  {
    hide TxsOk;
    hide HasActiveTask;
    hide TaskNoFree;
    hide IsTaskNo;
    hide IsSourceKey;
    if call.TxCommit? {
      TxIsOk(s.db, s.txs, call.app);
    }
  }

  lemma StepRowsOnly(s: State, ok: bool)
    ensures s.pc.BeforeStep? ==> AfterBeginStep(s, ok).db.tasks == s.db.tasks
    ensures s.pc.StepDone? ==> AfterEndStep(s, ok).db.tasks == s.db.tasks
    ensures s.pc.StepBroken? ==> AfterFailStep(s, ok).db.tasks == s.db.tasks
  {
    hide IndexOfStep;
    hide PriorIncomplete;
  }

  /** The calls that write a task row, one row at a time. */
  predicate WritesTask(step: WorkerStep) {
    step.MarkRunning? || step.Record? || step.Complete? || step.MarkFailed?
  }

  lemma WorkLeavesTasks(s: State, step: WorkerStep)
    requires WorkEnabled(s, step) && !step.RecoverCommit? && !WritesTask(step)
    ensures ApplyWork(s, step).db.tasks == s.db.tasks
  {
    hide IsNextQueued;
    hide CanRecover;
    hide Lists;
    hide Keys;
    hide Unwind;
    hide Collected;
    hide AfterBeginStep;
    hide AfterEndStep;
    hide AfterFailStep;
    match step
    case BeginStep(ok) => StepRowsOnly(s, ok);
    case EndStep(ok) => StepRowsOnly(s, ok);
    case FailStep(ok) => StepRowsOnly(s, ok);
    case _ =>
  }

  lemma WorkLeavesOtherTasks(s: State, step: WorkerStep, t: nat)
    requires WorkEnabled(s, step) && WritesTask(step) && t in s.db.tasks && t != s.pc.job.id
    ensures t in ApplyWork(s, step).db.tasks && ApplyWork(s, step).db.tasks[t] == s.db.tasks[t]
  {
    hide Keys;
    hide Unwind;
    hide ResolveRiskLevel;
  }

  lemma WorkFollows(s: State, step: WorkerStep, t: nat)
    requires PcOk(s.db, s.pc) && WorkEnabled(s, step) && t in s.db.tasks
    ensures t in ApplyWork(s, step).db.tasks && Follows(s.db.tasks[t], ApplyWork(s, step).db.tasks[t])
  {
    hide IsNextQueued;
    hide CanRecover;
    hide Lists;
    hide StepsAt;
    hide OwnsArtifacts;
    hide OwnedList;
    hide Keys;
    hide PendingOk;
    hide AfterBeginStep;
    hide AfterEndStep;
    hide AfterFailStep;
    hide RecoveredSteps;
    hide HasRunningTask;
    hide CleanupList;
    match step
    case BeginStep(ok) => StepRowsOnly(s, ok);
    case EndStep(ok) => StepRowsOnly(s, ok);
    case FailStep(ok) => StepRowsOnly(s, ok);
    case _ =>
  }

  /** What one action can do to a task row. */
  lemma ActionFollows(s: State, a: Action, t: nat)
    requires Inv(s) && Enabled(s, a) && t in s.db.tasks
    ensures t in Apply(s, a).db.tasks && Follows(s.db.tasks[t], Apply(s, a).db.tasks[t])
  {
    hide TxsOk;
    hide RowsOk;
    hide Coherent;
    hide PcOk;
    hide ObjectsOk;
    hide RiskOk;
    hide StuckOk;
    hide ApiEnabled;
    hide WorkEnabled;
    hide ApplyApi;
    hide ApplyWork;
    match a
    case Api(call) => ApiMovesNoTask(s, call, t);
    case Work(step) => WorkFollows(s, step, t);
    case Crash =>
  }

  /** Follows, over any number of steps. */
  predicate Evolves(row: TaskRow, row': TaskRow) {
    && row'.taskNo == row.taskNo && row'.appId == row.appId && row'.createdAt == row.createdAt
    && row'.strategyName == row.strategyName && row'.snapshot == row.snapshot
    && (row' == row || row.status == Queued || (row.status == Running && row'.status != Queued))
  }

  /** Over any run: the strategy snapshot a task was created with never changes, whatever happens to the
      library; its status never moves back; a completed or failed row stays as it is. */
  lemma {:induction false} RunEvolves(s: State, run: seq<Action>, t: nat)
    requires Inv(s) && ValidRun(s, run) && t in s.db.tasks
    ensures t in Exec(s, run).db.tasks && Evolves(s.db.tasks[t], Exec(s, run).db.tasks[t])
    decreases |run|
  {
    hide Inv;
    hide Enabled;
    hide Apply;
    if run != [] {
      var before := run[..|run| - 1];
      RunEvolves(s, before, t);
      RunsKeepInv(s, before);
      ActionFollows(Exec(s, before), run[|run| - 1], t);
    }
  }

  // ---------------------------------------------------------------- artifacts of completed tasks

  /** In every reachable state a completed task's recorded objects exist, and the unsigned one is real. */
  lemma CompletedArtifactsExist(s: State, t: nat)
    requires Reachable(s) && t in s.db.tasks && s.db.tasks[t].status == Completed
    ensures var arts := s.db.tasks[t].artifacts;
      && arts.unsignedKey != "" && arts.unsignedSize > 0
      && arts.unsignedKey in s.objects
      && (arts.signedKey != "" ==> arts.signedKey in s.objects && arts.signedSize > 0)
  {
    hide Reachable;
    hide TxsOk;
    hide Coherent;
    hide PcOk;
    hide RiskOk;
    hide Owner;
    hide IsTaskNo;
    ReachableInv(s);
    RowIsOk(s.db, t);
    var arts := s.db.tasks[t].artifacts;
    assert KeysPresent(s.objects, arts);
    assert Keys(arts)[0] == arts.unsignedKey;
    assert arts.signedKey != "" ==> Keys(arts)[1] == arts.signedKey;
  }

  /** Nothing any actor does later, neither a rollback, a recovery, an app deletion nor a crash, changes
      the row of a completed task or takes its objects away. */
  lemma CompletedForever(s: State, run: seq<Action>, t: nat)
    requires Reachable(s) && ValidRun(s, run) && t in s.db.tasks && s.db.tasks[t].status == Completed
    ensures t in Exec(s, run).db.tasks && Exec(s, run).db.tasks[t] == s.db.tasks[t]
    ensures KeysPresent(Exec(s, run).objects, s.db.tasks[t].artifacts)
  {
    hide ValidRun;
    hide Exec;
    hide KeysPresent;
    hide RowsOk;
    hide TxsOk;
    hide Coherent;
    hide PcOk;
    hide RiskOk;
    hide StuckOk;
    hide Accounted;
    hide Unreferenced;
    hide Uploads;
    hide Reachable;
    ReachableInv(s);
    RunEvolves(s, run, t);
    RunsKeepInv(s, run);
  }

  // ---------------------------------------------------------------- conservation of artifacts

  /** Every artifact object is a key of a task row, in the worker's hands, or in the leak history. */
  lemma EveryArtifactAccounted(s: State, key: string)
    requires Reachable(s) && key in s.objects && !IsSourceKey(key)
    ensures key in s.leak || key in Uploads(s.pc) || key in PendingKeys(s.pc)
         || exists t :: t in s.db.tasks && key in Keys(s.db.tasks[t].artifacts)
                        && (s.db.tasks[t].status == Completed || s.db.tasks[t].status == Running)
  {
    hide Reachable;
    hide TxsOk;
    hide Coherent;
    hide PcOk;
    hide RiskOk;
    hide StuckOk;
    hide IsSourceKey;
    hide IsTaskNo;
    hide OwnsArtifacts;
    hide StepsAt;
    hide StepsShaped;
    hide Uploads;
    hide PendingKeys;
    ReachableInv(s);
    assert Accounted(s.db, s.pc, s.leak, key);
    if Recorded(s.db, key) {
      var t :| t in s.db.tasks && key in Keys(s.db.tasks[t].artifacts);
      RowIsOk(s.db, t);
    }
  }

  /** A delete that fails, or an upload that lands and reports an error. */
  predicate Loses(a: Action) {
    a.Work? && (((a.step.CleanOne? || a.step.RollBackOne?) && !a.step.ok) || (a.step.Put? && !a.step.ok && a.step.landed))
  }

  /** The keys the worker's next upload or delete may be about. */
  function InHand(pc: Pc): set<string> {
    PendingKeys(pc) + (set k | k in Uploads(pc)) + if pc.InStep? then set k | k in Keys(pc.arts) else {}
  }

  /** The leak history never shrinks, and grows only by the key of a failed delete, by the key of an upload
      that landed and reported an error, or, in a crash, by uploads no row records yet and by keys a
      committed recovery had not deleted yet. */
  lemma LeakGrowth(s: State, a: Action)
    requires Enabled(s, a)
    ensures s.leak <= Apply(s, a).leak
    ensures Apply(s, a).leak != s.leak ==> Loses(a) || a.Crash?
    ensures Loses(a) ==>
      exists key :: key in InHand(s.pc) && Apply(s, a).leak == s.leak + {key}
    ensures a.Crash? ==> Apply(s, a).leak == s.leak + Unrecorded(s) + PendingKeys(s.pc)
  {
    hide ApiEnabled;
    hide Unrecorded;
    hide IsNextQueued;
    hide CanRecover;
    hide Lists;
    hide Keys;
    if Loses(a) {
      var key := if a.step.CleanOne? then s.pc.pending[0].1 else if a.step.RollBackOne? then s.pc.rest[|s.pc.rest| - 1]
                 else Keys(s.pc.arts)[|s.pc.puts|];
      assert Apply(s, a).leak == s.leak + {key};
    }
  }

  predicate CompletedKey(db: Db, key: string) {
    exists t :: t in db.tasks && db.tasks[t].status == Completed && key in Keys(db.tasks[t].artifacts)
  }

  ghost predicate Clean(run: seq<Action>) {
    forall i :: 0 <= i < |run| ==> !run[i].Crash? && !Loses(run[i])
  }

  /** Without crashes and losses nothing is ever left over. */
  ghost predicate Tight(s: State) {
    && !s.pc.Cleaning?
    && (s.pc.Down? ==> RunningIds(s.db) == {})
    && (forall key :: key in s.objects && !IsSourceKey(key) ==> key in Uploads(s.pc) || CompletedKey(s.db, key))
  }

  lemma CompletedKeyStays(s: State, a: Action, key: string)
    requires Inv(s) && Enabled(s, a) && CompletedKey(s.db, key)
    ensures CompletedKey(Apply(s, a).db, key)
  {
    hide Inv;
    hide Enabled;
    hide Apply;
    hide Keys;
    var t :| t in s.db.tasks && s.db.tasks[t].status == Completed && key in Keys(s.db.tasks[t].artifacts);
    ActionFollows(s, a, t);
    assert t in Apply(s, a).db.tasks && key in Keys(Apply(s, a).db.tasks[t].artifacts);
  }

  /** An upload stays in the worker's hands until it is deleted or its task is completed. */
  lemma UploadsFlow(s: State, step: WorkerStep, key: string)
    requires Inv(s) && WorkEnabled(s, step) && !Loses(Work(step))
    requires key in Uploads(s.pc)
    ensures var s' := ApplyWork(s, step);
      key in Uploads(s'.pc) || CompletedKey(s'.db, key)
      || (step.RollBackOne? && s'.objects == s.objects - {key})
  {
    hide RowsOk;
    hide TxsOk;
    hide Coherent;
    hide ObjectsOk;
    hide RiskOk;
    hide StuckOk;
    hide StepsAt;
    hide OwnsArtifacts;
    hide OwnedList;
    hide Keys;
    hide PendingOk;
    hide IsNextQueued;
    hide CanRecover;
    hide Lists;
    hide IndexOfStep;
    hide PriorIncomplete;
    hide Recovered;
    hide CleanupList;
    hide CompletedKey;
    hide Collected;
    if step.Complete? {
      CompletionTakesOver(s, step.ok, key);
    } else if step.RollBackOne? {
      var last := |s.pc.rest| - 1;
      var i :| 0 <= i < |s.pc.rest| && s.pc.rest[i] == key;
      assert i < last ==> s.pc.rest[..last][i] == key;
    }
  }

  lemma CompletionTakesOver(s: State, ok: bool, key: string)
    requires Inv(s) && WorkEnabled(s, Complete(ok)) && key in Uploads(s.pc)
    ensures var s' := ApplyWork(s, Complete(ok)); key in Uploads(s'.pc) || CompletedKey(s'.db, key)
  {
    hide RowsOk;
    hide TxsOk;
    hide Coherent;
    hide ObjectsOk;
    hide RiskOk;
    hide StuckOk;
    hide StepsAt;
    hide OwnsArtifacts;
    hide Keys;
    hide ResolveRiskLevel;
    var s', t := AfterComplete(s, ok), s.pc.job.id;
    ActiveIsNewest(s.db, s.newest, t);
    if ok {
      assert t in s'.db.tasks && s'.db.tasks[t].status == Completed && key in Keys(s'.db.tasks[t].artifacts);
    }
  }

  /** The only new artifact object of a step is the upload it records in the worker's hands. */
  lemma ObjectsFlow(s: State, a: Action, key: string)
    requires Enabled(s, a) && !Loses(a) && key in Apply(s, a).objects && !IsSourceKey(key)
    ensures key in s.objects || key in Uploads(Apply(s, a).pc)
  {
    hide ApiEnabled;
    hide ApplyApi;
    hide WorkEnabled;
    hide ApplyWork;
    hide Uploads;
    hide IsSourceKey;
    match a
    case Api(call) => ApiObjects(s, call, key);
    case Work(step) => WorkObjects(s, step, key);
    case Crash =>
  }

  lemma WorkObjects(s: State, step: WorkerStep, key: string)
    requires WorkEnabled(s, step) && !Loses(Work(step)) && key in ApplyWork(s, step).objects
    ensures key in s.objects || key in Uploads(ApplyWork(s, step).pc)
  {
    hide IsNextQueued;
    hide CanRecover;
    hide Lists;
    hide Keys;
    hide FindStep;
    hide StartStep;
    hide FinishStep;
    hide CompleteTask;
    hide FailTask;
    hide CurrentStep;
    hide Unwind;
    hide Recovered;
    hide CleanupList;
    hide Collected;
  }

  lemma ApiObjects(s: State, call: ApiCall, key: string)
    requires ApiEnabled(s, call) && key in ApplyApi(s, call).objects && !IsSourceKey(key)
    ensures key in s.objects
  {
    hide IsSourceKey;
    hide HasActiveTask;
    hide TaskNoFree;
    hide IsTaskNo;
  }

  lemma ApiStaysQuiet(s: State, call: ApiCall)
    requires TxsOk(s.db, s.txs) && ApiEnabled(s, call) && RunningIds(s.db) == {}
    ensures RunningIds(ApplyApi(s, call).db) == {}
  {
    hide TxsOk;
    hide IsSourceKey;
    hide IsTaskNo;
    hide HasActiveTask;
    hide TaskNoFree;
    var s' := ApplyApi(s, call);
    if call.TxCommit? {
      TxIsOk(s.db, s.txs, call.app);
    }
    forall t | t in s'.db.tasks ensures s'.db.tasks[t].status != Running {
      assert t in s.db.tasks ==> t !in RunningIds(s.db);
    }
  }

  lemma DownStaysQuiet(s: State, a: Action)
    requires TxsOk(s.db, s.txs) && Enabled(s, a) && !a.Crash? && Tight(s)
    ensures !Apply(s, a).pc.Cleaning?
    ensures Apply(s, a).pc.Down? ==> RunningIds(Apply(s, a).db) == {}
  {
    hide TxsOk;
    hide Tight;
    hide ApiEnabled;
    hide ApplyApi;
    hide WorkEnabled;
    hide ApplyWork;
    match a
    case Api(call) =>
      TightIsQuiet(s);
      if s.pc.Down? {
        ApiStaysQuiet(s, call);
      }
      ApiLeavesWorker(s, call);
    case Work(step) => WorkStaysUp(s, step);
  }

  lemma TightIsQuiet(s: State)
    requires Tight(s)
    ensures !s.pc.Cleaning? && (s.pc.Down? ==> RunningIds(s.db) == {})
  {
    hide CompletedKey;
    hide IsSourceKey;
  }

  lemma WorkStaysUp(s: State, step: WorkerStep)
    requires WorkEnabled(s, step) && Tight(s)
    ensures !ApplyWork(s, step).pc.Cleaning? && !ApplyWork(s, step).pc.Down?
  {
    hide CompletedKey;
    hide IsSourceKey;
    hide Uploads;
    hide IsNextQueued;
    hide CanRecover;
    hide FindStep;
    hide Recovered;
    hide Collected;
    hide Keys;
    hide Lists;
    hide RunningIds;
    hide CompleteTask;
    hide FailTask;
    hide StartStep;
    hide FinishStep;
    if step.RecoverCommit? {
      ListsSomething(step.ids, RunningIds(s.db));
    }
  }

  lemma ApiLeavesWorker(s: State, call: ApiCall)
    requires ApiEnabled(s, call)
    ensures ApplyApi(s, call).pc == s.pc
  {
    hide IsSourceKey;
    hide HasActiveTask;
    hide TaskNoFree;
    hide IsTaskNo;
  }

  lemma ListsSomething(ids: seq<nat>, elements: set<nat>)
    requires Lists(ids, elements)
    ensures ids != [] ==> elements != {}
  {
    if ids != [] {
      assert ids[0] in elements;
    }
  }

  lemma WorkerIsOk(s: State)
    requires Inv(s)
    ensures PcOk(s.db, s.pc)
  {
  }

  lemma InvTxs(s: State)
    requires Inv(s)
    ensures TxsOk(s.db, s.txs)
  {
  }

  lemma TightStep(s: State, a: Action)
    requires Inv(s) && Enabled(s, a) && !a.Crash? && !Loses(a) && Tight(s)
    ensures Tight(Apply(s, a))
  {
    hide Inv;
    hide Enabled;
    hide Apply;
    hide ApiEnabled;
    hide ApplyApi;
    hide WorkEnabled;
    hide ApplyWork;
    hide CompletedKey;
    hide Uploads;
    hide IsSourceKey;
    var s' := Apply(s, a);
    assert TxsOk(s.db, s.txs) by { InvTxs(s); }
    DownStaysQuiet(s, a);
    forall key | key in s'.objects && !IsSourceKey(key) ensures key in Uploads(s'.pc) || CompletedKey(s'.db, key) {
      ObjectsFlow(s, a, key);
      if key in s.objects && CompletedKey(s.db, key) {
        CompletedKeyStays(s, a, key);
      } else if key in s.objects {
        UploadMoves(s, a, key);
      }
    }
  }

  lemma UploadMoves(s: State, a: Action, key: string)
    requires Inv(s) && Enabled(s, a) && !a.Crash? && !Loses(a) && key in Uploads(s.pc)
    requires key in Apply(s, a).objects && !IsSourceKey(key)
    ensures key in Uploads(Apply(s, a).pc) || CompletedKey(Apply(s, a).db, key)
  {
    hide Inv;
    hide ApiEnabled;
    hide ApplyApi;
    hide WorkEnabled;
    hide ApplyWork;
    hide CompletedKey;
    hide Uploads;
    hide IsSourceKey;
    match a
    case Api(call) => ApiLeavesWorker(s, call);
    case Work(step) => UploadsFlow(s, step, key);
  }

  lemma {:induction false} CleanRunsAreTight(run: seq<Action>)
    requires ValidRun(INIT, run) && Clean(run)
    ensures Tight(Exec(INIT, run))
    decreases |run|
  {
    hide Inv;
    hide Enabled;
    hide Apply;
    hide Loses;
    hide IsSourceKey;
    if run == [] {
      TightInit();
    } else {
      hide Tight;
      var before := run[..|run| - 1];
      CleanRunsAreTight(before);
      InitInv();
      RunsKeepInv(INIT, before);
      TightStep(Exec(INIT, before), run[|run| - 1]);
    }
  }

  lemma TightInit()
    ensures Tight(INIT)
  {
    hide IsSourceKey;
  }

  /** Conservation: after any run without crashes and losses, whenever the worker is idle, the artifact
      objects in storage are exactly the recorded keys of the completed tasks. */
  lemma ConservationWhenIdle(run: seq<Action>, key: string)
    requires ValidRun(INIT, run) && Clean(run) && Exec(INIT, run).pc.Idle?
    ensures key in Exec(INIT, run).objects && !IsSourceKey(key) <==> CompletedKey(Exec(INIT, run).db, key)
  {
    hide ValidRun;
    hide Exec;
    hide Clean;
    hide RowsOk;
    hide TxsOk;
    hide Coherent;
    hide PcOk;
    hide RiskOk;
    hide StuckOk;
    hide IsSourceKey;
    hide Keys;
    hide RunningIds;
    hide Accounted;
    hide Unreferenced;
    var s := Exec(INIT, run);
    CleanRunsAreTight(run);
    InitInv();
    RunsKeepInv(INIT, run);
    if CompletedKey(s.db, key) {
      var t :| t in s.db.tasks && s.db.tasks[t].status == Completed && key in Keys(s.db.tasks[t].artifacts);
      RowOwns(s.db, t);
      assert KeysPresent(s.objects, s.db.tasks[t].artifacts);
    }
  }
}
