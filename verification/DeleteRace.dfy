/** AppService.Delete checks for an active task and then deletes the app row, without the row lock that a
    creation holds.  Here the delete is taken as it is written: the row goes whenever it is unlocked. */
module DeleteRace {
  import opened Strategy
  import opened Tables
  import opened ObjectKeys
  import opened Pipeline
  import opened Invariants
  import opened ApiCalls
  import opened WorkerSteps
  import opened Theorems
  import opened Histories

  /** The DELETE statement alone: it waits for the row lock but checks nothing. */
  function UncheckedDelete(s: State, app: nat): State {
    s.(db := s.db.(apps := s.db.apps - {app}))
  }

  predicate NoOrphans(db: Db) {
    forall t :: t in db.tasks && Active(db.tasks[t].status) ==> db.tasks[t].appId in db.apps
  }

  /** The delete keeps the invariants exactly when the app has no active task at that moment: that the
      check succeeded earlier is neither needed nor enough. */
  lemma DeleteIsSafeIff(s: State, app: nat)
    requires Reachable(s) && app in s.db.apps && app !in s.txs
    ensures Inv(UncheckedDelete(s, app)) <==> !HasActiveTask(s.db, app)
    ensures NoOrphans(UncheckedDelete(s, app).db) <==> !HasActiveTask(s.db, app)
    ensures CanRecover(UncheckedDelete(s, app).db) <==> !HasRunningTask(s.db, app)
  {
    hide RowsOk;
    hide TxsOk;
    hide PcOk;
    hide ObjectsOk;
    hide RiskOk;
    hide StuckOk;
    hide Reachable;
    ReachableInv(s);
    var s' := UncheckedDelete(s, app);
    forall t | t in s.db.tasks && Active(s.db.tasks[t].status) ensures s.db.tasks[t].appId in s.db.apps {
      ActiveIsNewest(s.db, s.newest, t);
    }
    if !HasActiveTask(s.db, app) {
      ApiKeepsInv(s, DeleteApp(app));
    } else {
      var t :| t in s.db.tasks && s.db.tasks[t].appId == app && Active(s.db.tasks[t].status);
      assert !TaskCoherent(s'.db, s'.newest, t);
    }
  }

  // ---------------------------------------------------------------- a run that breaks it

  /** The check for app 0 passes at first, and the app is still there and unlocked when the delete runs. */
  ghost predicate Races(checked: seq<Action>, created: seq<Action>) {
    && ValidRun(INIT, checked) && ValidRun(INIT, created) && checked <= created
    && 0 in Exec(INIT, checked).db.apps && !HasActiveTask(Exec(INIT, checked).db, 0)
    && 0 in Exec(INIT, created).db.apps && 0 !in Exec(INIT, created).txs
  }

  /** The check passes, a creation commits, the row goes: a queued task is left without its app.  Both
      actors did what their code does. */
  lemma CheckThenDeleteOrphans() returns (checked: seq<Action>, created: seq<Action>)
    ensures Races(checked, created)
    ensures !NoOrphans(UncheckedDelete(Exec(INIT, created), 0).db)
    ensures OnlyTaskQueued(Exec(INIT, created))
  {
    hide ValidRun;
    hide Exec;
    hide SourceKey;
    checked, created := QueueFirstTask(0);
    assert 0 in Exec(INIT, created).db.tasks;
  }

  // ---------------------------------------------------------------- what it costs

  /** A queued or running task whose app row is gone for good. */
  ghost predicate Orphaned(s: State, t: nat) {
    && t in s.db.tasks && Active(s.db.tasks[t].status) && t < s.db.nextTask
    && s.db.tasks[t].appId !in s.db.apps && s.db.tasks[t].appId < s.db.nextApp
    && forall b :: b in s.txs && HasInsert(s.txs[b]) ==> s.txs[b].id != t
  }

  /** The unguarded delete makes an orphan of the app's active task. */
  lemma DeleteOrphans(s: State, app: nat, t: nat)
    requires Reachable(s) && app in s.db.apps && app !in s.txs
    requires t in s.db.tasks && s.db.tasks[t].appId == app && Active(s.db.tasks[t].status)
    ensures Orphaned(UncheckedDelete(s, app), t)
  {
    hide Reachable;
    hide Coherent;
    hide PcOk;
    hide ObjectsOk;
    hide RiskOk;
    hide StuckOk;
    hide IsTaskNo;
    hide IsSourceKey;
    hide StepsShaped;
    ReachableInv(s);
    assert RowOk(s.db, t);
    forall b | b in s.txs && HasInsert(s.txs[b]) ensures s.txs[b].id != t {
      assert TxOk(s.db, b, s.txs[b]);
    }
  }

  lemma ApiKeepsOrphan(s: State, call: ApiCall, t: nat)
    requires Orphaned(s, t) && ApiEnabled(s, call)
    ensures Orphaned(ApplyApi(s, call), t)
    ensures s.db.tasks[t].status == Running ==> ApplyApi(s, call).db.tasks[t].status == Running
  {
    hide HasActiveTask;
    hide TaskNoFree;
    hide IsTaskNo;
    hide IsSourceKey;
  }

  lemma WorkKeepsOrphan(s: State, step: WorkerStep, t: nat)
    requires Orphaned(s, t) && WorkEnabled(s, step)
    ensures Orphaned(ApplyWork(s, step), t)
    ensures s.db.tasks[t].status == Running ==> ApplyWork(s, step).db.tasks[t].status == Running
  {
    hide IsNextQueued;
    hide Lists;
    hide Keys;
    hide Collected;
    hide CleanupList;
    hide RecoveredSteps;
    hide HasRunningTask;
    hide ResolveRiskLevel;
    hide AfterBeginStep;
    hide AfterEndStep;
    hide AfterFailStep;
    match step
    case BeginStep(ok) => StepRowsKeepOrphan(s, step);
    case EndStep(ok) => StepRowsKeepOrphan(s, step);
    case FailStep(ok) => StepRowsKeepOrphan(s, step);
    case _ =>
  }

  lemma StepRowsKeepOrphan(s: State, step: WorkerStep)
    requires WorkEnabled(s, step) && (step.BeginStep? || step.EndStep? || step.FailStep?)
    ensures var s' := ApplyWork(s, step);
      && s'.db == s.db.(steps := s'.db.steps) && s'.txs == s.txs
  {
    hide IndexOfStep;
    hide PriorIncomplete;
  }

  /** From then on, in every run, the task stays active; and from when it is started every recovery aborts:
      one orphan blocks the recovery of all other tasks, across restarts. */
  lemma {:induction false} OrphanBlocksRecoveryForever(s: State, run: seq<Action>, t: nat)
    requires Orphaned(s, t) && ValidRun(s, run)
    ensures var s' := Exec(s, run);
      Orphaned(s', t) && (s'.db.tasks[t].status == Running ==> !CanRecover(s'.db))
    ensures s.db.tasks[t].status == Running ==> Exec(s, run).db.tasks[t].status == Running
    decreases |run|
  {
    hide ApiEnabled;
    hide WorkEnabled;
    hide ApplyApi;
    hide ApplyWork;
    if run != [] {
      var before, a := Exec(s, run[..|run| - 1]), run[|run| - 1];
      OrphanBlocksRecoveryForever(s, run[..|run| - 1], t);
      match a
      case Api(call) => ApiKeepsOrphan(before, call, t);
      case Work(step) => WorkKeepsOrphan(before, step, t);
      case Crash =>
    }
  }

  /** After these actions recovery aborts in every run. */
  ghost predicate NeverRecovers(s: State, started: seq<Action>) {
    && ValidRun(s, started)
    && forall run :: ValidRun(Exec(s, started), run) ==> !CanRecover(Exec(Exec(s, started), run).db)
  }

  /** All of it in one history, in which no call fails: the check passes, a creation commits, the row goes,
      and the worker recovers, picks the orphan and starts it; from there no run recovers ever again. */
  lemma RaceEndsRecovery() returns (checked: seq<Action>, created: seq<Action>, started: seq<Action>)
    ensures Races(checked, created) && NeverRecovers(UncheckedDelete(Exec(INIT, created), 0), started)
  {
    hide ValidRun;
    hide Exec;
    hide Recovered;
    hide CanRecover;
    hide Reachable;
    checked, created := CheckThenDeleteOrphans();
    var raced := Exec(INIT, created);
    assert Reachable(raced) by { ReachedBy(created); }
    DeleteOrphans(raced, 0, 0);
    var s := UncheckedDelete(raced, 0);
    NothingDone(s);
    started := StartFirstTask(s, []);
    forall run | ValidRun(Exec(s, started), run) ensures !CanRecover(Exec(Exec(s, started), run).db) {
      OrphanBlocksRecoveryForever(s, started, 0);
      OrphanBlocksRecoveryForever(Exec(s, started), run, 0);
    }
  }
}
