/** What clients can rely on in every reachable state: apps and their tasks, steps, artifacts, risk. */
module Lifecycle {
  import opened Wrappers
  import opened Strategy
  import opened Tables
  import opened ObjectKeys
  import opened Pipeline
  import opened Invariants
  import opened ApiCalls
  import opened WorkerSteps
  import opened WorkerEndings
  import opened Theorems
  import opened Artifacts
  import opened Reads

  // ---------------------------------------------------------------- apps and tasks

  /** An app has at most one queued or running task, and that task's app row exists. */
  lemma OneActiveTaskPerApp(s: State, t: nat, u: nat)
    requires Reachable(s) && t in s.db.tasks && u in s.db.tasks
    requires Active(s.db.tasks[t].status) && Active(s.db.tasks[u].status)
    requires s.db.tasks[t].appId == s.db.tasks[u].appId
    ensures t == u && s.db.tasks[t].appId in s.db.apps
  {
    hide Reachable;
    hide RowsOk;
    hide TxsOk;
    hide PcOk;
    hide ObjectsOk;
    hide RiskOk;
    ReachableInv(s);
    ActiveIsNewest(s.db, s.newest, t);
    ActiveIsNewest(s.db, s.newest, u);
    assert TaskCoherent(s.db, s.newest, t) && TaskCoherent(s.db, s.newest, u);
  }

  ghost predicate IsNewestTask(db: Db, a: nat, t: nat) {
    && t in db.tasks && db.tasks[t].appId == a
    && forall u :: u in db.tasks && db.tasks[u].appId == a ==> u <= t
  }

  /** An app's status is a function of its newest task. */
  lemma AppStatusFollowsNewestTask(s: State, a: nat)
    requires Reachable(s) && a in s.db.apps
    ensures forall t :: IsNewestTask(s.db, a, t) ==>
      && (s.db.apps[a].status == AppProcessing <==> s.db.tasks[t].status == Queued || s.db.tasks[t].status == Running)
      && (s.db.apps[a].status == AppCompleted <==> s.db.tasks[t].status == Completed)
      && (s.db.apps[a].status == AppFailed <==> s.db.tasks[t].status == Failed)
    ensures (forall t :: t in s.db.tasks ==> s.db.tasks[t].appId != a) <==> s.db.apps[a].status == AppUnprotected
  {
    hide Reachable;
    hide RowsOk;
    hide TxsOk;
    hide PcOk;
    hide ObjectsOk;
    hide RiskOk;
    ReachableInv(s);
    assert AppCoherent(s.db, s.newest, a);
    forall t | IsNewestTask(s.db, a, t) ensures s.newest[a] == t && a in s.newest {
      assert TaskCoherent(s.db, s.newest, t);
    }
    forall t | t in s.db.tasks && s.db.tasks[t].appId == a ensures a in s.newest {
      assert TaskCoherent(s.db, s.newest, t);
    }
  }

  // ---------------------------------------------------------------- artifacts

  /** Only running and completed tasks carry keys, so a request for an artifact of any other task reports it
      missing.  A link of a completed task leads to an existing object of the kind that was asked for: the
      unsigned artifact always, the signed one exactly when one was recorded. */
  lemma DownloadsAreHonest(s: State, t: nat, artifact: string)
    requires Reachable(s) && t in s.db.tasks
    ensures var row, answer := s.db.tasks[t], DownloadKey(s.db, t, artifact);
      && (artifact != "" && artifact != "unsigned" && artifact != "signed_test" ==> answer == Err(InvalidArtifact))
      && (artifact == "" || artifact == "unsigned" || artifact == "signed_test" ==>
            answer.Ok? || answer == Err(ArtifactNotFound))
      && (row.status == Queued || row.status == Failed ==> row.artifacts == NO_ARTIFACTS && !answer.Ok?)
      && (row.status == Completed && (artifact == "" || artifact == "unsigned") ==>
            answer == Ok(row.artifacts.unsignedKey))
      && (row.status == Completed && artifact == "signed_test" ==>
            if row.artifacts.signedKey != "" then answer == Ok(row.artifacts.signedKey)
            else answer == Err(ArtifactNotFound))
      && (row.status == Completed && answer.Ok? ==> answer.value in s.objects)
      && (answer.Ok? ==>
            NamesKind(answer.value, row.taskNo, if artifact == "signed_test" then "signed_test" else "unsigned"))
  {
    hide Inv;
    hide Reachable;
    hide StepsShaped;
    hide StepsAt;
    hide IsTaskNo;
    hide Owner;
    hide NamesKind;
    hide NamesApp;
    ReachableInv(s);
    assert RowsOk(s.db) by { InvRows(s); }
    RowIsOk(s.db, t);
    ArtifactsAreNamed(s, t);
    if s.db.tasks[t].status == Completed {
      CompletedArtifactsExist(s, t);
    }
  }

  /** Unknown tasks have no link and no report; a task has a report exactly when it is completed, and that
      names its signed output, or the unsigned one if there is no other. */
  lemma ReportsAreHonest(s: State, t: nat)
    requires Reachable(s)
    ensures t !in s.db.tasks ==>
      GetReport(s.db, t) == Err(TaskNotFound) && forall artifact :: DownloadKey(s.db, t, artifact) == Err(TaskNotFound)
    ensures t in s.db.tasks && s.db.tasks[t].status != Completed ==> GetReport(s.db, t) == Err(ReportNotReady)
    ensures t in s.db.tasks && s.db.tasks[t].status == Completed ==>
      var row, report := s.db.tasks[t], GetReport(s.db, t);
      && report.Ok? && report.value.taskId == t && report.value.taskNo == row.taskNo
      && report.value.beforeScore == 100 && report.value.riskLevel == ResolveRiskLevel(row.snapshot)
      && report.value.afterScore == AfterScore(ResolveEffectiveFlags(row.snapshot), row.snapshot.dexLevel)
      && (if row.artifacts.signedKey != ""
          then "signed_test" <= report.value.fileName && report.value.sha256 == row.artifacts.signedSha
          else "unsigned" <= report.value.fileName && report.value.sha256 == row.artifacts.unsignedSha)
  {
    hide Inv;
    hide Reachable;
    hide StepsShaped;
    hide StepsAt;
    hide IsTaskNo;
    hide Owner;
    hide NamesApp;
    hide Split;
    hide AfterScore;
    hide ResolveEffectiveFlags;
    hide RiskLevelForScore;
    ReachableInv(s);
    assert RowsOk(s.db) by { InvRows(s); }
    if t in s.db.tasks && s.db.tasks[t].status == Completed {
      RowIsOk(s.db, t);
      ArtifactsAreNamed(s, t);
    }
  }

  lemma InvRows(s: State)
    requires Inv(s)
    ensures RowsOk(s.db)
  {
  }

  // ---------------------------------------------------------------- steps

  lemma {:induction false} ShapeHasForm(rows: seq<StepRow>, n: nat)
    requires StepsShaped(rows) && n <= 6
    requires forall i :: 0 <= i < n ==> rows[i].status == StepSuccess
    ensures exists m, status :: m <= 6 && StepsAt(rows, m, status)
    decreases 6 - n
  {
    if n < 6 && rows[n].status == StepSuccess {
      ShapeHasForm(rows, n + 1);
    } else if n < 6 {
      assert StepsAt(rows, n, rows[n].status);
    } else {
      assert StepsAt(rows, 6, StepSuccess);
    }
  }

  /** Every task always has its six steps in order: successes, then at most one running or failed step,
      then waiting ones; all waiting while queued, all successful once completed. */
  lemma StepsKeepTheirShape(s: State, t: nat)
    requires Reachable(s) && t in s.db.tasks
    ensures t in s.db.steps && |s.db.steps[t]| == 6
    ensures forall i :: 0 <= i < 6 ==> s.db.steps[t][i].sortOrder == i + 1
    ensures var rows := s.db.steps[t];
      && rows[0].key == PrepareInput && rows[1].key == ParsePackage && rows[2].key == ApplyStrategy
      && rows[3].key == RunEngine && rows[4].key == CollectArtifacts && rows[5].key == UploadArtifacts
    ensures exists n, status :: n <= 6 && StepsAt(s.db.steps[t], n, status)
    ensures s.db.tasks[t].status == Queued ==> forall i :: 0 <= i < 6 ==> s.db.steps[t][i].status == StepWaiting
    ensures s.db.tasks[t].status == Completed ==> forall i :: 0 <= i < 6 ==> s.db.steps[t][i].status == StepSuccess
  {
    hide Inv;
    hide Reachable;
    hide IsTaskNo;
    hide OwnsArtifacts;
    ReachableInv(s);
    assert RowsOk(s.db) by { InvRows(s); }
    RowIsOk(s.db, t);
    ShapeHasForm(s.db.steps[t], 0);
  }

  // ---------------------------------------------------------------- risk

  lemma {:induction false} LastCompletedFound(completions: seq<nat>, tasks: map<nat, TaskRow>, a: nat, t: nat)
    requires t in completions && t in tasks && tasks[t].appId == a
    ensures LastCompleted(completions, tasks, a).Some?
  {
    if completions[|completions| - 1] != t {
      var i :| 0 <= i < |completions| && completions[i] == t;
      assert completions[..|completions| - 1][i] == t;
      LastCompletedFound(completions[..|completions| - 1], tasks, a, t);
    }
  }

  /** An app has a risk level exactly when some task of it completed; it is the level that the report of
      its most recently completed task shows, however many later tasks were queued or failed. */
  lemma RiskFollowsLastCompletion(s: State, a: nat)
    requires Reachable(s) && a in s.db.apps
    ensures s.db.apps[a].risk.Some? <==>
      exists t :: t in s.db.tasks && s.db.tasks[t].appId == a && s.db.tasks[t].status == Completed
    ensures var last := LastCompleted(s.completions, s.db.tasks, a);
      last.Some? ==>
        && last.value in s.db.tasks && s.db.tasks[last.value].appId == a
        && GetReport(s.db, last.value).Ok?
        && s.db.apps[a].risk == Some(GetReport(s.db, last.value).value.riskLevel)
  {
    hide Reachable;
    hide RowsOk;
    hide TxsOk;
    hide Coherent;
    hide PcOk;
    hide ObjectsOk;
    hide StuckOk;
    hide AfterScore;
    hide ResolveEffectiveFlags;
    hide RiskLevelForScore;
    hide ArtifactFileName;
    ReachableInv(s);
    LastCompletedFrame(s.completions, s.db.tasks, s.db.tasks, a);
    forall t | t in s.db.tasks && s.db.tasks[t].appId == a && s.db.tasks[t].status == Completed
      ensures LastCompleted(s.completions, s.db.tasks, a).Some?
    {
      LastCompletedFound(s.completions, s.db.tasks, a, t);
    }
  }

  /** The completion history is what its name says: an action appends a task if and only if it moves the
      task's row from running to completed, and appends nothing else. */
  lemma CompletionsRecordOrder(s: State, a: Action)
    requires Inv(s) && Enabled(s, a)
    ensures var s' := Apply(s, a);
      s'.completions == s.completions || exists t :: JustCompleted(s, s', t)
    ensures var s' := Apply(s, a);
      forall t :: t in s.db.tasks && s.db.tasks[t].status != Completed && RowCompleted(s'.db, t) ==>
        JustCompleted(s, s', t)
  {
    hide Inv;
    hide Enabled;
    hide Apply;
    hide JustCompleted;
    hide RowCompleted;
    RecordedIsCompleting(s, a);
    forall t | t in s.db.tasks && s.db.tasks[t].status != Completed && RowCompleted(Apply(s, a).db, t)
      ensures JustCompleted(s, Apply(s, a), t)
    {
      CompletingIsRecorded(s, a, t);
    }
  }

  lemma RecordedIsCompleting(s: State, a: Action)
    requires Inv(s) && Enabled(s, a)
    ensures var s' := Apply(s, a);
      s'.completions == s.completions || exists t :: JustCompleted(s, s', t)
  {
    hide RowsOk;
    hide TxsOk;
    hide Coherent;
    hide ObjectsOk;
    hide RiskOk;
    hide StuckOk;
    hide ApiEnabled;
    hide StepsAt;
    hide OwnsArtifacts;
    hide OwnedList;
    hide PendingOk;
    hide IsNextQueued;
    hide CanRecover;
    hide Lists;
    hide FindStep;
    hide Recovered;
    hide Collected;
    hide CleanupList;
    hide Keys;
    hide ResolveRiskLevel;
    match a
    case Api(call) => ApiKeepsCompletions(s, call);
    case Work(step) =>
      if step.Complete? && Apply(s, a).completions != s.completions {
        assert JustCompleted(s, Apply(s, a), s.pc.job.id);
      }
    case Crash =>
  }

  predicate RowCompleted(db: Db, t: nat) { t in db.tasks && db.tasks[t].status == Completed }

  lemma CompletingIsRecorded(s: State, a: Action, t: nat)
    requires Inv(s) && Enabled(s, a) && t in s.db.tasks && s.db.tasks[t].status != Completed
    requires RowCompleted(Apply(s, a).db, t)
    ensures JustCompleted(s, Apply(s, a), t)
  {
    hide RowsOk;
    hide Coherent;
    hide PcOk;
    hide ObjectsOk;
    hide RiskOk;
    hide StuckOk;
    hide TxsOk;
    hide ApiEnabled;
    hide ApplyApi;
    hide WorkEnabled;
    hide ApplyWork;
    match a
    case Api(call) => ApiMovesNoTask(s, call, t);
    case Work(step) =>
      if step.RecoverCommit? {
        RecoveryCompletesNone(s, step.ids, step.summary, t);
      } else if WritesTask(step) {
        WorkCompletes(s, step, t);
      } else {
        WorkLeavesTasks(s, step);
      }
    case Crash =>
  }

  lemma RecoveryCompletesNone(s: State, ids: seq<nat>, summary: string, t: nat)
    requires WorkEnabled(s, RecoverCommit(ids, summary)) && t in s.db.tasks && s.db.tasks[t].status != Completed
    ensures !RowCompleted(ApplyWork(s, RecoverCommit(ids, summary)).db, t)
  {
    hide RecoveredSteps;
    hide HasRunningTask;
    hide CleanupList;
    hide Lists;
    hide CanRecover;
  }

  lemma WorkCompletes(s: State, step: WorkerStep, t: nat)
    requires PcOk(s.db, s.pc) && WorkEnabled(s, step) && WritesTask(step)
    requires t in s.db.tasks && s.db.tasks[t].status != Completed && RowCompleted(ApplyWork(s, step).db, t)
    ensures JustCompleted(s, ApplyWork(s, step), t)
  {
    hide StepsAt;
    hide OwnsArtifacts;
    hide Keys;
    hide Unwind;
    hide ResolveRiskLevel;
    if t != s.pc.job.id {
      WorkLeavesOtherTasks(s, step, t);
    }
  }

  predicate JustCompleted(s: State, s': State, t: nat) {
    && s'.completions == s.completions + [t]
    && t in s.db.tasks && s.db.tasks[t].status == Running
    && t in s'.db.tasks && s'.db.tasks[t].status == Completed
  }

  lemma ApiKeepsCompletions(s: State, call: ApiCall)
    requires ApiEnabled(s, call)
    ensures ApplyApi(s, call).completions == s.completions
  {
    hide IsSourceKey;
    hide HasActiveTask;
    hide TaskNoFree;
    hide IsTaskNo;
  }

  // ---------------------------------------------------------------- recovery

  /** From any reachable state the recovery transaction meets no missing row. */
  lemma RecoveryNeverAborts(s: State)
    requires Reachable(s)
    ensures CanRecover(s.db)
  {
    hide Reachable;
    hide RowsOk;
    hide TxsOk;
    hide PcOk;
    hide ObjectsOk;
    hide RiskOk;
    ReachableInv(s);
    forall t | t in s.db.tasks && s.db.tasks[t].status == Running ensures s.db.tasks[t].appId in s.db.apps {
      ActiveIsNewest(s.db, s.newest, t);
    }
  }

  /** A recovered task, its app and its steps have failed together. */
  ghost predicate FailedTogether(db: Db, t: nat) {
    && t in db.tasks && t in db.steps
    && db.tasks[t].status == Failed && db.tasks[t].artifacts == NO_ARTIFACTS
    && db.tasks[t].appId in db.apps && db.apps[db.tasks[t].appId].status == AppFailed
    && !HasActiveTask(db, db.tasks[t].appId)
    && forall i :: 0 <= i < |db.steps[t]| ==> db.steps[t][i].status != StepRunning
  }

  /** The running step has failed, and every other step is as it was. */
  predicate OnlyRunningFailed(rows: seq<StepRow>, rows': seq<StepRow>) {
    && |rows'| == |rows|
    && forall i :: 0 <= i < |rows| ==>
      rows'[i] == if rows[i].status == StepRunning then rows[i].(status := StepFailed) else rows[i]
  }

  lemma RecoveredTogether(db: Db, newest: map<nat, nat>, summary: string, t: nat)
    requires RowsOk(db) && Coherent(db, newest) && t in RunningIds(db)
    ensures FailedTogether(Recovered(db, summary), t)
  {
    hide RowOk;
    hide IsSourceKey;
    hide IsTaskNo;
    hide Coherent;
    hide RecoveredSteps;
    var db', a := Recovered(db, summary), db.tasks[t].appId;
    ActiveIsNewest(db, newest, t);
    assert HasRunningTask(db, a);
    if HasActiveTask(db', a) {
      var u :| u in db'.tasks && db'.tasks[u].appId == a && Active(db'.tasks[u].status);
      SameActiveTask(db, newest, t, u);
    }
  }

  lemma SameActiveTask(db: Db, newest: map<nat, nat>, t: nat, u: nat)
    requires Coherent(db, newest) && t in db.tasks && u in db.tasks
    requires Active(db.tasks[t].status) && Active(db.tasks[u].status) && db.tasks[t].appId == db.tasks[u].appId
    ensures t == u
  {
    assert TaskCoherent(db, newest, t) && TaskCoherent(db, newest, u);
  }

  /** A committed recovery leaves no running task and fails every recovered task, its app and its running
      steps together; every other row stays; and it deletes exactly the keys that the recovered rows
      recorded before the transition. */
  lemma RecoveryIsAllOrNothing(s: State, ids: seq<nat>, summary: string)
    requires Reachable(s) && WorkEnabled(s, RecoverCommit(ids, summary))
    ensures var s' := ApplyWork(s, RecoverCommit(ids, summary));
      && RunningIds(s'.db) == {} && s'.stuck == {}
      && (forall t :: t in RunningIds(s.db) ==> FailedTogether(s'.db, t))
      && s'.objects == s.objects && s'.txs == s.txs
      && (forall t :: t in RunningIds(s.db) ==>
            t in s'.db.tasks
            && s'.db.tasks[t] == s.db.tasks[t].(status := Failed, artifacts := NO_ARTIFACTS, errorSummary := summary))
      && (forall a :: a in s.db.apps && HasRunningTask(s.db, a) ==>
            a in s'.db.apps && s'.db.apps[a] == s.db.apps[a].(status := AppFailed))
      && (forall t :: t in RunningIds(s.db) && t in s.db.steps ==>
            t in s'.db.steps && OnlyRunningFailed(s.db.steps[t], s'.db.steps[t]))
      && (forall t :: t in s.db.tasks && t !in RunningIds(s.db) ==> s'.db.tasks[t] == s.db.tasks[t])
      && (forall t :: t in s.db.steps && t !in RunningIds(s.db) ==> s'.db.steps[t] == s.db.steps[t])
      && (forall a :: a in s.db.apps && !HasRunningTask(s.db, a) ==> s'.db.apps[a] == s.db.apps[a])
    ensures forall t, key ::
      (t, key) in CleanupList(s.db, ids) <==> t in RunningIds(s.db) && key in Keys(s.db.tasks[t].artifacts)
  {
    hide Reachable;
    hide RowsOk;
    hide TxsOk;
    hide Coherent;
    hide PcOk;
    hide ObjectsOk;
    hide RiskOk;
    hide StuckOk;
    hide Keys;
    hide CleanupList;
    hide HasRunningTask;
    hide FailedTogether;
    ReachableInv(s);
    CleanupLists(s.db, ids);
    forall t | t in RunningIds(s.db) ensures FailedTogether(Recovered(s.db, summary), t) {
      RecoveredTogether(s.db, s.newest, summary, t);
    }
  }

  // ---------------------------------------------------------------- seriality

  /** The ways a task can be left running without a worker. */
  predicate Strands(a: Action) {
    a.Crash? || (a.Work? && a.step.MarkFailed? && !a.step.ok)
  }

  lemma StuckGrowth(s: State, a: Action)
    requires Enabled(s, a) && !Strands(a)
    ensures Apply(s, a).stuck <= s.stuck
  {
    hide ApiEnabled;
    hide IsNextQueued;
    hide CanRecover;
    hide Lists;
    hide FindStep;
    hide Recovered;
    hide CleanupList;
    hide Collected;
    hide Keys;
    if a.Api? {
      ApiKeepsStuck(s, a.call);
    }
  }

  lemma ApiKeepsStuck(s: State, call: ApiCall)
    requires ApiEnabled(s, call)
    ensures ApplyApi(s, call).stuck == s.stuck
  {
    hide IsSourceKey;
    hide HasActiveTask;
    hide TaskNoFree;
    hide IsTaskNo;
  }

  lemma {:induction false} NothingStranded(run: seq<Action>)
    requires ValidRun(INIT, run) && forall i :: 0 <= i < |run| ==> !Strands(run[i])
    ensures Exec(INIT, run).stuck == {}
    decreases |run|
  {
    hide Enabled;
    hide Apply;
    hide Strands;
    if run != [] {
      NothingStranded(run[..|run| - 1]);
      StuckGrowth(Exec(INIT, run[..|run| - 1]), run[|run| - 1]);
    }
  }

  /** The task the worker is executing, as a set. */
  function Current(pc: Pc): set<nat> {
    if CurrentTask(pc).Some? then {CurrentTask(pc).value} else {}
  }

  /** What the history calls stranded is running, and is not what the worker is executing. */
  ghost predicate StrandedRun(s: State) {
    forall t :: t in s.stuck ==>
      t in s.db.tasks && s.db.tasks[t].status == Running && CurrentTask(s.pc) != Some(t)
  }

  /** The worker's own calls move no row but that of the task it is executing or about to execute. */
  lemma WorkMovesOnlyItsTask(s: State, step: WorkerStep, t: nat)
    requires PcOk(s.db, s.pc) && WorkEnabled(s, step) && !step.RecoverCommit?
    requires t in s.db.tasks && s.db.tasks[t].status == Running && CurrentTask(s.pc) != Some(t)
    ensures t in ApplyWork(s, step).db.tasks && ApplyWork(s, step).db.tasks[t] == s.db.tasks[t]
    ensures CurrentTask(ApplyWork(s, step).pc) != Some(t)
  {
    hide PcOk;
    hide WorkEnabled;
    hide ApplyWork;
    hide CurrentTask;
    WorkKeepsCurrent(s, step);
    if WritesTask(step) {
      WriterHolds(s, step, t);
      WorkLeavesOtherTasks(s, step, t);
    } else {
      WorkLeavesTasks(s, step);
    }
  }

  lemma WriterHolds(s: State, step: WorkerStep, t: nat)
    requires PcOk(s.db, s.pc) && WorkEnabled(s, step) && WritesTask(step)
    requires t in s.db.tasks && s.db.tasks[t].status == Running && CurrentTask(s.pc) != Some(t)
    ensures t != s.pc.job.id
  {
    hide StepsAt;
    hide OwnsArtifacts;
    hide Keys;
  }

  /** The worker takes up the task it marks running, and no other. */
  lemma WorkKeepsCurrent(s: State, step: WorkerStep)
    requires WorkEnabled(s, step)
    ensures var now := CurrentTask(ApplyWork(s, step).pc);
      now == None || now == CurrentTask(s.pc) || (step.MarkRunning? && now == Some(s.pc.job.id))
  {
    hide IsNextQueued;
    hide CanRecover;
    hide Lists;
    hide Keys;
    hide Collected;
    hide AfterBeginStep;
    hide AfterEndStep;
    hide AfterFailStep;
    hide Recovered;
    hide CleanupList;
    hide CompleteTask;
    hide FailTask;
    hide MarkTaskRunning;
    hide RecordArtifacts;
    match step
    case BeginStep(ok) => StepPcs(s, ok);
    case EndStep(ok) => StepPcs(s, ok);
    case FailStep(ok) => StepPcs(s, ok);
    case _ =>
  }

  lemma StepPcs(s: State, ok: bool)
    ensures s.pc.BeforeStep? ==> CurrentTask(AfterBeginStep(s, ok).pc) == CurrentTask(s.pc)
    ensures s.pc.StepDone? ==> CurrentTask(AfterEndStep(s, ok).pc) == CurrentTask(s.pc)
    ensures s.pc.StepBroken? ==> CurrentTask(AfterFailStep(s, ok).pc) == CurrentTask(s.pc)
  {
    hide FindStep;
    hide StartStep;
    hide FinishStep;
    hide CurrentStep;
  }

  lemma StepKeepsStranded(s: State, a: Action)
    requires Inv(s) && Enabled(s, a) && StrandedRun(s)
    ensures StrandedRun(Apply(s, a))
  {
    hide RowsOk;
    hide TxsOk;
    hide Coherent;
    hide PcOk;
    hide ObjectsOk;
    hide RiskOk;
    hide StuckOk;
    hide ApiEnabled;
    hide ApplyApi;
    hide WorkEnabled;
    hide ApplyWork;
    match a
    case Api(call) =>
      ApiKeepsStuck(s, call);
      ApiLeavesWorker(s, call);
      forall t | t in s.stuck ensures t in Apply(s, a).db.tasks && Apply(s, a).db.tasks[t] == s.db.tasks[t] {
        ApiMovesNoTask(s, call, t);
      }
    case Work(step) =>
      if !step.RecoverCommit? {
        forall t | t in s.stuck
          ensures t in Apply(s, a).db.tasks && Apply(s, a).db.tasks[t] == s.db.tasks[t]
          ensures CurrentTask(Apply(s, a).pc) != Some(t)
        {
          WorkMovesOnlyItsTask(s, step, t);
        }
      }
      WorkStrands(s, step);
    case Crash =>
  }

  /** What one call of the worker does to the history of stranded tasks. */
  lemma WorkStrands(s: State, step: WorkerStep)
    requires Inv(s) && WorkEnabled(s, step)
    ensures ApplyWork(s, step).stuck ==
      if step.RecoverCommit? then {}
      else if step.MarkFailed? && !step.ok && !s.pc.committed then s.stuck + {s.pc.job.id}
      else s.stuck
    ensures step.MarkFailed? && !step.ok && !s.pc.committed ==>
      var s' := ApplyWork(s, step);
      s'.db == s.db && s'.pc == Idle && s.pc.job.id in s.db.tasks && s.db.tasks[s.pc.job.id].status == Running
  {
    hide RowsOk;
    hide TxsOk;
    hide Coherent;
    hide ObjectsOk;
    hide RiskOk;
    hide StuckOk;
    hide StepsAt;
    hide OwnsArtifacts;
    hide OwnedList;
    hide PendingOk;
    hide IsNextQueued;
    hide CanRecover;
    hide Lists;
    hide FindStep;
    hide StartStep;
    hide FinishStep;
    hide CompleteTask;
    hide Recovered;
    hide CleanupList;
    hide Collected;
    hide Keys;
    hide ResolveRiskLevel;
    if step.MarkFailed? && !s.pc.committed {
      ActiveIsNewest(s.db, s.newest, s.pc.job.id);
    }
  }

  lemma {:induction false} RunKeepsStranded(run: seq<Action>)
    requires ValidRun(INIT, run)
    ensures Inv(Exec(INIT, run)) && StrandedRun(Exec(INIT, run))
    decreases |run|
  {
    hide Inv;
    hide Enabled;
    hide Apply;
    InitInv();
    RunsKeepInv(INIT, run);
    if run != [] {
      hide StrandedRun;
      RunKeepsStranded(run[..|run| - 1]);
      StepKeepsStranded(Exec(INIT, run[..|run| - 1]), run[|run| - 1]);
    }
  }

  lemma RunningIsCurrentOrStranded(s: State)
    requires Inv(s) && StrandedRun(s)
    ensures RunningIds(s.db) == s.stuck + Current(s.pc) && s.stuck !! Current(s.pc)
  {
    hide RowsOk;
    hide TxsOk;
    hide Coherent;
    hide ObjectsOk;
    hide RiskOk;
    hide StepsAt;
    hide OwnsArtifacts;
    hide OwnedList;
    hide Keys;
    hide PendingOk;
    hide ArtsAfter;
  }

  /** After any run the running tasks are the one the worker is executing and the stranded ones, which are
      others; so at most one is not stranded, and while the worker is idle exactly the stranded ones run.
      Without a crash and a failed FailTaskForApp none is stranded. */
  lemma TasksRunOneAtATime(run: seq<Action>)
    requires ValidRun(INIT, run)
    ensures var s := Exec(INIT, run);
      && RunningIds(s.db) == s.stuck + Current(s.pc) && s.stuck !! Current(s.pc)
      && (s.pc.Idle? ==> RunningIds(s.db) == s.stuck)
      && ((forall i :: 0 <= i < |run| ==> !Strands(run[i])) ==> s.stuck == {})
  {
    hide ValidRun;
    hide Exec;
    hide Inv;
    hide StrandedRun;
    hide RunningIds;
    hide Strands;
    RunKeepsStranded(run);
    RunningIsCurrentOrStranded(Exec(INIT, run));
    if forall i :: 0 <= i < |run| ==> !Strands(run[i]) {
      NothingStranded(run);
    }
  }
}
