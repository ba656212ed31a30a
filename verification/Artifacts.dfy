/** What the recorded object keys say: whose they are, and what kind of output they name. */
module Artifacts {
  import opened Wrappers
  import opened Strategy
  import opened Tables
  import opened ObjectKeys
  import opened Pipeline
  import opened Invariants
  import opened ApiCalls
  import opened WorkerSteps
  import opened Theorems

  // ---------------------------------------------------------------- names

  predicate Named(arts: ArtifactFields, taskNo: string, packageName: string, ext: string) {
    && (arts.unsignedKey != "" ==> arts.unsignedKey == ArtifactKey(packageName, taskNo, Unsigned, ext))
    && (arts.signedKey != "" ==> arts.signedKey == ArtifactKey(packageName, taskNo, SignedTest, ext))
  }

  ghost predicate NamedSomehow(arts: ArtifactFields, taskNo: string) {
    exists packageName, ext :: '/' !in ext && Named(arts, taskNo, packageName, ext)
  }

  /** The keys are those of the task's app, and stay well-formed when the app goes. */
  ghost predicate RowNamed(apps: map<nat, AppRow>, row: TaskRow) {
    && NamedSomehow(row.artifacts, row.taskNo)
    && (row.appId in apps ==>
          Named(row.artifacts, row.taskNo, apps[row.appId].packageName, ArtifactExt(apps[row.appId].objectKey)))
  }

  predicate HasJob(pc: Pc) { !pc.Down? && !pc.Idle? && !pc.Cleaning? }

  predicate HasArts(pc: Pc) { pc.BeforeStep? || pc.InStep? || pc.StepDone? || pc.Completing? }

  /** The worker knows its job's app as it is. */
  predicate JobNamed(apps: map<nat, AppRow>, job: Job) {
    job.appId in apps ==>
      job.packageName == apps[job.appId].packageName && job.sourceKey == apps[job.appId].objectKey
  }

  predicate PcNamed(apps: map<nat, AppRow>, pc: Pc) {
    && (HasJob(pc) ==> JobNamed(apps, pc.job))
    && (HasArts(pc) ==> Named(pc.arts, pc.job.taskNo, pc.job.packageName, ArtifactExt(pc.job.sourceKey)))
  }

  ghost predicate NamesOk(s: State) {
    && (forall t :: t in s.db.tasks ==> RowNamed(s.db.apps, s.db.tasks[t]))
    && PcNamed(s.db.apps, s.pc)
  }

  /** No app changes its name or its source, and none comes that the tasks or the worker already know. */
  predicate SameNames(apps: map<nat, AppRow>, apps': map<nat, AppRow>, a: nat) {
    a in apps' ==>
      a in apps && apps'[a].packageName == apps[a].packageName && apps'[a].objectKey == apps[a].objectKey
  }

  lemma NoArtifactsNamed(taskNo: string, packageName: string, ext: string)
    ensures Named(NO_ARTIFACTS, taskNo, packageName, ext) && NamedSomehow(NO_ARTIFACTS, taskNo)
  {
    assert Named(NO_ARTIFACTS, taskNo, "", "");
  }

  lemma ExtHasNoSlash(sourceKey: string)
    ensures '/' !in ArtifactExt(sourceKey)
  {
    hide Ext;
  }

  // ---------------------------------------------------------------- API calls

  lemma ApiKeepsAppNames(s: State, call: ApiCall, a: nat)
    requires Inv(s) && ApiEnabled(s, call) && a < s.db.nextApp
    ensures SameNames(s.db.apps, ApplyApi(s, call).db.apps, a)
  {
    hide Inv;
    hide HasActiveTask;
    hide TaskNoFree;
    hide IsTaskNo;
    hide IsSourceKey;
  }

  lemma KnownApps(s: State)
    requires Inv(s)
    ensures forall t :: t in s.db.tasks ==> s.db.tasks[t].appId < s.db.nextApp
    ensures HasJob(s.pc) ==> s.pc.job.appId < s.db.nextApp
  {
    hide TxsOk;
    hide Coherent;
    hide ObjectsOk;
    hide RiskOk;
    hide StuckOk;
    hide StepsAt;
    hide StepsShaped;
    hide OwnsArtifacts;
    hide OwnedList;
    hide IsTaskNo;
    hide Keys;
    hide IsSourceKey;
    forall t | t in s.db.tasks ensures s.db.tasks[t].appId < s.db.nextApp {
      assert RowOk(s.db, t);
    }
  }

  lemma ApiRows(s: State, call: ApiCall, t: nat)
    requires TxsOk(s.db, s.txs) && ApiEnabled(s, call) && t in ApplyApi(s, call).db.tasks && t !in s.db.tasks
    ensures ApplyApi(s, call).db.tasks[t].artifacts == NO_ARTIFACTS
  {
    hide TxsOk;
    hide HasActiveTask;
    hide TaskNoFree;
    hide IsTaskNo;
    hide IsSourceKey;
    if call.TxCommit? {
      TxIsOk(s.db, s.txs, call.app);
    }
  }

  lemma ApiKeepsNames(s: State, call: ApiCall)
    requires Inv(s) && ApiEnabled(s, call) && NamesOk(s)
    ensures NamesOk(ApplyApi(s, call))
  {
    hide Inv;
    hide ApiEnabled;
    hide ApplyApi;
    hide Named;
    hide NamedSomehow;
    hide ArtifactExt;
    var s' := ApplyApi(s, call);
    KnownApps(s);
    InvTxs(s);
    ApiLeavesWorker(s, call);
    forall t | t in s'.db.tasks ensures RowNamed(s'.db.apps, s'.db.tasks[t]) {
      if t in s.db.tasks {
        ApiMovesNoTask(s, call, t);
        ApiKeepsAppNames(s, call, s.db.tasks[t].appId);
      } else {
        ApiRows(s, call, t);
        EmptyRowNamed(s'.db.apps, s'.db.tasks[t]);
      }
    }
    if HasJob(s.pc) {
      ApiKeepsAppNames(s, call, s.pc.job.appId);
    }
  }

  lemma EmptyRowNamed(apps: map<nat, AppRow>, row: TaskRow)
    requires row.artifacts == NO_ARTIFACTS
    ensures RowNamed(apps, row)
  {
    NoArtifactsNamed(row.taskNo, "", "");
    if row.appId in apps {
      NoArtifactsNamed(row.taskNo, apps[row.appId].packageName, ArtifactExt(apps[row.appId].objectKey));
    }
  }

  // ---------------------------------------------------------------- worker calls

  lemma WorkKeepsAppNames(s: State, step: WorkerStep, a: nat)
    requires WorkEnabled(s, step)
    ensures SameNames(s.db.apps, ApplyWork(s, step).db.apps, a)
  {
    hide IsNextQueued;
    hide CanRecover;
    hide Lists;
    hide Keys;
    hide Unwind;
    hide Collected;
    hide FindStep;
    hide CurrentStep;
    hide IndexOfStep;
    hide PriorIncomplete;
    hide RecoveredSteps;
    hide HasRunningTask;
    hide CleanupList;
    hide ResolveRiskLevel;
  }

  /** Artifact fields come into a row from the worker's hand only. */
  lemma WorkArtifacts(s: State, step: WorkerStep, t: nat)
    requires PcOk(s.db, s.pc) && WorkEnabled(s, step) && t in s.db.tasks
    ensures var tasks := ApplyWork(s, step).db.tasks;
      && t in tasks
      && (tasks[t].artifacts == s.db.tasks[t].artifacts || tasks[t].artifacts == NO_ARTIFACTS
          || (HasArts(s.pc) && t == s.pc.job.id && Holds(s.db, s.pc.job, Running) && tasks[t].artifacts == s.pc.arts))
  {
    hide PcOk;
    hide WorkEnabled;
    hide ApplyWork;
    hide Holds;
    if step.RecoverCommit? {
      RecoveryClears(s, step.ids, step.summary, t);
    } else if !WritesTask(step) {
      WorkLeavesTasks(s, step);
    } else {
      WriterHasJob(s, step);
      if t != s.pc.job.id {
        WorkLeavesOtherTasks(s, step, t);
      } else {
        OwnArtifacts(s, step);
      }
    }
  }

  lemma WriterHasJob(s: State, step: WorkerStep)
    requires WorkEnabled(s, step) && WritesTask(step)
    ensures HasJob(s.pc)
  {
    hide Keys;
  }

  lemma RecoveryClears(s: State, ids: seq<nat>, summary: string, t: nat)
    requires WorkEnabled(s, RecoverCommit(ids, summary)) && t in s.db.tasks
    ensures var tasks := ApplyWork(s, RecoverCommit(ids, summary)).db.tasks;
      t in tasks && (tasks[t].artifacts == s.db.tasks[t].artifacts || tasks[t].artifacts == NO_ARTIFACTS)
  {
    hide RecoveredSteps;
    hide HasRunningTask;
    hide CleanupList;
    hide Lists;
    hide CanRecover;
  }

  lemma OwnArtifacts(s: State, step: WorkerStep)
    requires PcOk(s.db, s.pc) && WorkEnabled(s, step) && WritesTask(step) && s.pc.job.id in s.db.tasks
    ensures var t, tasks := s.pc.job.id, ApplyWork(s, step).db.tasks;
      && t in tasks
      && (tasks[t].artifacts == s.db.tasks[t].artifacts || tasks[t].artifacts == NO_ARTIFACTS
          || (HasArts(s.pc) && Holds(s.db, s.pc.job, Running) && tasks[t].artifacts == s.pc.arts))
  {
    hide StepsAt;
    hide OwnsArtifacts;
    hide Keys;
    hide Unwind;
    hide ResolveRiskLevel;
  }

  lemma CollectedNamed(job: Job, size: int, sha: string, signed: Option<(int, string)>)
    ensures Named(Collected(job, size, sha, signed), job.taskNo, job.packageName, ArtifactExt(job.sourceKey))
  {
    hide ArtifactKey;
    hide ArtifactExt;
  }

  /** The worker keeps its job, and its fields change at the collection only. */
  lemma WorkKeepsArts(s: State, step: WorkerStep)
    requires PcOk(s.db, s.pc) && WorkEnabled(s, step)
    ensures var pc := ApplyWork(s, step).pc;
      && (HasJob(pc) ==> step.Pick? || (HasJob(s.pc) && pc.job == s.pc.job))
      && (HasArts(pc) ==>
            pc.arts == NO_ARTIFACTS || (HasArts(s.pc) && pc.arts == s.pc.arts)
            || (step.Collect? && pc.arts == Collected(s.pc.job, step.unsignedSize, step.unsignedSha, step.signed)))
  {
    hide PcOk;
    hide IsNextQueued;
    hide CanRecover;
    hide Lists;
    hide Keys;
    hide Collected;
    hide AfterBeginStep;
    hide AfterEndStep;
    hide AfterFailStep;
    hide Recovered;
    hide CleanupList;
    hide CompleteTask;
    hide FailTask;
    hide MarkTaskRunning;
    hide RecordArtifacts;
    match step
    case BeginStep(ok) => StepArts(s, ok);
    case EndStep(ok) => StepArts(s, ok);
    case FailStep(ok) => StepArts(s, ok);
    case _ =>
  }

  lemma StepArts(s: State, ok: bool)
    ensures s.pc.BeforeStep? ==> var pc := AfterBeginStep(s, ok).pc;
      HasJob(pc) && pc.job == s.pc.job && (HasArts(pc) ==> pc.arts == s.pc.arts)
    ensures s.pc.StepDone? ==> var pc := AfterEndStep(s, ok).pc;
      HasJob(pc) && pc.job == s.pc.job && (HasArts(pc) ==> pc.arts == s.pc.arts)
    ensures s.pc.StepBroken? ==> var pc := AfterFailStep(s, ok).pc;
      HasJob(pc) && pc.job == s.pc.job && !HasArts(pc)
  {
    hide FindStep;
    hide StartStep;
    hide FinishStep;
    hide CurrentStep;
  }

  lemma PickNamed(s: State, t: nat)
    requires WorkEnabled(s, Pick(t))
    ensures PcNamed(ApplyWork(s, Pick(t)).db.apps, ApplyWork(s, Pick(t)).pc)
  {
  }

  lemma WorkKeepsPcNamed(s: State, step: WorkerStep)
    requires PcOk(s.db, s.pc) && WorkEnabled(s, step) && PcNamed(s.db.apps, s.pc)
    ensures PcNamed(ApplyWork(s, step).db.apps, ApplyWork(s, step).pc)
  {
    hide PcOk;
    hide WorkEnabled;
    hide ApplyWork;
    hide Named;
    hide ArtifactExt;
    hide Collected;
    if step.Pick? {
      PickNamed(s, step.task);
    } else {
      var pc := ApplyWork(s, step).pc;
      WorkKeepsArts(s, step);
      if HasJob(pc) {
        WorkKeepsAppNames(s, step, pc.job.appId);
        NoArtifactsNamed(pc.job.taskNo, pc.job.packageName, ArtifactExt(pc.job.sourceKey));
      }
      if step.Collect? && HasJob(pc) {
        CollectedNamed(pc.job, step.unsignedSize, step.unsignedSha, step.signed);
      }
    }
  }

  lemma RecordedNamed(apps: map<nat, AppRow>, pc: Pc, row: TaskRow)
    requires PcNamed(apps, pc) && HasArts(pc) && row.artifacts == pc.arts
    requires row.taskNo == pc.job.taskNo && row.appId == pc.job.appId
    ensures RowNamed(apps, row)
  {
    hide Named;
    hide ArtifactExt;
    ExtHasNoSlash(pc.job.sourceKey);
  }

  lemma WorkKeepsNames(s: State, step: WorkerStep)
    requires Inv(s) && WorkEnabled(s, step) && NamesOk(s)
    ensures NamesOk(ApplyWork(s, step))
  {
    hide Inv;
    hide WorkEnabled;
    hide ApplyWork;
    hide PcOk;
    hide RowNamed;
    hide PcNamed;
    var s' := ApplyWork(s, step);
    WorkerIsOk(s);
    WorkKeepsPcNamed(s, step);
    forall t | t in s'.db.tasks ensures RowNamed(s'.db.apps, s'.db.tasks[t]) {
      NoWorkAddsTasks(s, step, t);
      WorkKeepsRowNamed(s, step, t);
    }
  }

  lemma NoWorkAddsTasks(s: State, step: WorkerStep, t: nat)
    requires PcOk(s.db, s.pc) && WorkEnabled(s, step) && t in ApplyWork(s, step).db.tasks
    ensures t in s.db.tasks
  {
    hide PcOk;
    hide WorkEnabled;
    hide ApplyWork;
    if step.RecoverCommit? {
      RecoveryKeepsKeys(s, step.ids, step.summary);
    } else if !WritesTask(step) {
      WorkLeavesTasks(s, step);
    } else {
      WritersKeepKeys(s, step);
    }
  }

  lemma RecoveryKeepsKeys(s: State, ids: seq<nat>, summary: string)
    requires WorkEnabled(s, RecoverCommit(ids, summary))
    ensures ApplyWork(s, RecoverCommit(ids, summary)).db.tasks.Keys == s.db.tasks.Keys
  {
    hide RecoveredSteps;
    hide HasRunningTask;
    hide CleanupList;
    hide Lists;
    hide CanRecover;
  }

  lemma WritersKeepKeys(s: State, step: WorkerStep)
    requires WorkEnabled(s, step) && WritesTask(step)
    ensures ApplyWork(s, step).db.tasks.Keys == s.db.tasks.Keys
  {
    hide Keys;
    hide Unwind;
    hide ResolveRiskLevel;
  }

  lemma WorkKeepsRowNamed(s: State, step: WorkerStep, t: nat)
    requires PcOk(s.db, s.pc) && WorkEnabled(s, step) && t in s.db.tasks
    requires RowNamed(s.db.apps, s.db.tasks[t]) && PcNamed(s.db.apps, s.pc)
    ensures t in ApplyWork(s, step).db.tasks
    ensures RowNamed(ApplyWork(s, step).db.apps, ApplyWork(s, step).db.tasks[t])
  {
    hide PcOk;
    hide WorkEnabled;
    hide ApplyWork;
    hide PcNamed;
    WorkArtifacts(s, step, t);
    var row, row' := s.db.tasks[t], ApplyWork(s, step).db.tasks[t];
    WorkFollows(s, step, t);
    WorkKeepsAppNames(s, step, row.appId);
    if row'.artifacts == NO_ARTIFACTS {
      EmptyRowNamed(ApplyWork(s, step).db.apps, row');
    } else if row'.artifacts != row.artifacts {
      RecordedNamed(s.db.apps, s.pc, row.(artifacts := s.pc.arts));
    }
  }

  // ---------------------------------------------------------------- over all runs

  lemma {:induction false} RunKeepsNames(run: seq<Action>)
    requires ValidRun(INIT, run)
    ensures Inv(Exec(INIT, run)) && NamesOk(Exec(INIT, run))
    decreases |run|
  {
    hide Inv;
    hide ApiEnabled;
    hide ApplyApi;
    hide WorkEnabled;
    hide ApplyWork;
    InitInv();
    RunsKeepInv(INIT, run);
    if run != [] {
      hide NamesOk;
      RunKeepsNames(run[..|run| - 1]);
      var s, a := Exec(INIT, run[..|run| - 1]), run[|run| - 1];
      match a
      case Api(call) => ApiKeepsNames(s, call);
      case Work(step) => WorkKeepsNames(s, step);
      case Crash => CrashKeepsNames(s);
    }
  }

  lemma CrashKeepsNames(s: State)
    requires NamesOk(s)
    ensures NamesOk(AfterCrash(s))
  {
    hide RowNamed;
  }

  /** A key of four segments: some package, the folder, the task, and a file of the kind. */
  predicate NamesKind(key: string, taskNo: string, kind: string) {
    var parts := Split(key);
    |parts| == 4 && parts[1] == "hardening" && parts[2] == taskNo && kind <= parts[3]
  }

  /** And all of it, for the app that the task belongs to. */
  predicate NamesApp(key: string, taskNo: string, kind: string, app: AppRow) {
    Split(key) == [SanitizeSegment(app.packageName), "hardening", taskNo,
                   kind + if Ext(app.objectKey) == "" then ".apk" else Ext(app.objectKey)]
  }

  /** In every reachable state a recorded unsigned key names an unsigned output of its task, a recorded signed
      key a signed one, and both name the task's app and its extension as long as the app exists. */
  lemma ArtifactsAreNamed(s: State, t: nat)
    requires Reachable(s) && t in s.db.tasks
    ensures var row := s.db.tasks[t];
      && (row.artifacts.unsignedKey != "" ==> NamesKind(row.artifacts.unsignedKey, row.taskNo, "unsigned"))
      && (row.artifacts.signedKey != "" ==> NamesKind(row.artifacts.signedKey, row.taskNo, "signed_test"))
    ensures var row := s.db.tasks[t];
      row.appId in s.db.apps ==>
        && (row.artifacts.unsignedKey != "" ==>
              NamesApp(row.artifacts.unsignedKey, row.taskNo, "unsigned", s.db.apps[row.appId]))
        && (row.artifacts.signedKey != "" ==>
              NamesApp(row.artifacts.signedKey, row.taskNo, "signed_test", s.db.apps[row.appId]))
  {
    hide ValidRun;
    hide Exec;
    hide Inv;
    hide Named;
    hide NamesKind;
    hide NamesApp;
    hide ArtifactExt;
    var run :| ValidRun(INIT, run) && Exec(INIT, run) == s;
    RunKeepsNames(run);
    TaskNoOk(s, t);
    var row := s.db.tasks[t];
    assert RowNamed(s.db.apps, row);
    var packageName, ext :| '/' !in ext && Named(row.artifacts, row.taskNo, packageName, ext);
    NamedKinds(row.artifacts, row.taskNo, packageName, ext);
    if row.appId in s.db.apps {
      NamedForApp(row.artifacts, row.taskNo, s.db.apps[row.appId]);
    }
  }

  lemma TaskNoOk(s: State, t: nat)
    requires Inv(s) && t in s.db.tasks
    ensures '/' !in s.db.tasks[t].taskNo
  {
    hide TxsOk;
    hide Coherent;
    hide PcOk;
    hide ObjectsOk;
    hide RiskOk;
    hide StepsShaped;
    hide StepsAt;
    assert RowOk(s.db, t);
  }

  lemma NamedKinds(arts: ArtifactFields, taskNo: string, packageName: string, ext: string)
    requires Named(arts, taskNo, packageName, ext) && '/' !in taskNo && '/' !in ext
    ensures arts.unsignedKey != "" ==> NamesKind(arts.unsignedKey, taskNo, "unsigned")
    ensures arts.signedKey != "" ==> NamesKind(arts.signedKey, taskNo, "signed_test")
  {
    hide ArtifactKey;
    ArtifactKeySegments(packageName, taskNo, Unsigned, ext);
    ArtifactKeySegments(packageName, taskNo, SignedTest, ext);
  }

  lemma NamedForApp(arts: ArtifactFields, taskNo: string, app: AppRow)
    requires Named(arts, taskNo, app.packageName, ArtifactExt(app.objectKey)) && '/' !in taskNo
    ensures arts.unsignedKey != "" ==> NamesApp(arts.unsignedKey, taskNo, "unsigned", app)
    ensures arts.signedKey != "" ==> NamesApp(arts.signedKey, taskNo, "signed_test", app)
  {
    hide ArtifactKey;
    hide Ext;
    var ext := ArtifactExt(app.objectKey);
    ExtHasNoSlash(app.objectKey);
    ArtifactKeySegments(app.packageName, taskNo, Unsigned, ext);
    ArtifactKeySegments(app.packageName, taskNo, SignedTest, ext);
  }
}
