/** The database rows of the hardening pipeline and its guarded transitions as functions.
    A transition that its WHERE clause, its row locks or a missing row reject yields None: the
    transaction rolls back and nothing changes. */
module Tables {
  import opened Wrappers
  import opened Strategy

  datatype TaskStatus = Queued | Running | Completed | Failed
  datatype StepStatus = StepWaiting | StepRunning | StepSuccess | StepFailed
  datatype AppStatus = AppUnprotected | AppProcessing | AppCompleted | AppFailed
  datatype StepKey =
    | PrepareInput | ParsePackage | ApplyStrategy | RunEngine | CollectArtifacts | UploadArtifacts

  datatype ArtifactFields = ArtifactFields(
    unsignedKey: string, unsignedSize: int, unsignedSha: string,
    signedKey: string, signedSize: int, signedSha: string)

  const NO_ARTIFACTS := ArtifactFields("", 0, "", "", 0, "")

  datatype AppRow = AppRow(packageName: string, objectKey: string, status: AppStatus, risk: Option<RiskLevel>)
  datatype TaskRow = TaskRow(
    taskNo: string, appId: nat, status: TaskStatus, strategyName: string, snapshot: Strategy,
    artifacts: ArtifactFields, errorSummary: string, createdAt: int)
  datatype StepRow = StepRow(key: StepKey, sortOrder: nat, status: StepStatus)

  /** The tables; the steps of a task are listed in the order of their row ids.
      nextApp and nextTask are the id sequences, which never hand out an id twice. */
  datatype Db = Db(
    apps: map<nat, AppRow>, tasks: map<nat, TaskRow>, steps: map<nat, seq<StepRow>>,
    nextApp: nat, nextTask: nat)

  predicate Active(status: TaskStatus) { status == Queued || status == Running }

  predicate HasActiveTask(db: Db, app: nat) {
    exists t :: t in db.tasks && db.tasks[t].appId == app && Active(db.tasks[t].status)
  }

  function RunningIds(db: Db): set<nat> {
    set t | t in db.tasks && db.tasks[t].status == Running
  }

  /** The recorded object keys of a row, unsigned first, empty ones skipped. */
  function Keys(arts: ArtifactFields): seq<string> {
    (if arts.unsignedKey == "" then [] else [arts.unsignedKey])
    + (if arts.signedKey == "" then [] else [arts.signedKey])
  }

  // ---------------------------------------------------------------- creation

  function StepKeyAt(order: nat): StepKey {
    if order <= 1 then PrepareInput else if order == 2 then ParsePackage else if order == 3 then ApplyStrategy
    else if order == 4 then RunEngine else if order == 5 then CollectArtifacts else UploadArtifacts
  }

  /** The n-th template of defaultHardeningSteps. */
  function DefaultStep(n: nat): StepRow { StepRow(StepKeyAt(n), n, StepWaiting) }

  function InsertCommitted(db: Db, app: nat, id: nat, row: TaskRow, steps: seq<StepRow>): Db
    requires app in db.apps
  {
    db.(apps := db.apps[app := db.apps[app].(status := AppProcessing)],
        tasks := db.tasks[id := row],
        steps := db.steps[id := steps])
  }

  // ---------------------------------------------------------------- picking

  /** (created_at, id) order of the queue. */
  predicate Before(db: Db, t: nat, u: nat)
    requires t in db.tasks && u in db.tasks
  {
    db.tasks[t].createdAt < db.tasks[u].createdAt
    || (db.tasks[t].createdAt == db.tasks[u].createdAt && t < u)
  }

  ghost predicate IsNextQueued(db: Db, t: nat) {
    && t in db.tasks && db.tasks[t].status == Queued
    && forall u :: u in db.tasks && db.tasks[u].status == Queued && u != t ==> Before(db, t, u)
  }

  // ---------------------------------------------------------------- task transitions

  function MarkTaskRunning(db: Db, t: nat): Option<Db> {
    if t in db.tasks && db.tasks[t].status == Queued
    then Some(db.(tasks := db.tasks[t := db.tasks[t].(status := Running)]))
    else None
  }

  function RecordArtifacts(db: Db, t: nat, arts: ArtifactFields): Option<Db> {
    if t in db.tasks then Some(db.(tasks := db.tasks[t := db.tasks[t].(artifacts := arts)])) else None
  }

  /** transitionTaskForApp: the task row moves only from `expected`, and only together with its app row.
      A risk of None leaves the app's risk level as it is. */
  function TransitionTaskForApp(db: Db, t: nat, expected: TaskStatus, status: TaskStatus, arts: ArtifactFields,
                                summary: string, appStatus: AppStatus, risk: Option<RiskLevel>): Option<Db>
  {
    if t !in db.tasks || db.tasks[t].status != expected || db.tasks[t].appId !in db.apps then None
    else
      var a := db.tasks[t].appId;
      var app := db.apps[a];
      Some(db.(
        tasks := db.tasks[t := db.tasks[t].(status := status, artifacts := arts, errorSummary := summary)],
        apps := db.apps[a := app.(status := appStatus, risk := if risk.Some? then risk else app.risk)]))
  }

  function CompleteTask(db: Db, t: nat, arts: ArtifactFields, risk: RiskLevel): Option<Db> {
    TransitionTaskForApp(db, t, Running, Completed, arts, "", AppCompleted, Some(risk))
  }

  function FailTask(db: Db, t: nat, summary: string): Option<Db> {
    TransitionTaskForApp(db, t, Running, Failed, NO_ARTIFACTS, summary, AppFailed, None)
  }

  // ---------------------------------------------------------------- recovery

  /** Every running task still has its app row, so no update of the recovery transaction comes back empty. */
  predicate CanRecover(db: Db) {
    forall t :: t in db.tasks && db.tasks[t].status == Running ==> db.tasks[t].appId in db.apps
  }

  predicate HasRunningTask(db: Db, app: nat) {
    exists t :: t in db.tasks && db.tasks[t].appId == app && db.tasks[t].status == Running
  }

  function RecoveredTask(row: TaskRow, summary: string): TaskRow {
    if row.status == Running then row.(status := Failed, artifacts := NO_ARTIFACTS, errorSummary := summary) else row
  }

  function RecoveredSteps(rows: seq<StepRow>): (r: seq<StepRow>)
    ensures |r| == |rows|
    ensures forall i :: 0 <= i < |rows| ==>
      r[i] == if rows[i].status == StepRunning then rows[i].(status := StepFailed) else rows[i]
  {
    if rows == [] then []
    else [if rows[0].status == StepRunning then rows[0].(status := StepFailed) else rows[0]] + RecoveredSteps(rows[1..])
  }

  /** All rows of one successful recovery, at once. */
  function Recovered(db: Db, summary: string): Db {
    db.(
      tasks := map t | t in db.tasks :: RecoveredTask(db.tasks[t], summary),
      apps := map a | a in db.apps :: if HasRunningTask(db, a) then db.apps[a].(status := AppFailed) else db.apps[a],
      steps := map t | t in db.steps ::
        if t in RunningIds(db) then RecoveredSteps(db.steps[t]) else db.steps[t])
  }

  // ---------------------------------------------------------------- steps

  function IndexOfStep(rows: seq<StepRow>, key: StepKey): (r: Option<nat>)
    ensures r.Some? ==> r.value < |rows| && rows[r.value].key == key
                        && forall j :: 0 <= j < r.value ==> rows[j].key != key
    ensures r.None? ==> forall j :: 0 <= j < |rows| ==> rows[j].key != key
  {
    if rows == [] then None
    else if rows[0].key == key then Some(0)
    else match IndexOfStep(rows[1..], key)
      case None => None
      case Some(i) =>
        assert forall j :: 0 < j < |rows| ==> rows[j] == rows[1..][j - 1];
        Some(i + 1)
  }

  function FindStep(db: Db, t: nat, key: StepKey): Option<nat> {
    if t in db.steps then IndexOfStep(db.steps[t], key) else None
  }

  predicate PriorIncomplete(rows: seq<StepRow>, i: nat)
    requires i < |rows|
  {
    exists j :: 0 <= j < |rows| && rows[j].sortOrder < rows[i].sortOrder && rows[j].status != StepSuccess
  }

  function SetStep(db: Db, t: nat, i: nat, status: StepStatus): Db
    requires t in db.steps && i < |db.steps[t]|
  {
    db.(steps := db.steps[t := db.steps[t][i := db.steps[t][i].(status := status)]])
  }

  /** StartStep: a waiting step of a running task, after all steps before it succeeded. */
  function StartStep(db: Db, t: nat, i: nat): Option<Db> {
    if t !in db.steps || i >= |db.steps[t]| || db.steps[t][i].status != StepWaiting then None
    else if t !in db.tasks || db.tasks[t].status != Running then None
    else if PriorIncomplete(db.steps[t], i) then None
    else Some(SetStep(db, t, i, StepRunning))
  }

  function FinishStep(db: Db, t: nat, i: nat, status: StepStatus): Option<Db> {
    if t in db.steps && i < |db.steps[t]| && db.steps[t][i].status == StepRunning
    then Some(SetStep(db, t, i, status))
    else None
  }
}
