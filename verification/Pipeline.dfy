/** The hardening pipeline as a state machine: many API calls, one worker loop, and crashes, over the
    database, the object store and the worker's volatile state.  One action is one atomic call; the
    flag of an action says whether that call succeeded.  Between any two actions of one actor every
    other actor may act. */
module Pipeline {
  import opened Wrappers
  import opened Strategy
  import opened Tables
  import opened ObjectKeys

  // ---------------------------------------------------------------- state

  /** What NextQueuedTask loads: the task row with its app. */
  datatype Job = Job(id: nat, taskNo: string, appId: nat, packageName: string, sourceKey: string, snapshot: Strategy)

  /** CreateTaskWithStepsForApp between its statements.  The transaction holds its app's row lock. */
  datatype Tx =
    | Locked
    | Counted
    | Inserting(id: nat, row: TaskRow, steps: seq<StepRow>)
    | AppUpdated(id: nat, row: TaskRow, steps: seq<StepRow>)

  /** Where the worker stands. `puts` and `rest` are uploadedKeys; `committed` is what a nil error of
      CompleteTaskForApp means. */
  datatype Pc =
    | Down
    | Cleaning(pending: seq<(nat, string)>)
    | Idle
    | Picked(job: Job)
    | Entering(job: Job)
    | BeforeStep(job: Job, k: nat, arts: ArtifactFields)
    | InStep(job: Job, k: nat, arts: ArtifactFields, puts: seq<string>)
    | StepDone(job: Job, k: nat, arts: ArtifactFields, puts: seq<string>)
    | StepBroken(job: Job, k: nat, puts: seq<string>)
    | Completing(job: Job, arts: ArtifactFields)
    | RollingBack(job: Job, rest: seq<string>)
    | Leaving(job: Job, committed: bool)
    | MarkingFailed(job: Job, committed: bool)

  /** `txs` maps an app id to the transaction that holds its row lock.  The last four fields record
      history and no action ever looks at them: objects that may have lost their last reference,
      tasks left running without a worker, the newest task of each app, completions in order. */
  datatype State = State(
    db: Db, objects: set<string>, txs: map<nat, Tx>, pc: Pc,
    leak: set<string>, stuck: set<nat>, newest: map<nat, nat>, completions: seq<nat>)

  const INIT := State(Db(map[], map[], map[], 0, 0), {}, map[], Down, {}, {}, map[], [])

  datatype ApiCall =
    | PutSource(key: string)
    | RemoveSource(key: string)
    | InsertApp(packageName: string, objectKey: string)
    | DeleteApp(app: nat)
    | TxLock(app: nat)
    | TxCount(app: nat)
    | TxInsert(app: nat, row: TaskRow)
    | TxInsertStep(app: nat)
    | TxUpdateApp(app: nat)
    | TxCommit(app: nat)
    | TxAbort(app: nat)

  datatype WorkerStep =
    | RecoverFail
    | RecoverCommit(ids: seq<nat>, summary: string)
    | CleanOne(ok: bool, gone: bool)
    | Pick(task: nat)
    | MarkRunning(ok: bool)
    | MakeDir(ok: bool)
    | BeginStep(ok: bool)
    | BodyOk
    | Collect(unsignedSize: int, unsignedSha: string, signed: Option<(int, string)>)
    | BodyFail
    | Put(ok: bool, landed: bool)
    | Record(ok: bool)
    | EndStep(ok: bool)
    | FailStep(ok: bool)
    | Complete(ok: bool)
    | RollBackOne(ok: bool, gone: bool)
    | RemoveDir(ok: bool)
    | MarkFailed(ok: bool, summary: string)

  datatype Action = Api(call: ApiCall) | Work(step: WorkerStep) | Crash

  // ---------------------------------------------------------------- helpers

  function JobOf(db: Db, t: nat): Job
    requires t in db.tasks
  {
    var row := db.tasks[t];
    if row.appId in db.apps
    then Job(t, row.taskNo, row.appId, db.apps[row.appId].packageName, db.apps[row.appId].objectKey, row.snapshot)
    else Job(t, row.taskNo, row.appId, "", "", row.snapshot)
  }

  function Collected(job: Job, unsignedSize: int, unsignedSha: string, signed: Option<(int, string)>): ArtifactFields {
    var ext := ArtifactExt(job.sourceKey);
    var unsignedKey := ArtifactKey(job.packageName, job.taskNo, Unsigned, ext);
    match signed
    case None => ArtifactFields(unsignedKey, unsignedSize, unsignedSha, "", 0, "")
    case Some((size, sha)) =>
      ArtifactFields(unsignedKey, unsignedSize, unsignedSha,
                     ArtifactKey(job.packageName, job.taskNo, SignedTest, ext), size, sha)
  }

  /** runTask returns an error: the rollback defer runs first, and only if something was uploaded. */
  function Unwind(job: Job, puts: seq<string>): Pc {
    if puts == [] then Leaving(job, false) else RollingBack(job, puts)
  }

  /** The two loops of cleanupRecoveredArtifacts, flattened. */
  function CleanupList(db: Db, ids: seq<nat>): seq<(nat, string)>
    requires forall i :: 0 <= i < |ids| ==> ids[i] in db.tasks
  {
    if ids == [] then [] else Tagged(ids[0], Keys(db.tasks[ids[0]].artifacts)) + CleanupList(db, ids[1..])
  }

  function Tagged(t: nat, keys: seq<string>): (r: seq<(nat, string)>)
    ensures |r| == |keys| && forall i :: 0 <= i < |r| ==> r[i] == (t, keys[i])
  {
    if keys == [] then [] else [(t, keys[0])] + Tagged(t, keys[1..])
  }

  function AfterCleaning(pending: seq<(nat, string)>): Pc {
    if pending == [] then Idle else Cleaning(pending)
  }

  ghost predicate Lists(s: seq<nat>, elements: set<nat>) {
    && (forall i :: 0 <= i < |s| ==> s[i] in elements)
    && (forall t :: t in elements ==> t in s)
    && (forall i, j :: 0 <= i < j < |s| ==> s[i] != s[j])
  }

  /** Objects the running attempt has put and not yet handed to the database for good or deleted. */
  function Uploads(pc: Pc): seq<string> {
    match pc
    case InStep(_, _, _, puts) => puts
    case StepDone(_, _, _, puts) => puts
    case StepBroken(_, _, puts) => puts
    case Completing(_, arts) => Keys(arts)
    case RollingBack(_, rest) => rest
    case _ => []
  }

  /** Keys a recovery still wants to delete. */
  function PendingKeys(pc: Pc): set<string> {
    if pc.Cleaning? then set i | 0 <= i < |pc.pending| :: pc.pending[i].1 else {}
  }

  predicate Recorded(db: Db, key: string) {
    exists t :: t in db.tasks && key in Keys(db.tasks[t].artifacts)
  }

  /** Uploads no row points at: what a crash makes unreachable. */
  function Unrecorded(s: State): set<string> {
    set key | key in Uploads(s.pc) && !Recorded(s.db, key)
  }

  /** The unique index on task_no, seen by an insert. */
  predicate TaskNoFree(s: State, app: nat, taskNo: string) {
    && (forall t :: t in s.db.tasks ==> s.db.tasks[t].taskNo != taskNo)
    && (forall b :: b in s.txs && b != app && HasInsert(s.txs[b]) ==> s.txs[b].row.taskNo != taskNo)
  }

  predicate HasInsert(tx: Tx) { tx.Inserting? || tx.AppUpdated? }

  // ---------------------------------------------------------------- enabling

  ghost predicate Enabled(s: State, a: Action) {
    match a
    case Api(call) => ApiEnabled(s, call)
    case Work(step) => WorkEnabled(s, step)
    case Crash => true
  }

  predicate ApiEnabled(s: State, call: ApiCall) {
    match call
    case PutSource(key) => IsSourceKey(key)
    case RemoveSource(key) => IsSourceKey(key)
    case InsertApp(_, objectKey) => IsSourceKey(objectKey)
    case DeleteApp(app) => app in s.db.apps && app !in s.txs && !HasActiveTask(s.db, app)
    case TxLock(app) => app in s.db.apps && app !in s.txs
    case TxCount(app) => app in s.txs && s.txs[app].Locked?
    case TxInsert(app, row) =>
      && app in s.txs && s.txs[app].Counted?
      && row.appId == app && row.status == Queued && row.artifacts == NO_ARTIFACTS
      && IsTaskNo(row.taskNo) && TaskNoFree(s, app, row.taskNo)
    case TxInsertStep(app) => app in s.txs && s.txs[app].Inserting? && |s.txs[app].steps| < 6
    case TxUpdateApp(app) => app in s.txs && s.txs[app].Inserting? && |s.txs[app].steps| == 6
    case TxCommit(app) => app in s.txs && s.txs[app].AppUpdated? && app in s.db.apps
    case TxAbort(app) => app in s.txs
  }

  ghost predicate WorkEnabled(s: State, step: WorkerStep) {
    match step
    case RecoverFail => s.pc.Down?
    case RecoverCommit(ids, _) => s.pc.Down? && Lists(ids, RunningIds(s.db)) && CanRecover(s.db)
    case CleanOne(_, _) => s.pc.Cleaning? && s.pc.pending != []
    case Pick(t) => s.pc.Idle? && IsNextQueued(s.db, t)
    case MarkRunning(_) => s.pc.Picked?
    case MakeDir(_) => s.pc.Entering?
    case BeginStep(_) => s.pc.BeforeStep?
    case BodyOk => s.pc.InStep? && s.pc.k <= 4
    case Collect(unsignedSize, _, signed) =>
      s.pc.InStep? && s.pc.k == 5 && unsignedSize > 0 && (signed.Some? ==> signed.value.0 > 0)
    case BodyFail => s.pc.InStep?
    case Put(_, _) => s.pc.InStep? && s.pc.k == 6 && |s.pc.puts| < |Keys(s.pc.arts)|
    case Record(_) => s.pc.InStep? && s.pc.k == 6 && |s.pc.puts| == |Keys(s.pc.arts)|
    case EndStep(_) => s.pc.StepDone?
    case FailStep(_) => s.pc.StepBroken?
    case Complete(_) => s.pc.Completing?
    case RollBackOne(_, _) => s.pc.RollingBack? && s.pc.rest != []
    case RemoveDir(_) => s.pc.Leaving?
    case MarkFailed(_, _) => s.pc.MarkingFailed?
  }

  // ---------------------------------------------------------------- effects

  ghost function Apply(s: State, a: Action): State
    requires Enabled(s, a)
  {
    match a
    case Api(call) => ApplyApi(s, call)
    case Work(step) => ApplyWork(s, step)
    case Crash => AfterCrash(s)
  }

  function ApplyApi(s: State, call: ApiCall): State
    requires ApiEnabled(s, call)
  {
    match call
    case PutSource(key) => s.(objects := s.objects + {key})
    case RemoveSource(key) => s.(objects := s.objects - {key})
    case InsertApp(packageName, objectKey) => AfterInsertApp(s, packageName, objectKey)
    case DeleteApp(app) => s.(db := s.db.(apps := s.db.apps - {app}))
    case TxLock(app) => s.(txs := s.txs[app := Locked])
    case TxCount(app) => if HasActiveTask(s.db, app) then s.(txs := s.txs - {app}) else s.(txs := s.txs[app := Counted])
    case TxInsert(app, row) =>
      s.(db := s.db.(nextTask := s.db.nextTask + 1),
         txs := s.txs[app := Inserting(s.db.nextTask, row, [])])
    case TxInsertStep(app) =>
      var tx := s.txs[app];
      s.(txs := s.txs[app := Inserting(tx.id, tx.row, tx.steps + [DefaultStep(|tx.steps| + 1)])])
    case TxUpdateApp(app) => s.(txs := s.txs[app := AppUpdated(s.txs[app].id, s.txs[app].row, s.txs[app].steps)])
    case TxCommit(app) => AfterCommit(s, app)
    case TxAbort(app) => s.(txs := s.txs - {app})
  }

  ghost function ApplyWork(s: State, step: WorkerStep): State
    requires WorkEnabled(s, step)
  {
    match step
    case RecoverFail => s.(pc := Idle)
    case RecoverCommit(ids, summary) =>
      s.(db := Recovered(s.db, summary), pc := AfterCleaning(CleanupList(s.db, ids)), stuck := {})
    case CleanOne(ok, gone) => AfterCleanOne(s, ok, gone)
    case Pick(t) => s.(pc := Picked(JobOf(s.db, t)))
    case MarkRunning(ok) => AfterMarkRunning(s, ok)
    case MakeDir(ok) => s.(pc := if ok then BeforeStep(s.pc.job, 1, NO_ARTIFACTS) else MarkingFailed(s.pc.job, false))
    case BeginStep(ok) => AfterBeginStep(s, ok)
    case BodyOk => s.(pc := StepDone(s.pc.job, s.pc.k, s.pc.arts, s.pc.puts))
    case Collect(size, sha, signed) =>
      s.(pc := StepDone(s.pc.job, s.pc.k, Collected(s.pc.job, size, sha, signed), s.pc.puts))
    case BodyFail => s.(pc := StepBroken(s.pc.job, s.pc.k, s.pc.puts))
    case Put(ok, landed) => AfterPut(s, ok, landed)
    case Record(ok) => AfterRecord(s, ok)
    case EndStep(ok) => AfterEndStep(s, ok)
    case FailStep(ok) => AfterFailStep(s, ok)
    case Complete(ok) => AfterComplete(s, ok)
    case RollBackOne(ok, gone) => AfterRollBackOne(s, ok, gone)
    case RemoveDir(ok) => s.(pc := if s.pc.committed && ok then Idle else MarkingFailed(s.pc.job, s.pc.committed))
    case MarkFailed(ok, summary) => AfterMarkFailed(s, ok, summary)
  }

  function AfterInsertApp(s: State, packageName: string, objectKey: string): State {
    var row := AppRow(packageName, objectKey, AppUnprotected, None);
    s.(db := s.db.(apps := s.db.apps[s.db.nextApp := row], nextApp := s.db.nextApp + 1))
  }

  function AfterCommit(s: State, app: nat): State
    requires app in s.txs && s.txs[app].AppUpdated? && app in s.db.apps
  {
    var tx := s.txs[app];
    s.(db := InsertCommitted(s.db, app, tx.id, tx.row, tx.steps),
       txs := s.txs - {app},
       newest := s.newest[app := tx.id])
  }

  /** A delete may take effect and still report an error; the leak history then names what is gone. */
  function AfterCleanOne(s: State, ok: bool, gone: bool): State
    requires s.pc.Cleaning? && s.pc.pending != []
  {
    var key := s.pc.pending[0].1;
    s.(objects := if ok || gone then s.objects - {key} else s.objects,
       leak := if ok then s.leak else s.leak + {key},
       pc := AfterCleaning(s.pc.pending[1..]))
  }

  function AfterMarkRunning(s: State, ok: bool): State
    requires s.pc.Picked?
  {
    match MarkTaskRunning(s.db, s.pc.job.id)
    case Some(db) => if ok then s.(db := db, pc := Entering(s.pc.job)) else s.(pc := Idle)
    case None => s.(pc := Idle)
  }

  function AfterBeginStep(s: State, ok: bool): State
    requires s.pc.BeforeStep?
  {
    var job, k := s.pc.job, s.pc.k;
    match FindStep(s.db, job.id, StepKeyAt(k))
    case None => s.(pc := Unwind(job, []))
    case Some(i) =>
      match StartStep(s.db, job.id, i)
      case None => s.(pc := Unwind(job, []))
      case Some(db) => if ok then s.(db := db, pc := InStep(job, k, s.pc.arts, [])) else s.(pc := Unwind(job, []))
  }

  /** An upload may land and still report an error, after a time-out for one: nobody will ever know of it. */
  function AfterPut(s: State, ok: bool, landed: bool): State
    requires s.pc.InStep? && |s.pc.puts| < |Keys(s.pc.arts)|
  {
    var key := Keys(s.pc.arts)[|s.pc.puts|];
    if ok then s.(objects := s.objects + {key}, pc := InStep(s.pc.job, s.pc.k, s.pc.arts, s.pc.puts + [key]))
    else
      s.(objects := if landed then s.objects + {key} else s.objects,
         leak := if landed then s.leak + {key} else s.leak,
         pc := StepBroken(s.pc.job, s.pc.k, s.pc.puts))
  }

  function AfterRecord(s: State, ok: bool): State
    requires s.pc.InStep?
  {
    match RecordArtifacts(s.db, s.pc.job.id, s.pc.arts)
    case Some(db) =>
      if ok then s.(db := db, pc := StepDone(s.pc.job, s.pc.k, s.pc.arts, s.pc.puts))
      else s.(pc := StepBroken(s.pc.job, s.pc.k, s.pc.puts))
    case None => s.(pc := StepBroken(s.pc.job, s.pc.k, s.pc.puts))
  }

  /** The step row the worker found at the start of step k. */
  function CurrentStep(s: State, job: Job, k: nat): nat {
    var found := FindStep(s.db, job.id, StepKeyAt(k));
    if found.Some? then found.value else 0
  }

  function AfterEndStep(s: State, ok: bool): State
    requires s.pc.StepDone?
  {
    var job, k := s.pc.job, s.pc.k;
    match FinishStep(s.db, job.id, CurrentStep(s, job, k), StepSuccess)
    case Some(db) =>
      if ok then s.(db := db, pc := if k < 6 then BeforeStep(job, k + 1, s.pc.arts) else Completing(job, s.pc.arts))
      else s.(pc := Unwind(job, s.pc.puts))
    case None => s.(pc := Unwind(job, s.pc.puts))
  }

  /** The error of FinishStepFailed is dropped. */
  function AfterFailStep(s: State, ok: bool): State
    requires s.pc.StepBroken?
  {
    var job, k := s.pc.job, s.pc.k;
    var pc := Unwind(job, s.pc.puts);
    match FinishStep(s.db, job.id, CurrentStep(s, job, k), StepFailed)
    case Some(db) => if ok then s.(db := db, pc := pc) else s.(pc := pc)
    case None => s.(pc := pc)
  }

  function AfterComplete(s: State, ok: bool): State
    requires s.pc.Completing?
  {
    var job, arts := s.pc.job, s.pc.arts;
    match CompleteTask(s.db, job.id, arts, ResolveRiskLevel(job.snapshot))
    case Some(db) =>
      if ok then s.(db := db, pc := Leaving(job, true), completions := s.completions + [job.id])
      else s.(pc := Unwind(job, Keys(arts)))
    case None => s.(pc := Unwind(job, Keys(arts)))
  }

  function AfterRollBackOne(s: State, ok: bool, gone: bool): State
    requires s.pc.RollingBack? && s.pc.rest != []
  {
    var last := |s.pc.rest| - 1;
    var key := s.pc.rest[last];
    s.(objects := if ok || gone then s.objects - {key} else s.objects,
       leak := if ok then s.leak else s.leak + {key},
       pc := Unwind(s.pc.job, s.pc.rest[..last]))
  }

  function AfterMarkFailed(s: State, ok: bool, summary: string): State
    requires s.pc.MarkingFailed?
  {
    match FailTask(s.db, s.pc.job.id, summary)
    case Some(db) =>
      if ok then s.(db := db, pc := Idle) else s.(pc := Idle, stuck := s.stuck + {s.pc.job.id})
    case None => s.(pc := Idle)
  }

  /** Open transactions roll back and release their locks; the worker forgets everything. */
  function AfterCrash(s: State): State {
    s.(txs := map[], pc := Down,
       leak := s.leak + Unrecorded(s) + PendingKeys(s.pc),
       stuck := s.stuck + RunningIds(s.db))
  }

  // ---------------------------------------------------------------- runs

  ghost predicate ValidRun(s: State, run: seq<Action>)
    decreases |run|, 0
  {
    run == [] || (ValidRun(s, run[..|run| - 1]) && Enabled(Exec(s, run[..|run| - 1]), run[|run| - 1]))
  }

  ghost function Exec(s: State, run: seq<Action>): State
    requires ValidRun(s, run)
    decreases |run|, 1
  {
    if run == [] then s else Apply(Exec(s, run[..|run| - 1]), run[|run| - 1])
  }

  ghost predicate Reachable(s: State) {
    exists run :: ValidRun(INIT, run) && Exec(INIT, run) == s
  }
}
