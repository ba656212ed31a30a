/** What every reachable state of the pipeline satisfies. */
module Invariants {
  import opened Wrappers
  import opened Strategy
  import opened Tables
  import opened ObjectKeys
  import opened Pipeline

  // ---------------------------------------------------------------- rows

  /** Artifact fields that describe uploaded objects of the task with this number. */
  predicate OwnsArtifacts(taskNo: string, arts: ArtifactFields) {
    && arts.unsignedKey != "" && Owner(arts.unsignedKey) == taskNo && arts.unsignedSize > 0
    && (arts.signedKey != "" ==>
          Owner(arts.signedKey) == taskNo && arts.signedKey != arts.unsignedKey && arts.signedSize > 0)
  }

  /** Six steps in order: successes, then at most one that is running or failed, then waiting ones. */
  predicate StepsShaped(rows: seq<StepRow>) {
    && |rows| == 6
    && (forall i :: 0 <= i < 6 ==> rows[i].sortOrder == i + 1 && rows[i].key == StepKeyAt(i + 1))
    && (forall i, j :: 0 <= i < j < 6 && rows[j].status != StepWaiting ==> rows[i].status == StepSuccess)
  }

  /** n successes, then one step in the given status, then waiting ones. */
  predicate StepsAt(rows: seq<StepRow>, n: nat, status: StepStatus) {
    |rows| == 6
    && forall i :: 0 <= i < 6 ==>
      rows[i].status == if i < n then StepSuccess else if i == n then status else StepWaiting
  }

  predicate RowOk(db: Db, t: nat)
    requires t in db.tasks && t in db.steps
  {
    var row := db.tasks[t];
    && t < db.nextTask && row.appId < db.nextApp && IsTaskNo(row.taskNo)
    && StepsShaped(db.steps[t])
    && match row.status
       case Queued => row.artifacts == NO_ARTIFACTS && StepsAt(db.steps[t], 0, StepWaiting)
       case Running => row.artifacts == NO_ARTIFACTS || OwnsArtifacts(row.taskNo, row.artifacts)
       case Completed => OwnsArtifacts(row.taskNo, row.artifacts) && StepsAt(db.steps[t], 6, StepSuccess)
       case Failed => row.artifacts == NO_ARTIFACTS
  }

  ghost predicate RowsOk(db: Db) {
    && db.steps.Keys == db.tasks.Keys
    && (forall t :: t in db.tasks ==> RowOk(db, t))
    && (forall t, u :: t in db.tasks && u in db.tasks && db.tasks[t].taskNo == db.tasks[u].taskNo ==> t == u)
    && (forall a :: a in db.apps ==> a < db.nextApp && IsSourceKey(db.apps[a].objectKey))
  }

  // ---------------------------------------------------------------- open transactions

  ghost predicate TxOk(db: Db, a: nat, tx: Tx) {
    && a in db.apps
    && (!tx.Locked? ==> !HasActiveTask(db, a))
    && (HasInsert(tx) ==>
          && tx.id < db.nextTask && tx.id !in db.tasks
          && tx.row.appId == a && tx.row.status == Queued && tx.row.artifacts == NO_ARTIFACTS
          && IsTaskNo(tx.row.taskNo)
          && (forall t :: t in db.tasks ==> db.tasks[t].taskNo != tx.row.taskNo)
          && (forall t :: t in db.tasks && db.tasks[t].appId == a ==> t < tx.id)
          && |tx.steps| <= 6
          && (forall i :: 0 <= i < |tx.steps| ==> tx.steps[i] == DefaultStep(i + 1)))
    && (tx.AppUpdated? ==> |tx.steps| == 6)
  }

  ghost predicate TxsOk(db: Db, txs: map<nat, Tx>) {
    && (forall a :: a in txs ==> TxOk(db, a, txs[a]))
    && (forall a, b :: a in txs && b in txs && a != b && HasInsert(txs[a]) && HasInsert(txs[b])
          ==> txs[a].id != txs[b].id && txs[a].row.taskNo != txs[b].row.taskNo)
  }

  // ---------------------------------------------------------------- apps and their tasks

  function StatusFor(status: TaskStatus): AppStatus {
    match status
    case Queued => AppProcessing
    case Running => AppProcessing
    case Completed => AppCompleted
    case Failed => AppFailed
  }

  predicate TaskCoherent(db: Db, newest: map<nat, nat>, t: nat)
    requires t in db.tasks
  {
    var a := db.tasks[t].appId;
    && a in newest && t <= newest[a]
    && (Active(db.tasks[t].status) ==> t == newest[a] && a in db.apps)
  }

  predicate AppCoherent(db: Db, newest: map<nat, nat>, a: nat)
    requires a in db.apps
  {
    if a in newest
    then newest[a] in db.tasks && db.apps[a].status == StatusFor(db.tasks[newest[a]].status)
    else db.apps[a].status == AppUnprotected
  }

  ghost predicate Coherent(db: Db, newest: map<nat, nat>) {
    && (forall t :: t in db.tasks ==> TaskCoherent(db, newest, t))
    && (forall a :: a in newest ==> newest[a] in db.tasks && db.tasks[newest[a]].appId == a)
    && (forall a :: a in db.apps ==> AppCoherent(db, newest, a))
  }

  // ---------------------------------------------------------------- the worker

  predicate Holds(db: Db, job: Job, status: TaskStatus) {
    && job.id in db.tasks && job.id in db.steps
    && db.tasks[job.id].status == status
    && db.tasks[job.id].taskNo == job.taskNo
    && db.tasks[job.id].appId == job.appId
    && db.tasks[job.id].snapshot == job.snapshot
  }

  ghost predicate OwnedList(taskNo: string, keys: seq<string>) {
    && (forall i :: 0 <= i < |keys| ==> Owner(keys[i]) == taskNo)
    && (forall i, j :: 0 <= i < j < |keys| ==> keys[i] != keys[j])
  }

  /** The collected fields while the steps run: nothing before step 5 is done, the real thing after. */
  predicate ArtsAfter(k: nat, taskNo: string, arts: ArtifactFields) {
    if k < 5 then arts == NO_ARTIFACTS else OwnsArtifacts(taskNo, arts)
  }

  /** Recovery only deletes keys of tasks it has failed. */
  predicate PendingOk(db: Db, pending: seq<(nat, string)>) {
    forall i :: 0 <= i < |pending| ==>
      && pending[i].0 in db.tasks && db.tasks[pending[i].0].status == Failed
      && Owner(pending[i].1) == db.tasks[pending[i].0].taskNo
  }

  ghost predicate PcOk(db: Db, pc: Pc) {
    match pc
    case Down => true
    case Idle => true
    case Cleaning(pending) => PendingOk(db, pending)
    case Picked(job) => Holds(db, job, Queued)
    case Entering(job) =>
      Holds(db, job, Running) && db.tasks[job.id].artifacts == NO_ARTIFACTS
      && StepsAt(db.steps[job.id], 0, StepWaiting)
    case BeforeStep(job, k, arts) =>
      Holds(db, job, Running) && db.tasks[job.id].artifacts == NO_ARTIFACTS
      && 1 <= k <= 6 && StepsAt(db.steps[job.id], k - 1, StepWaiting)
      && ArtsAfter(k - 1, job.taskNo, arts)
    case InStep(job, k, arts, puts) =>
      Holds(db, job, Running) && db.tasks[job.id].artifacts == NO_ARTIFACTS
      && 1 <= k <= 6 && StepsAt(db.steps[job.id], k - 1, StepRunning)
      && ArtsAfter(k - 1, job.taskNo, arts)
      && (if k == 6 then puts <= Keys(arts) else puts == [])
    case StepDone(job, k, arts, puts) =>
      Holds(db, job, Running)
      && 1 <= k <= 6 && StepsAt(db.steps[job.id], k - 1, StepRunning)
      && ArtsAfter(k, job.taskNo, arts)
      && db.tasks[job.id].artifacts == (if k == 6 then arts else NO_ARTIFACTS)
      && puts == (if k == 6 then Keys(arts) else [])
    case StepBroken(job, k, puts) =>
      Holds(db, job, Running) && db.tasks[job.id].artifacts == NO_ARTIFACTS
      && 1 <= k <= 6 && StepsAt(db.steps[job.id], k - 1, StepRunning)
      && OwnedList(job.taskNo, puts)
    case Completing(job, arts) =>
      Holds(db, job, Running) && db.tasks[job.id].artifacts == arts && OwnsArtifacts(job.taskNo, arts)
      && StepsAt(db.steps[job.id], 6, StepSuccess)
    case RollingBack(job, rest) => Holds(db, job, Running) && OwnedList(job.taskNo, rest) && rest != []
    case Leaving(job, committed) => Holds(db, job, if committed then Completed else Running)
    case MarkingFailed(job, committed) => Holds(db, job, if committed then Completed else Running)
  }

  // ---------------------------------------------------------------- objects

  /** The attempt has failed and only its deferred calls are left. */
  predicate Unwinding(pc: Pc) {
    pc.RollingBack? || (pc.Leaving? && !pc.committed) || (pc.MarkingFailed? && !pc.committed)
  }

  predicate KeysPresent(objects: set<string>, arts: ArtifactFields) {
    forall i :: 0 <= i < |Keys(arts)| ==> Keys(arts)[i] in objects
  }

  ghost predicate ObjectsOk(db: Db, objects: set<string>, pc: Pc, leak: set<string>) {
    // nothing a completed task points at is missing
    && (forall t :: t in db.tasks && db.tasks[t].status == Completed ==> KeysPresent(objects, db.tasks[t].artifacts))
    // what the worker believes it uploaded is there
    && (forall i :: 0 <= i < |Uploads(pc)| ==> Uploads(pc)[i] in objects)
    // every artifact object is accounted for
    && (forall key :: key in objects && !IsSourceKey(key) ==> Accounted(db, pc, leak, key))
    // what an unwinding attempt recorded is deleted, about to be, or leaked
    && (Unwinding(pc) && pc.job.id in db.tasks ==> Unreferenced(objects, pc, leak, db.tasks[pc.job.id].artifacts))
  }

  predicate Accounted(db: Db, pc: Pc, leak: set<string>, key: string) {
    key in leak || key in Uploads(pc) || key in PendingKeys(pc) || Recorded(db, key)
  }

  predicate Unreferenced(objects: set<string>, pc: Pc, leak: set<string>, arts: ArtifactFields) {
    forall i :: 0 <= i < |Keys(arts)| && Keys(arts)[i] in objects ==> Keys(arts)[i] in leak || Keys(arts)[i] in Uploads(pc)
  }

  // ---------------------------------------------------------------- risk

  /** The app's most recently completed task. */
  function LastCompleted(completions: seq<nat>, tasks: map<nat, TaskRow>, a: nat): Option<nat> {
    if completions == [] then None
    else
      var t := completions[|completions| - 1];
      if t in tasks && tasks[t].appId == a then Some(t)
      else LastCompleted(completions[..|completions| - 1], tasks, a)
  }

  function RiskOf(tasks: map<nat, TaskRow>, last: Option<nat>): Option<RiskLevel> {
    if last.Some? && last.value in tasks then Some(ResolveRiskLevel(tasks[last.value].snapshot)) else None
  }

  ghost predicate RiskOk(db: Db, completions: seq<nat>) {
    && (forall i :: 0 <= i < |completions| ==>
          completions[i] in db.tasks && db.tasks[completions[i]].status == Completed)
    && (forall t :: t in db.tasks && db.tasks[t].status == Completed ==> t in completions)
    && (forall a :: a in db.apps ==>
          db.apps[a].risk == RiskOf(db.tasks, LastCompleted(completions, db.tasks, a)))
  }

  // ---------------------------------------------------------------- one at a time

  /** The task the worker is executing. */
  function CurrentTask(pc: Pc): Option<nat> {
    match pc
    case Entering(job) => Some(job.id)
    case BeforeStep(job, _, _) => Some(job.id)
    case InStep(job, _, _, _) => Some(job.id)
    case StepDone(job, _, _, _) => Some(job.id)
    case StepBroken(job, _, _) => Some(job.id)
    case Completing(job, _) => Some(job.id)
    case RollingBack(job, _) => Some(job.id)
    case Leaving(job, committed) => if committed then None else Some(job.id)
    case MarkingFailed(job, committed) => if committed then None else Some(job.id)
    case _ => None
  }

  ghost predicate StuckOk(db: Db, pc: Pc, stuck: set<nat>) {
    forall t :: t in db.tasks && db.tasks[t].status == Running ==> t in stuck || CurrentTask(pc) == Some(t)
  }

  ghost predicate Inv(s: State) {
    && RowsOk(s.db)
    && TxsOk(s.db, s.txs)
    && Coherent(s.db, s.newest)
    && PcOk(s.db, s.pc)
    && ObjectsOk(s.db, s.objects, s.pc, s.leak)
    && RiskOk(s.db, s.completions)
    && StuckOk(s.db, s.pc, s.stuck)
  }
}
