/** Every API call keeps the invariants of the pipeline, whatever the worker is doing. */
module ApiCalls {
  import opened Wrappers
  import opened Strategy
  import opened Tables
  import opened ObjectKeys
  import opened Pipeline
  import opened Invariants

  lemma OwnedKeyIsNoSource(taskNo: string, key: string)
    requires IsTaskNo(taskNo) && Owner(key) == taskNo
    ensures !IsSourceKey(key)
  {
    TaskNoIsNotHex(taskNo);
  }

  lemma OwnedKeysAreNoSources(taskNo: string, arts: ArtifactFields)
    requires IsTaskNo(taskNo) && (arts == NO_ARTIFACTS || OwnsArtifacts(taskNo, arts))
    ensures forall i :: 0 <= i < |Keys(arts)| ==> !IsSourceKey(Keys(arts)[i])
    ensures OwnedList(taskNo, Keys(arts))
  {
    hide IsTaskNo;
    hide Owner;
    hide IsSourceKey;
    forall i | 0 <= i < |Keys(arts)| ensures !IsSourceKey(Keys(arts)[i]) {
      OwnedKeyIsNoSource(taskNo, Keys(arts)[i]);
    }
  }

  /** The objects of the current attempt belong to the attempt's task. */
  lemma UploadsAreOwned(db: Db, pc: Pc)
    requires RowsOk(db) && PcOk(db, pc)
    ensures Uploads(pc) != [] ==> IsTaskNo(pc.job.taskNo) && OwnedList(pc.job.taskNo, Uploads(pc))
    ensures forall i :: 0 <= i < |Uploads(pc)| ==> !IsSourceKey(Uploads(pc)[i])
  {
    hide IsTaskNo;
    hide Owner;
    hide IsSourceKey;
    if Uploads(pc) != [] {
      var job := pc.job;
      assert RowOk(db, job.id);
      if pc.InStep? || pc.StepDone? || pc.Completing? {
        OwnedKeysAreNoSources(job.taskNo, pc.arts);
      }
      forall i | 0 <= i < |Uploads(pc)| ensures !IsSourceKey(Uploads(pc)[i]) {
        OwnedKeyIsNoSource(job.taskNo, Uploads(pc)[i]);
      }
    }
  }

  // ---------------------------------------------------------------- frames

  /** Nothing but app rows and id sequences differs. */
  predicate SameTasks(db: Db, db': Db) {
    db'.tasks == db.tasks && db'.steps == db.steps && db.nextTask <= db'.nextTask && db.nextApp <= db'.nextApp
  }

  lemma RowsFrame(db: Db, db': Db)
    requires RowsOk(db) && SameTasks(db, db')
    requires forall a :: a in db'.apps ==> a < db'.nextApp && IsSourceKey(db'.apps[a].objectKey)
    ensures RowsOk(db')
  {
    hide IsTaskNo;
    hide IsSourceKey;
    hide StepsShaped;
    hide StepsAt;
    hide OwnsArtifacts;
    forall t | t in db'.tasks ensures RowOk(db', t) {
      assert RowOk(db, t);
    }
  }

  lemma PcFrame(db: Db, db': Db, pc: Pc)
    requires PcOk(db, pc) && SameTasks(db, db')
    ensures PcOk(db', pc)
  {
    hide StepsAt;
    hide OwnsArtifacts;
    hide Keys;
    hide OwnedList;
    hide Owner;
  }

  lemma ObjectsFrame(db: Db, db': Db, objects: set<string>, pc: Pc, leak: set<string>)
    requires ObjectsOk(db, objects, pc, leak) && SameTasks(db, db')
    ensures ObjectsOk(db', objects, pc, leak)
  {
    hide KeysPresent;
    hide IsSourceKey;
    hide Unreferenced;
    hide Uploads;
    hide PendingKeys;
    forall key | key in objects && !IsSourceKey(key) ensures Accounted(db', pc, leak, key) {
      assert Accounted(db, pc, leak, key);
    }
  }

  lemma TxsFrame(db: Db, db': Db, txs: map<nat, Tx>)
    requires TxsOk(db, txs) && SameTasks(db, db')
    requires forall a :: a in txs ==> a in db'.apps
    ensures TxsOk(db', txs)
  {
    hide IsTaskNo;
    forall a | a in txs ensures TxOk(db', a, txs[a]) {
      assert TxOk(db, a, txs[a]);
    }
  }

  // ---------------------------------------------------------------- source objects

  lemma SourceLeavesKeys(objects: set<string>, objects': set<string>, key: string, taskNo: string, arts: ArtifactFields)
    requires IsTaskNo(taskNo) && (arts == NO_ARTIFACTS || OwnsArtifacts(taskNo, arts))
    requires IsSourceKey(key) && (objects' == objects + {key} || objects' == objects - {key})
    ensures KeysPresent(objects, arts) <==> KeysPresent(objects', arts)
    ensures forall i :: 0 <= i < |Keys(arts)| ==> (Keys(arts)[i] in objects <==> Keys(arts)[i] in objects')
  {
    hide IsTaskNo;
    hide IsSourceKey;
    hide OwnsArtifacts;
    hide Keys;
    OwnedKeysAreNoSources(taskNo, arts);
  }

  lemma SourceLeavesRow(db: Db, objects: set<string>, objects': set<string>, key: string, t: nat)
    requires RowsOk(db) && t in db.tasks
    requires IsSourceKey(key) && (objects' == objects + {key} || objects' == objects - {key})
    ensures var arts := db.tasks[t].artifacts;
      && (KeysPresent(objects, arts) <==> KeysPresent(objects', arts))
      && forall i :: 0 <= i < |Keys(arts)| ==> (Keys(arts)[i] in objects <==> Keys(arts)[i] in objects')
  {
    hide IsTaskNo;
    hide IsSourceKey;
    hide OwnsArtifacts;
    hide Keys;
    hide KeysPresent;
    hide StepsShaped;
    hide StepsAt;
    assert RowOk(db, t);
    SourceLeavesKeys(objects, objects', key, db.tasks[t].taskNo, db.tasks[t].artifacts);
  }

  lemma SourceObjectsOk(db: Db, objects: set<string>, objects': set<string>, pc: Pc, leak: set<string>, key: string)
    requires RowsOk(db) && PcOk(db, pc) && ObjectsOk(db, objects, pc, leak)
    requires IsSourceKey(key) && (objects' == objects + {key} || objects' == objects - {key})
    ensures ObjectsOk(db, objects', pc, leak)
  {
    hide RowsOk;
    hide IsTaskNo;
    hide Owner;
    hide IsSourceKey;
    hide Accounted;
    hide Keys;
    hide PcOk;
    hide Uploads;
    hide KeysPresent;
    forall t | t in db.tasks
      ensures KeysPresent(objects, db.tasks[t].artifacts) <==> KeysPresent(objects', db.tasks[t].artifacts)
    {
      SourceLeavesRow(db, objects, objects', key, t);
    }
    UploadsAreOwned(db, pc);
    if Unwinding(pc) && pc.job.id in db.tasks {
      SourceLeavesRow(db, objects, objects', key, pc.job.id);
    }
  }

  // ---------------------------------------------------------------- apps

  lemma FreshApp(db: Db, newest: map<nat, nat>)
    requires RowsOk(db) && Coherent(db, newest)
    ensures db.nextApp !in newest && db.nextApp !in db.apps
  {
    hide IsTaskNo;
    hide IsSourceKey;
    assert forall t :: t in db.tasks ==> RowOk(db, t);
  }

  lemma AppsCoherent(db: Db, db': Db, newest: map<nat, nat>)
    requires Coherent(db, newest) && db'.tasks == db.tasks
    requires forall a :: a in db'.apps ==>
      (a in db.apps && db'.apps[a].status == db.apps[a].status) || (a !in newest && db'.apps[a].status == AppUnprotected)
    requires forall a :: a in db.apps && HasActiveTask(db, a) ==> a in db'.apps
    ensures Coherent(db', newest)
  {
    forall t | t in db'.tasks ensures TaskCoherent(db', newest, t) {
      assert TaskCoherent(db, newest, t);
    }
    forall a | a in db'.apps ensures AppCoherent(db', newest, a) {
      assert a in db.apps ==> AppCoherent(db, newest, a);
    }
  }

  lemma {:induction false} NothingCompletedFor(db: Db, completions: seq<nat>, a: nat)
    requires RowsOk(db) && a >= db.nextApp
    ensures LastCompleted(completions, db.tasks, a) == None
  {
    hide IsTaskNo;
    if completions != [] {
      NothingCompletedFor(db, completions[..|completions| - 1], a);
      var t := completions[|completions| - 1];
      assert t in db.tasks ==> RowOk(db, t);
    }
  }

  lemma AppsRisk(db: Db, db': Db, completions: seq<nat>)
    requires RowsOk(db) && RiskOk(db, completions) && db'.tasks == db.tasks
    requires forall a :: a in db'.apps ==>
      (a in db.apps && db'.apps[a].risk == db.apps[a].risk) || (a >= db.nextApp && db'.apps[a].risk == None)
    ensures RiskOk(db', completions)
  {
    hide RowsOk;
    hide ResolveRiskLevel;
    forall a | a in db'.apps && a >= db.nextApp ensures LastCompleted(completions, db.tasks, a) == None {
      NothingCompletedFor(db, completions, a);
    }
  }

  lemma InsertApps(s: State, packageName: string, objectKey: string)
    requires Inv(s) && IsSourceKey(objectKey)
    ensures Inv(AfterInsertApp(s, packageName, objectKey))
  {
    hide IsSourceKey;
    hide TxsOk;
    hide Coherent;
    hide PcOk;
    hide ObjectsOk;
    hide RiskOk;
    hide RowOk;
    var s', a := AfterInsertApp(s, packageName, objectKey), s.db.nextApp;
    FreshApp(s.db, s.newest);
    RowsFrame(s.db, s'.db);
    assert forall b :: b in s.txs ==> b in s.db.apps by { TxApps(s.db, s.txs); }
    TxsFrame(s.db, s'.db, s.txs);
    AppsCoherent(s.db, s'.db, s.newest);
    PcFrame(s.db, s'.db, s.pc);
    ObjectsFrame(s.db, s'.db, s.objects, s.pc, s.leak);
    AppsRisk(s.db, s'.db, s.completions);
  }

  lemma TxApps(db: Db, txs: map<nat, Tx>)
    requires TxsOk(db, txs)
    ensures forall a :: a in txs ==> a in db.apps
  {
    forall a | a in txs ensures a in db.apps {
      assert TxOk(db, a, txs[a]);
    }
  }

  lemma DeleteApps(s: State, app: nat)
    requires Inv(s) && ApiEnabled(s, DeleteApp(app))
    ensures Inv(ApplyApi(s, DeleteApp(app)))
  {
    hide IsSourceKey;
    hide TxsOk;
    hide Coherent;
    hide PcOk;
    hide ObjectsOk;
    hide RiskOk;
    hide RowOk;
    var s' := ApplyApi(s, DeleteApp(app));
    RowsFrame(s.db, s'.db);
    TxApps(s.db, s.txs);
    TxsFrame(s.db, s'.db, s.txs);
    AppsCoherent(s.db, s'.db, s.newest);
    PcFrame(s.db, s'.db, s.pc);
    ObjectsFrame(s.db, s'.db, s.objects, s.pc, s.leak);
    AppsRisk(s.db, s'.db, s.completions);
  }

  // ---------------------------------------------------------------- creations

  lemma TxsReplaced(db: Db, txs: map<nat, Tx>, app: nat, tx: Tx)
    requires TxsOk(db, txs) && app in txs
    requires TxOk(db, app, tx)
    requires HasInsert(tx) ==> HasInsert(txs[app]) && tx.id == txs[app].id && tx.row == txs[app].row
    ensures TxsOk(db, txs[app := tx])
  {
    hide TxOk;
  }

  lemma OpenTransactions(s: State, call: ApiCall)
    requires TxsOk(s.db, s.txs) && ApiEnabled(s, call)
    requires call.TxLock? || call.TxCount? || call.TxInsertStep? || call.TxUpdateApp? || call.TxAbort?
    ensures TxsOk(s.db, ApplyApi(s, call).txs)
  {
    hide IsTaskNo;
    hide TxsOk;
    var db, txs, app := s.db, s.txs, call.app;
    match call
    case TxLock(_) => TxsAdded(db, txs, app);
    case TxAbort(_) => TxsRemoved(db, txs, app);
    case TxCount(_) =>
      TxApps(db, txs);
      if HasActiveTask(db, app) {
        TxsRemoved(db, txs, app);
      } else {
        TxsReplaced(db, txs, app, Counted);
      }
    case TxInsertStep(_) =>
      TxIsOk(db, txs, app);
      var tx := txs[app];
      TxsReplaced(db, txs, app, Inserting(tx.id, tx.row, tx.steps + [DefaultStep(|tx.steps| + 1)]));
    case TxUpdateApp(_) =>
      TxIsOk(db, txs, app);
      TxsReplaced(db, txs, app, AppUpdated(txs[app].id, txs[app].row, txs[app].steps));
  }

  lemma TxIsOk(db: Db, txs: map<nat, Tx>, app: nat)
    requires TxsOk(db, txs) && app in txs
    ensures TxOk(db, app, txs[app])
  {
  }

  lemma TxsAdded(db: Db, txs: map<nat, Tx>, app: nat)
    requires TxsOk(db, txs) && app !in txs && app in db.apps
    ensures TxsOk(db, txs[app := Locked])
  {
    forall b | b in txs ensures TxOk(db, b, txs[b]) {
    }
  }

  lemma TxsRemoved(db: Db, txs: map<nat, Tx>, app: nat)
    requires TxsOk(db, txs)
    ensures TxsOk(db, txs - {app})
  {
    hide TxOk;
  }

  /** A fresh id and a free task number make the new row distinct from everything committed or in flight. */
  lemma InsertTx(db: Db, db': Db, txs: map<nat, Tx>, app: nat, row: TaskRow)
    requires RowsOk(db) && TxsOk(db, txs) && app in txs && txs[app].Counted?
    requires db' == db.(nextTask := db.nextTask + 1)
    requires row.appId == app && row.status == Queued && row.artifacts == NO_ARTIFACTS && IsTaskNo(row.taskNo)
    requires forall t :: t in db.tasks ==> db.tasks[t].taskNo != row.taskNo
    requires forall b :: b in txs && b != app && HasInsert(txs[b]) ==> txs[b].row.taskNo != row.taskNo
    ensures TxsOk(db', txs[app := Inserting(db.nextTask, row, [])])
  {
    hide IsTaskNo;
    TxApps(db, txs);
    TxsFrame(db, db', txs);
    var tx := Inserting(db.nextTask, row, []);
    assert TxOk(db', app, tx) by {
      TxIsOk(db, txs, app);
      assert forall t :: t in db.tasks ==> RowOk(db, t);
    }
    forall b | b in txs && HasInsert(txs[b]) ensures txs[b].id != db.nextTask {
      TxIsOk(db, txs, b);
    }
    TxsAddedInsert(db', txs, app, tx);
  }

  lemma TxsAddedInsert(db: Db, txs: map<nat, Tx>, app: nat, tx: Tx)
    requires TxsOk(db, txs) && TxOk(db, app, tx) && HasInsert(tx)
    requires forall b :: b in txs && b != app && HasInsert(txs[b]) ==>
      txs[b].id != tx.id && txs[b].row.taskNo != tx.row.taskNo
    ensures TxsOk(db, txs[app := tx])
  {
    hide TxOk;
  }

  lemma Inserts(s: State, app: nat, row: TaskRow)
    requires Inv(s) && ApiEnabled(s, TxInsert(app, row))
    ensures Inv(ApplyApi(s, TxInsert(app, row)))
  {
    hide TxsOk;
    hide Coherent;
    hide PcOk;
    hide ObjectsOk;
    hide RiskOk;
    hide RowOk;
    var s' := ApplyApi(s, TxInsert(app, row));
    RowsFrame(s.db, s'.db);
    InsertTx(s.db, s'.db, s.txs, app, row);
    AppsCoherent(s.db, s'.db, s.newest);
    PcFrame(s.db, s'.db, s.pc);
    ObjectsFrame(s.db, s'.db, s.objects, s.pc, s.leak);
    AppsRisk(s.db, s'.db, s.completions);
  }

  // ---------------------------------------------------------------- commit

  lemma CommitRows(db: Db, app: nat, id: nat, row: TaskRow, steps: seq<StepRow>)
    requires RowsOk(db) && app in db.apps && id !in db.tasks && id < db.nextTask
    requires row.appId == app && row.status == Queued && row.artifacts == NO_ARTIFACTS && IsTaskNo(row.taskNo)
    requires forall t :: t in db.tasks ==> db.tasks[t].taskNo != row.taskNo
    requires |steps| == 6 && forall i :: 0 <= i < 6 ==> steps[i] == DefaultStep(i + 1)
    ensures RowsOk(InsertCommitted(db, app, id, row, steps))
  {
    hide IsTaskNo;
    hide IsSourceKey;
    hide OwnsArtifacts;
    hide StepsShaped;
    hide StepsAt;
    var db' := InsertCommitted(db, app, id, row, steps);
    FreshSteps(steps);
    forall t | t in db'.tasks ensures RowOk(db', t) {
      assert t != id ==> RowOk(db, t);
    }
  }

  lemma FreshSteps(steps: seq<StepRow>)
    requires |steps| == 6 && forall i :: 0 <= i < 6 ==> steps[i] == DefaultStep(i + 1)
    ensures StepsShaped(steps) && StepsAt(steps, 0, StepWaiting)
  {
  }

  lemma CommitTxs(db: Db, txs: map<nat, Tx>, app: nat)
    requires TxsOk(db, txs) && app in txs && txs[app].AppUpdated? && app in db.apps
    ensures TxsOk(InsertCommitted(db, app, txs[app].id, txs[app].row, txs[app].steps), txs - {app})
  {
    hide IsTaskNo;
    var tx := txs[app];
    var db' := InsertCommitted(db, app, tx.id, tx.row, tx.steps);
    TxIsOk(db, txs, app);
    forall b | b in txs && b != app ensures TxOk(db', b, txs[b]) {
      TxIsOk(db, txs, b);
    }
  }

  lemma CommitCoherent(db: Db, newest: map<nat, nat>, app: nat, id: nat, row: TaskRow, steps: seq<StepRow>)
    requires Coherent(db, newest) && app in db.apps && !HasActiveTask(db, app)
    requires id !in db.tasks && row.appId == app && row.status == Queued
    requires forall t :: t in db.tasks && db.tasks[t].appId == app ==> t < id
    ensures Coherent(InsertCommitted(db, app, id, row, steps), newest[app := id])
  {
    var db', newest' := InsertCommitted(db, app, id, row, steps), newest[app := id];
    forall t | t in db'.tasks ensures TaskCoherent(db', newest', t) {
      assert t != id ==> TaskCoherent(db, newest, t);
    }
    forall a | a in db'.apps ensures AppCoherent(db', newest', a) {
      assert AppCoherent(db, newest, a);
    }
  }

  lemma CommitPc(db: Db, pc: Pc, app: nat, id: nat, row: TaskRow, steps: seq<StepRow>)
    requires PcOk(db, pc) && app in db.apps && id !in db.tasks
    ensures PcOk(InsertCommitted(db, app, id, row, steps), pc)
  {
    hide StepsAt;
    hide OwnsArtifacts;
    hide Keys;
    hide OwnedList;
    hide Owner;
  }

  lemma CommitObjects(db: Db, objects: set<string>, pc: Pc, leak: set<string>, app: nat, id: nat, row: TaskRow,
                      steps: seq<StepRow>)
    requires PcOk(db, pc) && ObjectsOk(db, objects, pc, leak)
    requires app in db.apps && id !in db.tasks && row.status == Queued
    ensures ObjectsOk(InsertCommitted(db, app, id, row, steps), objects, pc, leak)
  {
    hide KeysPresent;
    hide IsSourceKey;
    hide Unreferenced;
    hide Uploads;
    hide PendingKeys;
    hide Keys;
    hide OwnsArtifacts;
    hide StepsAt;
    var db' := InsertCommitted(db, app, id, row, steps);
    forall key | key in objects && !IsSourceKey(key) ensures Accounted(db', pc, leak, key) {
      assert Accounted(db, pc, leak, key);
      if Recorded(db, key) {
        var t :| t in db.tasks && key in Keys(db.tasks[t].artifacts);
        assert t in db'.tasks && db'.tasks[t] == db.tasks[t];
      }
    }
  }

  lemma {:induction false} LastCompletedFrame(completions: seq<nat>, tasks: map<nat, TaskRow>,
                                              tasks': map<nat, TaskRow>, a: nat)
    requires forall i :: 0 <= i < |completions| ==>
      && completions[i] in tasks && completions[i] in tasks'
      && tasks'[completions[i]].appId == tasks[completions[i]].appId
    ensures LastCompleted(completions, tasks', a) == LastCompleted(completions, tasks, a)
    ensures LastCompleted(completions, tasks, a).Some? ==>
      var t := LastCompleted(completions, tasks, a).value;
      t in completions && tasks[t].appId == a
  {
    if completions != [] {
      LastCompletedFrame(completions[..|completions| - 1], tasks, tasks', a);
    }
  }

  lemma CommitRisk(db: Db, completions: seq<nat>, app: nat, id: nat, row: TaskRow, steps: seq<StepRow>)
    requires RiskOk(db, completions) && app in db.apps && id !in db.tasks && row.status == Queued
    ensures RiskOk(InsertCommitted(db, app, id, row, steps), completions)
  {
    hide ResolveRiskLevel;
    var db' := InsertCommitted(db, app, id, row, steps);
    forall a | a in db'.apps
      ensures db'.apps[a].risk == RiskOf(db'.tasks, LastCompleted(completions, db'.tasks, a))
    {
      LastCompletedFrame(completions, db.tasks, db'.tasks, a);
    }
  }

  lemma Commits(s: State, app: nat)
    requires Inv(s) && ApiEnabled(s, TxCommit(app))
    ensures Inv(AfterCommit(s, app))
  {
    hide IsTaskNo;
    hide RowsOk;
    hide TxsOk;
    hide Coherent;
    hide PcOk;
    hide ObjectsOk;
    hide RiskOk;
    var tx := s.txs[app];
    TxIsOk(s.db, s.txs, app);
    CommitRows(s.db, app, tx.id, tx.row, tx.steps);
    CommitTxs(s.db, s.txs, app);
    CommitCoherent(s.db, s.newest, app, tx.id, tx.row, tx.steps);
    CommitPc(s.db, s.pc, app, tx.id, tx.row, tx.steps);
    CommitObjects(s.db, s.objects, s.pc, s.leak, app, tx.id, tx.row, tx.steps);
    CommitRisk(s.db, s.completions, app, tx.id, tx.row, tx.steps);
  }

  // ---------------------------------------------------------------- all of them

  /** Every API call keeps the invariants. */
  lemma ApiKeepsInv(s: State, call: ApiCall)
    requires Inv(s) && ApiEnabled(s, call)
    ensures Inv(ApplyApi(s, call))
  {
    hide RowsOk;
    hide TxsOk;
    hide Coherent;
    hide PcOk;
    hide ObjectsOk;
    hide RiskOk;
    hide StuckOk;
    var s' := ApplyApi(s, call);
    match call
    case PutSource(key) => SourceObjectsOk(s.db, s.objects, s'.objects, s.pc, s.leak, key);
    case RemoveSource(key) => SourceObjectsOk(s.db, s.objects, s'.objects, s.pc, s.leak, key);
    case InsertApp(packageName, objectKey) => InsertApps(s, packageName, objectKey);
    case DeleteApp(app) => DeleteApps(s, app);
    case TxLock(_) => OpenTransactions(s, call);
    case TxCount(_) => OpenTransactions(s, call);
    case TxInsert(app, row) => Inserts(s, app, row);
    case TxInsertStep(_) => OpenTransactions(s, call);
    case TxUpdateApp(_) => OpenTransactions(s, call);
    case TxCommit(app) => Commits(s, app);
    case TxAbort(_) => OpenTransactions(s, call);
  }
}
