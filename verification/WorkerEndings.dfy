/** The steps that end an attempt, recovery, and crashes keep the invariants too. */
module WorkerEndings {
  import opened Wrappers
  import opened Strategy
  import opened Tables
  import opened ObjectKeys
  import opened Pipeline
  import opened Invariants
  import opened ApiCalls
  import opened WorkerSteps

  // ---------------------------------------------------------------- the object store

  /** Steps that touch only the object store, the leak history and the worker. */
  lemma StoreStep(s: State, s': State)
    requires Inv(s) && s' == s.(objects := s'.objects, leak := s'.leak, pc := s'.pc)
    requires PcOk(s.db, s'.pc) && ObjectsOk(s.db, s'.objects, s'.pc, s'.leak)
    requires CurrentTask(s'.pc) == CurrentTask(s.pc)
    ensures Inv(s')
  {
    hide RowsOk;
    hide TxsOk;
    hide Coherent;
    hide PcOk;
    hide ObjectsOk;
    hide RiskOk;
    hide CurrentTask;
  }

  lemma PutObjects(db: Db, objects: set<string>, pc: Pc, pc': Pc, leak: set<string>, key: string)
    requires ObjectsOk(db, objects, pc, leak)
    requires Uploads(pc') == Uploads(pc) + [key] && PendingKeys(pc') == PendingKeys(pc) && !Unwinding(pc')
    ensures ObjectsOk(db, objects + {key}, pc', leak)
  {
    hide IsSourceKey;
    hide Uploads;
    hide PendingKeys;
    hide Recorded;
    hide Keys;
    forall k | k in objects + {key} && !IsSourceKey(k) ensures Accounted(db, pc', leak, k) {
      assert k in Uploads(pc') <==> k in Uploads(pc) || k == key;
      if k != key {
        assert Accounted(db, pc, leak, k);
      }
    }
  }

  lemma LandedObjects(db: Db, objects: set<string>, pc: Pc, pc': Pc, leak: set<string>, key: string)
    requires ObjectsOk(db, objects, pc, leak)
    requires Uploads(pc') == Uploads(pc) && PendingKeys(pc') == PendingKeys(pc) && !Unwinding(pc')
    ensures ObjectsOk(db, objects + {key}, pc', leak + {key})
  {
    hide IsSourceKey;
    hide Uploads;
    hide PendingKeys;
    hide Recorded;
    hide Keys;
    forall k | k in objects + {key} && !IsSourceKey(k) ensures Accounted(db, pc', leak + {key}, k) {
      if k != key {
        assert Accounted(db, pc, leak, k);
      }
    }
  }

  lemma Puts(s: State, ok: bool, landed: bool)
    requires Inv(s) && WorkEnabled(s, Put(ok, landed))
    ensures Inv(ApplyWork(s, Put(ok, landed)))
  {
    hide RowsOk;
    hide TxsOk;
    hide Coherent;
    hide ObjectsOk;
    hide RiskOk;
    hide StepsAt;
    hide OwnsArtifacts;
    hide Keys;
    hide Owner;
    hide Unreferenced;
    var s', key := ApplyWork(s, Put(ok, landed)), Keys(s.pc.arts)[|s.pc.puts|];
    UploadsAreOwned(s.db, s.pc);
    OwnedNothing(s.pc.job.taskNo);
    if ok {
      PutObjects(s.db, s.objects, s.pc, s'.pc, s.leak, key);
      StoreStep(s, s');
    } else if landed {
      LandedObjects(s.db, s.objects, s.pc, s'.pc, s.leak, key);
      StoreStep(s, s');
    } else {
      PcOnly(s, s');
    }
  }

  lemma OwnedNothing(taskNo: string)
    ensures OwnedList(taskNo, [])
  {
  }

  /** A key of another, unfinished or failed task is no key of a completed one. */
  lemma DeleteSparesCompleted(db: Db, objects: set<string>, u: nat, key: string)
    requires RowsOk(db) && u in db.tasks && db.tasks[u].status != Completed && Owner(key) == db.tasks[u].taskNo
    requires forall t :: t in db.tasks && db.tasks[t].status == Completed ==> KeysPresent(objects, db.tasks[t].artifacts)
    ensures forall t :: t in db.tasks && db.tasks[t].status == Completed ==>
      KeysPresent(objects - {key}, db.tasks[t].artifacts)
  {
    hide Owner;
    hide IsTaskNo;
    hide IsSourceKey;
    hide RowOk;
    forall t | t in db.tasks && db.tasks[t].status == Completed ensures KeysPresent(objects - {key}, db.tasks[t].artifacts) {
      RowOwns(db, t);
    }
  }

  lemma RowOwns(db: Db, t: nat)
    requires RowsOk(db) && t in db.tasks
    ensures OwnedList(db.tasks[t].taskNo, Keys(db.tasks[t].artifacts))
    ensures forall i :: 0 <= i < |Keys(db.tasks[t].artifacts)| ==> !IsSourceKey(Keys(db.tasks[t].artifacts)[i])
  {
    hide IsTaskNo;
    hide RowsOk;
    hide StepsAt;
    hide StepsShaped;
    hide OwnsArtifacts;
    hide OwnedList;
    hide Keys;
    hide IsSourceKey;
    RowIsOk(db, t);
    OwnedKeysAreNoSources(db.tasks[t].taskNo, db.tasks[t].artifacts);
  }

  lemma CleanObjects(db: Db, objects: set<string>, objects': set<string>, pc: Pc,
                     leak: set<string>, leak': set<string>, ok: bool, gone: bool)
    requires RowsOk(db) && pc.Cleaning? && pc.pending != [] && PendingOk(db, pc.pending)
    requires ObjectsOk(db, objects, pc, leak)
    requires var key := pc.pending[0].1;
      && (if ok || gone then objects' == objects - {key} else objects' == objects)
      && (if ok then leak' == leak else leak' == leak + {key})
    ensures ObjectsOk(db, objects', AfterCleaning(pc.pending[1..]), leak')
  {
    hide RowsOk;
    hide Owner;
    hide IsSourceKey;
    hide Recorded;
    hide KeysPresent;
    hide Keys;
    var key, pc' := pc.pending[0].1, AfterCleaning(pc.pending[1..]);
    DeleteSparesCompleted(db, objects, pc.pending[0].0, key);
    forall k | k in objects' && !IsSourceKey(k) ensures Accounted(db, pc', leak', k) {
      assert Accounted(db, pc, leak, k);
      if k in PendingKeys(pc) && k != key {
        var i :| 0 <= i < |pc.pending| && pc.pending[i].1 == k;
        assert pc.pending[1..][i - 1].1 == k;
      }
    }
  }

  lemma Cleans(s: State, ok: bool, gone: bool)
    requires Inv(s) && WorkEnabled(s, CleanOne(ok, gone))
    ensures Inv(ApplyWork(s, CleanOne(ok, gone)))
  {
    hide RowsOk;
    hide TxsOk;
    hide Coherent;
    hide ObjectsOk;
    hide RiskOk;
    hide Owner;
    var s' := ApplyWork(s, CleanOne(ok, gone));
    CleanObjects(s.db, s.objects, s'.objects, s.pc, s.leak, s'.leak, ok, gone);
    StoreStep(s, s');
  }

  lemma RollBackObjects(db: Db, objects: set<string>, objects': set<string>, pc: Pc,
                        leak: set<string>, leak': set<string>, ok: bool, gone: bool)
    requires RowsOk(db) && pc.RollingBack? && pc.rest != [] && PcOk(db, pc)
    requires ObjectsOk(db, objects, pc, leak)
    requires var key := pc.rest[|pc.rest| - 1];
      && (if ok || gone then objects' == objects - {key} else objects' == objects)
      && (if ok then leak' == leak else leak' == leak + {key})
    ensures ObjectsOk(db, objects', Unwind(pc.job, pc.rest[..|pc.rest| - 1]), leak')
  {
    hide RowsOk;
    hide Owner;
    hide IsSourceKey;
    hide Recorded;
    hide KeysPresent;
    hide Keys;
    var last := |pc.rest| - 1;
    var key, rest, pc' := pc.rest[last], pc.rest[..last], Unwind(pc.job, pc.rest[..last]);
    DeleteSparesCompleted(db, objects, pc.job.id, key);
    assert Uploads(pc') == rest;
    forall k | k in Uploads(pc) ensures k == key || k in rest {
      var i :| 0 <= i < |pc.rest| && pc.rest[i] == k;
      assert i < last ==> rest[i] == k;
    }
    forall k | k in objects' && !IsSourceKey(k) ensures Accounted(db, pc', leak', k) {
      assert Accounted(db, pc, leak, k);
    }
  }

  lemma RollsBack(s: State, ok: bool, gone: bool)
    requires Inv(s) && WorkEnabled(s, RollBackOne(ok, gone))
    ensures Inv(ApplyWork(s, RollBackOne(ok, gone)))
  {
    hide RowsOk;
    hide TxsOk;
    hide Coherent;
    hide ObjectsOk;
    hide RiskOk;
    hide Owner;
    var s' := ApplyWork(s, RollBackOne(ok, gone));
    RollBackObjects(s.db, s.objects, s'.objects, s.pc, s.leak, s'.leak, ok, gone);
    StoreStep(s, s');
  }

  // ---------------------------------------------------------------- completion and failure

  /** Task and app move together when a running task ends. */
  lemma Ends(s: State, s': State, t: nat)
    requires Inv(s) && t in s.db.tasks && s.db.tasks[t].status == Running
    requires s' == s.(db := s'.db, pc := s'.pc, completions := s'.completions)
    requires Touches(s.db, s'.db, t) && t in s'.db.steps && RowOk(s'.db, t)
    requires !Active(s'.db.tasks[t].status)
    requires forall a :: a in s.db.apps && a != s.db.tasks[t].appId ==> s'.db.apps[a] == s.db.apps[a]
    requires s.db.tasks[t].appId in s.db.apps ==>
      s'.db.apps[s.db.tasks[t].appId].status == StatusFor(s'.db.tasks[t].status)
    requires PcOk(s'.db, s'.pc) && ObjectsOk(s'.db, s.objects, s'.pc, s.leak)
    requires RiskOk(s'.db, s'.completions)
    requires CurrentTask(s.pc) == Some(t)
    ensures Inv(s')
  {
    hide RowsOk;
    hide RowOk;
    hide TxsOk;
    hide Coherent;
    hide PcOk;
    hide ObjectsOk;
    hide RiskOk;
    hide CurrentTask;
    RowsAfter(s.db, s'.db, t);
    TxsAfter(s.db, s'.db, s.txs, t);
    ActiveIsNewest(s.db, s.newest, t);
    EndedApps(s.db, s'.db, s.newest, t);
    CoherentAfter(s.db, s'.db, s.newest, t);
  }

  lemma TransitionMoves(db: Db, t: nat, status: TaskStatus, arts: ArtifactFields, summary: string,
                        appStatus: AppStatus, risk: Option<RiskLevel>)
    requires TransitionTaskForApp(db, t, Running, status, arts, summary, appStatus, risk).Some?
    ensures t in db.tasks && db.tasks[t].status == Running && db.tasks[t].appId in db.apps
    ensures
      var db' := TransitionTaskForApp(db, t, Running, status, arts, summary, appStatus, risk).value;
      var a := db.tasks[t].appId;
      && Touches(db, db', t) && db'.steps == db.steps
      && db'.tasks[t] == db.tasks[t].(status := status, artifacts := arts, errorSummary := summary)
      && (forall b :: b in db.apps && b != a ==> db'.apps[b] == db.apps[b])
      && db'.apps[a].status == appStatus
      && db'.apps[a].risk == if risk.Some? then risk else db.apps[a].risk
  {
  }

  lemma EndedApps(db: Db, db': Db, newest: map<nat, nat>, t: nat)
    requires Coherent(db, newest) && t in db.tasks && Active(db.tasks[t].status) && Touches(db, db', t)
    requires forall a :: a in db.apps && a != db.tasks[t].appId ==> db'.apps[a] == db.apps[a]
    requires db.tasks[t].appId in db.apps ==> db'.apps[db.tasks[t].appId].status == StatusFor(db'.tasks[t].status)
    ensures forall a :: a in db.apps ==>
      db'.apps[a].status == if a in newest && newest[a] == t then StatusFor(db'.tasks[t].status) else db.apps[a].status
  {
    hide AppCoherent;
    ActiveIsNewest(db, newest, t);
    assert TaskCoherent(db, newest, t);
    assert newest[db.tasks[t].appId] == t;
  }

  lemma CompleteObjects(db: Db, db': Db, objects: set<string>, pc: Pc, pc': Pc, leak: set<string>, t: nat)
    requires ObjectsOk(db, objects, pc, leak) && t in db.tasks && db'.tasks.Keys == db.tasks.Keys
    requires forall u :: u in db.tasks ==> db'.tasks[u].artifacts == db.tasks[u].artifacts
    requires forall u :: u in db.tasks && u != t ==> db'.tasks[u].status == db.tasks[u].status
    requires Uploads(pc) == Keys(db.tasks[t].artifacts) && Uploads(pc') == []
    requires PendingKeys(pc') == PendingKeys(pc) && !Unwinding(pc')
    ensures ObjectsOk(db', objects, pc', leak)
  {
    hide IsSourceKey;
    hide Uploads;
    hide PendingKeys;
    hide Keys;
    hide KeysPresent;
    hide Recorded;
    hide Unreferenced;
    UploadsArePresent(objects, pc, db.tasks[t].artifacts);
    forall key | key in objects && !IsSourceKey(key) ensures Accounted(db', pc', leak, key) {
      assert Accounted(db, pc, leak, key);
      StaysRecorded(db, db', pc, t, key);
    }
  }

  lemma UploadsArePresent(objects: set<string>, pc: Pc, arts: ArtifactFields)
    requires Uploads(pc) == Keys(arts) && forall i :: 0 <= i < |Uploads(pc)| ==> Uploads(pc)[i] in objects
    ensures KeysPresent(objects, arts)
  {
    hide Uploads;
    hide Keys;
  }

  lemma StaysRecorded(db: Db, db': Db, pc: Pc, t: nat, key: string)
    requires t in db.tasks && db'.tasks.Keys == db.tasks.Keys
    requires forall u :: u in db.tasks ==> db'.tasks[u].artifacts == db.tasks[u].artifacts
    requires Uploads(pc) == Keys(db.tasks[t].artifacts)
    ensures key in Uploads(pc) || Recorded(db, key) ==> Recorded(db', key)
  {
    hide Uploads;
    hide Keys;
    if key in Uploads(pc) || Recorded(db, key) {
      var u :| u in db.tasks && key in Keys(db.tasks[u].artifacts);
      assert u in db'.tasks && key in Keys(db'.tasks[u].artifacts);
    }
  }

  lemma CompleteRisk(db: Db, db': Db, completions: seq<nat>, t: nat)
    requires RiskOk(db, completions) && Touches(db, db', t)
    requires db.tasks[t].status != Completed && db'.tasks[t].status == Completed
    requires forall a :: a in db.apps && a != db.tasks[t].appId ==> db'.apps[a] == db.apps[a]
    requires db.tasks[t].appId in db.apps ==>
      db'.apps[db.tasks[t].appId].risk == Some(ResolveRiskLevel(db.tasks[t].snapshot))
    ensures RiskOk(db', completions + [t])
  {
    hide ResolveRiskLevel;
    var completions' := completions + [t];
    assert completions'[..|completions'| - 1] == completions;
    forall a | a in db'.apps
      ensures db'.apps[a].risk == RiskOf(db'.tasks, LastCompleted(completions', db'.tasks, a))
    {
      LastCompletedFrame(completions, db.tasks, db'.tasks, a);
    }
    forall u | u in db'.tasks && db'.tasks[u].status == Completed ensures u in completions' {
      if u == t {
        assert completions'[|completions|] == t;
      } else {
        assert u in completions;
      }
    }
  }

  lemma Completes(s: State, ok: bool)
    requires Inv(s) && WorkEnabled(s, Complete(ok))
    ensures Inv(ApplyWork(s, Complete(ok)))
    ensures ok ==> ApplyWork(s, Complete(ok)).pc == Leaving(s.pc.job, true)
  {
    hide RowsOk;
    hide TxsOk;
    hide Coherent;
    hide ObjectsOk;
    hide RiskOk;
    hide StepsAt;
    hide StepsShaped;
    hide OwnsArtifacts;
    hide IsTaskNo;
    hide Keys;
    hide Owner;
    hide OwnedList;
    hide ResolveRiskLevel;
    hide StuckOk;
    var s', t := ApplyWork(s, Complete(ok)), s.pc.job.id;
    ActiveIsNewest(s.db, s.newest, t);
    if ok {
      CompletesRunning(s, s', t);
    } else {
      UnwindOwned(s.db, s.pc);
      UnwindStarts(s.objects, s'.pc, s.leak, s.db.tasks[t].artifacts);
      PcOnly(s, s');
    }
  }

  /** CompleteTaskForApp on the task whose steps all succeeded. */
  lemma CompletesRunning(s: State, s': State, t: nat)
    requires Inv(s) && s.pc.Completing? && t == s.pc.job.id
    requires var done := CompleteTask(s.db, t, s.pc.arts, ResolveRiskLevel(s.pc.job.snapshot));
      && done.Some?
      && s' == s.(db := done.value, pc := Leaving(s.pc.job, true), completions := s.completions + [t])
    ensures Inv(s')
  {
    hide RowsOk;
    hide TxsOk;
    hide Coherent;
    hide ObjectsOk;
    hide RiskOk;
    hide StuckOk;
    hide StepsAt;
    hide StepsShaped;
    hide OwnsArtifacts;
    hide IsTaskNo;
    hide Keys;
    hide ResolveRiskLevel;
    hide TransitionTaskForApp;
    RowIsOk(s.db, t);
    TransitionMoves(s.db, t, Completed, s.pc.arts, "", AppCompleted, Some(ResolveRiskLevel(s.pc.job.snapshot)));
    CompleteObjects(s.db, s'.db, s.objects, s.pc, s'.pc, s.leak, t);
    CompleteRisk(s.db, s'.db, s.completions, t);
    Ends(s, s', t);
  }

  lemma FailObjects(db: Db, db': Db, objects: set<string>, pc: Pc, pc': Pc, leak: set<string>, t: nat)
    requires ObjectsOk(db, objects, pc, leak) && t in db.tasks && db'.tasks.Keys == db.tasks.Keys
    requires db'.tasks[t].status == Failed && db'.tasks[t].artifacts == NO_ARTIFACTS
    requires forall u :: u in db.tasks && u != t ==> db'.tasks[u] == db.tasks[u]
    requires Unwinding(pc) && pc.job.id == t && Uploads(pc) == [] && Uploads(pc') == []
    requires PendingKeys(pc') == PendingKeys(pc) && !Unwinding(pc')
    ensures ObjectsOk(db', objects, pc', leak)
  {
    hide IsSourceKey;
    hide Uploads;
    hide PendingKeys;
    hide Keys;
    hide KeysPresent;
    forall key | key in objects && !IsSourceKey(key) ensures Accounted(db', pc', leak, key) {
      assert Accounted(db, pc, leak, key);
      if Recorded(db, key) {
        var u :| u in db.tasks && key in Keys(db.tasks[u].artifacts);
        if u != t {
          assert u in db'.tasks && key in Keys(db'.tasks[u].artifacts);
        } else {
          assert key in leak;
        }
      }
    }
  }

  /** FailTaskForApp on the task that runTask gave up on. */
  lemma FailsRunning(s: State, s': State, summary: string, t: nat)
    requires Inv(s) && s.pc.MarkingFailed? && !s.pc.committed && t == s.pc.job.id
    requires FailTask(s.db, t, summary).Some? && s' == s.(db := FailTask(s.db, t, summary).value, pc := Idle)
    ensures Inv(s')
  {
    hide RowsOk;
    hide TxsOk;
    hide Coherent;
    hide ObjectsOk;
    hide RiskOk;
    hide StepsAt;
    hide StepsShaped;
    hide OwnsArtifacts;
    hide IsTaskNo;
    hide TransitionTaskForApp;
    RowIsOk(s.db, t);
    TransitionMoves(s.db, t, Failed, NO_ARTIFACTS, summary, AppFailed, None);
    FailObjects(s.db, s'.db, s.objects, s.pc, s'.pc, s.leak, t);
    RiskAfter(s.db, s'.db, s.completions, t);
    Ends(s, s', t);
  }

  lemma StaysStuck(s: State, s': State)
    requires Inv(s) && s.pc.MarkingFailed? && s'.pc == Idle
    requires s' == s.(pc := Idle, stuck := s.stuck + {s.pc.job.id}) || (s.pc.committed && s' == s.(pc := Idle))
    ensures Inv(s')
  {
    hide RowsOk;
    hide TxsOk;
    hide Coherent;
    hide ObjectsOk;
    hide RiskOk;
    ObjectsMove(s.db, s.db, s.objects, s.pc, s'.pc, s.leak);
  }

  lemma MarksFailed(s: State, ok: bool, summary: string)
    requires Inv(s) && WorkEnabled(s, MarkFailed(ok, summary))
    ensures Inv(AfterMarkFailed(s, ok, summary))
    ensures s.pc.committed ==> AfterMarkFailed(s, ok, summary) == s.(pc := Idle)
    ensures !s.pc.committed && ok ==>
      var tasks := AfterMarkFailed(s, ok, summary).db.tasks;
      s.pc.job.id in tasks && tasks[s.pc.job.id].status == Failed
  {
    hide RowsOk;
    hide TxsOk;
    hide Coherent;
    hide ObjectsOk;
    hide RiskOk;
    hide StuckOk;
    var s', t := AfterMarkFailed(s, ok, summary), s.pc.job.id;
    if s.pc.committed {
      StaysStuck(s, s');
    } else {
      ActiveIsNewest(s.db, s.newest, t);
      if ok {
        FailsRunning(s, s', summary, t);
      } else {
        StaysStuck(s, s');
      }
    }
  }

  // ---------------------------------------------------------------- crash

  lemma CrashObjects(s: State)
    requires ObjectsOk(s.db, s.objects, s.pc, s.leak)
    ensures ObjectsOk(s.db, s.objects, Down, AfterCrash(s).leak)
  {
    hide IsSourceKey;
    hide Uploads;
    hide PendingKeys;
    hide Keys;
    hide KeysPresent;
    var leak' := AfterCrash(s).leak;
    assert Uploads(Down) == [] && PendingKeys(Down) == {} by { NothingWhenDown(); }
    forall key | key in s.objects && !IsSourceKey(key) ensures Accounted(s.db, Down, leak', key) {
      assert Accounted(s.db, s.pc, s.leak, key);
    }
  }

  lemma NothingWhenDown()
    ensures Uploads(Down) == [] && PendingKeys(Down) == {}
  {
  }

  lemma CrashKeepsInv(s: State)
    requires Inv(s)
    ensures Inv(AfterCrash(s))
  {
    hide RowsOk;
    hide Coherent;
    hide ObjectsOk;
    hide RiskOk;
    hide Unrecorded;
    hide PendingKeys;
    CrashObjects(s);
  }

  // ---------------------------------------------------------------- recovery

  lemma RecoveredShape(rows: seq<StepRow>)
    requires StepsShaped(rows)
    ensures StepsShaped(RecoveredSteps(rows))
  {
  }

  lemma RecoverRows(db: Db, summary: string)
    requires RowsOk(db)
    ensures RowsOk(Recovered(db, summary))
  {
    hide IsTaskNo;
    hide IsSourceKey;
    hide StepsShaped;
    hide StepsAt;
    hide OwnsArtifacts;
    hide RecoveredSteps;
    hide HasRunningTask;
    var db' := Recovered(db, summary);
    forall t | t in db'.tasks ensures RowOk(db', t) {
      RowIsOk(db, t);
      RecoveredShape(db.steps[t]);
    }
    assert forall t :: t in db.tasks ==> db'.tasks[t].taskNo == db.tasks[t].taskNo;
  }

  lemma RecoverTxs(db: Db, txs: map<nat, Tx>, summary: string)
    requires TxsOk(db, txs)
    ensures TxsOk(Recovered(db, summary), txs)
  {
    hide IsTaskNo;
    hide RecoveredSteps;
    hide HasRunningTask;
    var db' := Recovered(db, summary);
    forall a | a in txs ensures TxOk(db', a, txs[a]) {
      TxIsOk(db, txs, a);
      assert HasActiveTask(db', a) ==> HasActiveTask(db, a);
    }
  }

  lemma RecoverCoherent(db: Db, newest: map<nat, nat>, summary: string)
    requires Coherent(db, newest)
    ensures Coherent(Recovered(db, summary), newest)
  {
    hide RecoveredSteps;
    var db' := Recovered(db, summary);
    forall t | t in db'.tasks ensures TaskCoherent(db', newest, t) {
      assert TaskCoherent(db, newest, t);
    }
    forall a | a in db'.apps ensures AppCoherent(db', newest, a) {
      assert AppCoherent(db, newest, a);
      RecoveredApp(db, newest, a);
    }
  }

  /** An app has a running task exactly when its newest task is running. */
  lemma RecoveredApp(db: Db, newest: map<nat, nat>, a: nat)
    requires Coherent(db, newest)
    ensures HasRunningTask(db, a) <==> a in newest && newest[a] in db.tasks && db.tasks[newest[a]].status == Running
  {
    hide AppCoherent;
    if HasRunningTask(db, a) {
      var t :| t in db.tasks && db.tasks[t].appId == a && db.tasks[t].status == Running;
      assert TaskCoherent(db, newest, t);
    }
  }

  lemma RecoverRisk(db: Db, completions: seq<nat>, summary: string)
    requires RiskOk(db, completions)
    ensures RiskOk(Recovered(db, summary), completions)
  {
    hide RecoveredSteps;
    hide ResolveRiskLevel;
    hide HasRunningTask;
    var db' := Recovered(db, summary);
    forall a | a in db'.apps
      ensures db'.apps[a].risk == RiskOf(db'.tasks, LastCompleted(completions, db'.tasks, a))
    {
      LastCompletedFrame(completions, db.tasks, db'.tasks, a);
    }
  }

  /** The cleanup list is exactly the recorded keys of the listed rows, as they were before the transition. */
  lemma {:induction false} CleanupLists(db: Db, ids: seq<nat>)
    requires forall i :: 0 <= i < |ids| ==> ids[i] in db.tasks
    ensures forall t, key :: (t, key) in CleanupList(db, ids) <==> t in ids && key in Keys(db.tasks[t].artifacts)
  {
    hide Keys;
    if ids != [] {
      var first := Tagged(ids[0], Keys(db.tasks[ids[0]].artifacts));
      CleanupLists(db, ids[1..]);
      forall t, key
        ensures (t, key) in CleanupList(db, ids) <==> t in ids && key in Keys(db.tasks[t].artifacts)
      {
        assert (t, key) in first <==> t == ids[0] && key in Keys(db.tasks[t].artifacts) by {
          TaggedMembers(ids[0], Keys(db.tasks[ids[0]].artifacts), t, key);
        }
        assert t in ids <==> t == ids[0] || t in ids[1..];
      }
    }
  }

  lemma TaggedMembers(t: nat, keys: seq<string>, u: nat, key: string)
    ensures (u, key) in Tagged(t, keys) <==> u == t && key in keys
  {
    var r := Tagged(t, keys);
    if u == t && key in keys {
      var i :| 0 <= i < |keys| && keys[i] == key;
      assert r[i] == (u, key);
    }
  }

  lemma RecoverPending(db: Db, ids: seq<nat>, summary: string)
    requires RowsOk(db) && Lists(ids, RunningIds(db))
    ensures PendingOk(Recovered(db, summary), CleanupList(db, ids))
  {
    hide Keys;
    hide Owner;
    hide RecoveredSteps;
    hide HasRunningTask;
    hide RowsOk;
    hide CleanupList;
    var db', pending := Recovered(db, summary), CleanupList(db, ids);
    CleanupLists(db, ids);
    forall i | 0 <= i < |pending|
      ensures pending[i].0 in db'.tasks && db'.tasks[pending[i].0].status == Failed
           && Owner(pending[i].1) == db'.tasks[pending[i].0].taskNo
    {
      var (t, key) := pending[i];
      assert (t, key) in pending;
      RowOwns(db, t);
    }
  }

  lemma PendingKeysOf(pending: seq<(nat, string)>, t: nat, key: string)
    requires (t, key) in pending
    ensures key in PendingKeys(AfterCleaning(pending))
  {
    var i :| 0 <= i < |pending| && pending[i] == (t, key);
    assert pending[i].1 == key;
  }

  lemma RecoverObjects(db: Db, objects: set<string>, leak: set<string>, ids: seq<nat>, summary: string)
    requires ObjectsOk(db, objects, Down, leak) && Lists(ids, RunningIds(db))
    ensures ObjectsOk(Recovered(db, summary), objects, AfterCleaning(CleanupList(db, ids)), leak)
  {
    hide IsSourceKey;
    hide Keys;
    hide KeysPresent;
    hide PendingKeys;
    hide CleanupList;
    hide RecoveredSteps;
    hide HasRunningTask;
    var db', pending := Recovered(db, summary), CleanupList(db, ids);
    var pc' := AfterCleaning(pending);
    NothingWhenDown();
    CleanupLists(db, ids);
    forall key | key in objects && !IsSourceKey(key) ensures Accounted(db', pc', leak, key) {
      assert Accounted(db, Down, leak, key);
      if Recorded(db, key) {
        var t :| t in db.tasks && key in Keys(db.tasks[t].artifacts);
        if db.tasks[t].status == Running {
          assert (t, key) in pending;
          PendingKeysOf(pending, t, key);
        } else {
          assert t in db'.tasks && key in Keys(db'.tasks[t].artifacts);
        }
      }
    }
  }

  lemma Recovers(s: State, ids: seq<nat>, summary: string)
    requires Inv(s) && WorkEnabled(s, RecoverCommit(ids, summary))
    ensures Inv(ApplyWork(s, RecoverCommit(ids, summary)))
  {
    hide RowsOk;
    hide TxsOk;
    hide Coherent;
    hide ObjectsOk;
    hide RiskOk;
    hide PendingOk;
    hide CleanupList;
    hide RecoveredSteps;
    hide HasRunningTask;
    RecoverRows(s.db, summary);
    RecoverTxs(s.db, s.txs, summary);
    RecoverCoherent(s.db, s.newest, summary);
    RecoverPending(s.db, ids, summary);
    RecoverObjects(s.db, s.objects, s.leak, ids, summary);
    RecoverRisk(s.db, s.completions, summary);
  }

  lemma GivesUpRecovery(s: State)
    requires Inv(s) && s.pc.Down?
    ensures Inv(s.(pc := Idle))
  {
    hide RowsOk;
    hide TxsOk;
    hide Coherent;
    hide ObjectsOk;
    hide RiskOk;
    PcOnly(s, s.(pc := Idle));
  }

  // ---------------------------------------------------------------- all of them

  /** Every step of the worker keeps the invariants. */
  lemma WorkKeepsInv(s: State, step: WorkerStep)
    requires Inv(s) && WorkEnabled(s, step)
    ensures Inv(ApplyWork(s, step))
  {
    hide Inv;
    match step
    case RecoverFail => GivesUpRecovery(s);
    case RecoverCommit(ids, summary) => Recovers(s, ids, summary);
    case CleanOne(ok, gone) => Cleans(s, ok, gone);
    case Pick(t) => Picks(s, t);
    case MarkRunning(ok) => MarksRunning(s, ok);
    case MakeDir(ok) => MakesDir(s, ok);
    case BeginStep(ok) => BeginsStep(s, ok);
    case BodyOk => Bodies(s, step);
    case Collect(_, _, _) => Bodies(s, step);
    case BodyFail => Bodies(s, step);
    case Put(ok, landed) => Puts(s, ok, landed);
    case Record(ok) => Records(s, ok);
    case EndStep(ok) => EndsStep(s, ok);
    case FailStep(ok) => FailsStep(s, ok);
    case Complete(ok) => Completes(s, ok);
    case RollBackOne(ok, gone) => RollsBack(s, ok, gone);
    case RemoveDir(ok) => RemovesDir(s, ok);
    case MarkFailed(ok, summary) => MarksFailed(s, ok, summary);
  }
}
