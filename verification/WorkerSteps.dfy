/** Every step of the worker, successful or not, keeps the invariants of the pipeline. */
module WorkerSteps {
  import opened Wrappers
  import opened Strategy
  import opened Tables
  import opened ObjectKeys
  import opened Pipeline
  import opened Invariants
  import opened ApiCalls

  // ---------------------------------------------------------------- one task row at a time

  /** Only task t, its steps and the status and risk of apps may differ. */
  predicate Touches(db: Db, db': Db, t: nat) {
    && t in db.tasks && db'.tasks.Keys == db.tasks.Keys && db'.steps.Keys == db.steps.Keys
    && db'.apps.Keys == db.apps.Keys && db'.nextApp == db.nextApp && db'.nextTask == db.nextTask
    && (forall u :: u in db.tasks && u != t ==> db'.tasks[u] == db.tasks[u])
    && (forall u :: u in db.steps && u != t ==> db'.steps[u] == db.steps[u])
    && db'.tasks[t].taskNo == db.tasks[t].taskNo
    && db'.tasks[t].appId == db.tasks[t].appId
    && db'.tasks[t].snapshot == db.tasks[t].snapshot
    && (forall a :: a in db.apps ==> db'.apps[a].objectKey == db.apps[a].objectKey)
  }

  lemma RowsAfter(db: Db, db': Db, t: nat)
    requires RowsOk(db) && Touches(db, db', t) && t in db'.steps && RowOk(db', t)
    ensures RowsOk(db')
  {
    hide IsTaskNo;
    hide IsSourceKey;
    hide StepsShaped;
    hide StepsAt;
    hide OwnsArtifacts;
    forall u | u in db'.tasks ensures RowOk(db', u) {
      assert u != t ==> RowOk(db, u);
    }
  }

  lemma TxsAfter(db: Db, db': Db, txs: map<nat, Tx>, t: nat)
    requires TxsOk(db, txs) && Touches(db, db', t)
    requires Active(db'.tasks[t].status) ==> Active(db.tasks[t].status)
    ensures TxsOk(db', txs)
  {
    hide IsTaskNo;
    forall a | a in txs ensures TxOk(db', a, txs[a]) {
      TxIsOk(db, txs, a);
    }
  }

  lemma CoherentAfter(db: Db, db': Db, newest: map<nat, nat>, t: nat)
    requires Coherent(db, newest) && Touches(db, db', t)
    requires Active(db'.tasks[t].status) ==> Active(db.tasks[t].status)
    requires forall a :: a in db.apps ==>
      db'.apps[a].status == if a in newest && newest[a] == t then StatusFor(db'.tasks[t].status) else db.apps[a].status
    ensures Coherent(db', newest)
  {
    hide TaskCoherent;
    hide AppCoherent;
    forall u | u in db'.tasks ensures TaskCoherent(db', newest, u) {
      assert TaskCoherent(db, newest, u);
      TaskCoherentAfter(db, db', newest, t, u);
    }
    forall a | a in db'.apps ensures AppCoherent(db', newest, a) {
      assert AppCoherent(db, newest, a);
      AppCoherentAfter(db, db', newest, t, a);
    }
  }

  lemma TaskCoherentAfter(db: Db, db': Db, newest: map<nat, nat>, t: nat, u: nat)
    requires Touches(db, db', t) && u in db.tasks && TaskCoherent(db, newest, u)
    requires Active(db'.tasks[t].status) ==> Active(db.tasks[t].status)
    ensures TaskCoherent(db', newest, u)
  {
  }

  lemma AppCoherentAfter(db: Db, db': Db, newest: map<nat, nat>, t: nat, a: nat)
    requires Touches(db, db', t) && a in db.apps && AppCoherent(db, newest, a)
    requires db'.apps[a].status == if a in newest && newest[a] == t then StatusFor(db'.tasks[t].status) else db.apps[a].status
    ensures AppCoherent(db', newest, a)
  {
  }

  /** An active task is its app's newest, and no other app's. */
  lemma ActiveIsNewest(db: Db, newest: map<nat, nat>, t: nat)
    requires Coherent(db, newest) && t in db.tasks && Active(db.tasks[t].status)
    ensures db.tasks[t].appId in db.apps
    ensures forall a :: a in newest ==> (newest[a] == t <==> a == db.tasks[t].appId)
    ensures db.apps[db.tasks[t].appId].status == AppProcessing
  {
    assert TaskCoherent(db, newest, t);
    assert AppCoherent(db, newest, db.tasks[t].appId);
  }

  lemma RiskAfter(db: Db, db': Db, completions: seq<nat>, t: nat)
    requires RiskOk(db, completions) && Touches(db, db', t)
    requires db'.tasks[t].status == Completed <==> db.tasks[t].status == Completed
    requires forall a :: a in db.apps ==> db'.apps[a].risk == db.apps[a].risk
    ensures RiskOk(db', completions)
  {
    hide ResolveRiskLevel;
    forall a | a in db'.apps
      ensures db'.apps[a].risk == RiskOf(db'.tasks, LastCompleted(completions, db'.tasks, a))
    {
      LastCompletedFrame(completions, db.tasks, db'.tasks, a);
    }
  }

  // ---------------------------------------------------------------- objects

  /** A step that moves neither objects nor recorded keys. */
  lemma ObjectsMove(db: Db, db': Db, objects: set<string>, pc: Pc, pc': Pc, leak: set<string>)
    requires ObjectsOk(db, objects, pc, leak)
    requires db'.tasks.Keys == db.tasks.Keys
    requires forall t :: t in db.tasks ==>
      && db'.tasks[t].artifacts == db.tasks[t].artifacts
      && (db'.tasks[t].status == Completed ==> db.tasks[t].status == Completed)
    requires Uploads(pc') == Uploads(pc) && PendingKeys(pc') == PendingKeys(pc)
    requires Unwinding(pc') && pc'.job.id in db.tasks ==>
      Unreferenced(objects, pc', leak, db'.tasks[pc'.job.id].artifacts)
    ensures ObjectsOk(db', objects, pc', leak)
  {
    hide KeysPresent;
    hide IsSourceKey;
    hide Unreferenced;
    hide Uploads;
    hide PendingKeys;
    hide Keys;
    forall key | key in objects && !IsSourceKey(key) ensures Accounted(db', pc', leak, key) {
      assert Accounted(db, pc, leak, key);
      if Recorded(db, key) {
        var t :| t in db.tasks && key in Keys(db.tasks[t].artifacts);
        assert t in db'.tasks && key in Keys(db'.tasks[t].artifacts);
      }
    }
  }

  /** Unwinding starts with everything the row records among the uploads, or with nothing recorded. */
  lemma UnwindStarts(objects: set<string>, pc': Pc, leak: set<string>, arts: ArtifactFields)
    requires arts == NO_ARTIFACTS || Uploads(pc') == Keys(arts)
    ensures Unreferenced(objects, pc', leak, arts)
  {
    hide Uploads;
  }

  // ---------------------------------------------------------------- steps of the worker that leave all rows alone

  lemma PcOnly(s: State, s': State)
    requires Inv(s) && s' == s.(pc := s'.pc)
    requires PcOk(s.db, s'.pc) && Uploads(s'.pc) == Uploads(s.pc) && PendingKeys(s'.pc) == PendingKeys(s.pc)
    requires CurrentTask(s'.pc) == CurrentTask(s.pc)
    requires Unwinding(s'.pc) && s'.pc.job.id in s.db.tasks ==>
      Unreferenced(s.objects, s'.pc, s.leak, s.db.tasks[s'.pc.job.id].artifacts)
    ensures Inv(s')
  {
    hide RowsOk;
    hide TxsOk;
    hide Coherent;
    hide PcOk;
    hide ObjectsOk;
    hide RiskOk;
    hide Uploads;
    hide PendingKeys;
    hide Unreferenced;
    hide CurrentTask;
    ObjectsMove(s.db, s.db, s.objects, s.pc, s'.pc, s.leak);
  }

  lemma Picks(s: State, t: nat)
    requires Inv(s) && WorkEnabled(s, Pick(t))
    ensures Inv(ApplyWork(s, Pick(t)))
  {
    hide TxsOk;
    hide Coherent;
    hide ObjectsOk;
    hide RiskOk;
    hide RowOk;
    PcOnly(s, ApplyWork(s, Pick(t)));
  }

  lemma MakesDir(s: State, ok: bool)
    requires Inv(s) && WorkEnabled(s, MakeDir(ok))
    ensures Inv(ApplyWork(s, MakeDir(ok)))
  {
    hide RowsOk;
    hide TxsOk;
    hide Coherent;
    hide ObjectsOk;
    hide RiskOk;
    var s' := ApplyWork(s, MakeDir(ok));
    UnwindStarts(s.objects, s'.pc, s.leak, s.db.tasks[s.pc.job.id].artifacts);
    PcOnly(s, s');
  }

  lemma CollectedIsOwned(job: Job, size: int, sha: string, signed: Option<(int, string)>)
    requires IsTaskNo(job.taskNo) && size > 0 && (signed.Some? ==> signed.value.0 > 0)
    ensures OwnsArtifacts(job.taskNo, Collected(job, size, sha, signed))
  {
    hide SanitizeSegment;
    hide Split;
    var ext := ArtifactExt(job.sourceKey);
    ArtifactKeySegments(job.packageName, job.taskNo, Unsigned, ext);
    ArtifactKeySegments(job.packageName, job.taskNo, SignedTest, ext);
    if ArtifactKey(job.packageName, job.taskNo, SignedTest, ext) == ArtifactKey(job.packageName, job.taskNo, Unsigned, ext) {
      ArtifactKeyInjective(job.packageName, job.taskNo, SignedTest, ext, job.packageName, job.taskNo, Unsigned, ext);
    }
    ArtifactKeyNonEmpty(job.packageName, job.taskNo, Unsigned, ext);
  }

  lemma ArtifactKeyNonEmpty(packageName: string, taskNo: string, kind: Kind, ext: string)
    ensures ArtifactKey(packageName, taskNo, kind, ext) != ""
  {
    hide SanitizeSegment;
  }

  lemma Bodies(s: State, step: WorkerStep)
    requires Inv(s) && WorkEnabled(s, step) && (step.BodyOk? || step.BodyFail? || step.Collect?)
    ensures Inv(ApplyWork(s, step))
  {
    hide TxsOk;
    hide Coherent;
    hide ObjectsOk;
    hide RiskOk;
    hide StepsAt;
    hide StepsShaped;
    hide IsTaskNo;
    hide Owner;
    hide Collected;
    hide RowsOk;
    hide StuckOk;
    var s', job := ApplyWork(s, step), s.pc.job;
    RowIsOk(s.db, job.id);
    if step.Collect? {
      CollectedIsOwned(job, step.unsignedSize, step.unsignedSha, step.signed);
    } else if step.BodyFail? {
      UploadsAreOwned(s.db, s.pc);
      UnwindStarts(s.objects, s'.pc, s.leak, s.db.tasks[job.id].artifacts);
    }
    PcOnly(s, s');
  }

  lemma RemovesDir(s: State, ok: bool)
    requires Inv(s) && WorkEnabled(s, RemoveDir(ok))
    ensures Inv(ApplyWork(s, RemoveDir(ok)))
  {
    hide RowsOk;
    hide TxsOk;
    hide Coherent;
    hide RiskOk;
    hide KeysPresent;
    hide IsSourceKey;
    hide Accounted;
    hide Keys;
    PcOnly(s, ApplyWork(s, RemoveDir(ok)));
  }

  // ---------------------------------------------------------------- steps of the worker that move one task row

  lemma RowStep(s: State, s': State, t: nat)
    requires Inv(s) && s' == s.(db := s'.db, pc := s'.pc)
    requires Touches(s.db, s'.db, t) && t in s'.db.steps && RowOk(s'.db, t)
    requires StatusFor(s'.db.tasks[t].status) == StatusFor(s.db.tasks[t].status)
    requires s'.db.apps == s.db.apps
    requires PcOk(s'.db, s'.pc) && ObjectsOk(s'.db, s.objects, s'.pc, s.leak)
    requires s'.db.tasks[t].status == Running ==> t in s.stuck || CurrentTask(s'.pc) == Some(t)
    requires CurrentTask(s'.pc) == CurrentTask(s.pc) || CurrentTask(s.pc) == None
    ensures Inv(s')
  {
    hide RowsOk;
    hide RowOk;
    hide TxsOk;
    hide Coherent;
    hide PcOk;
    hide ObjectsOk;
    hide RiskOk;
    hide CurrentTask;
    RowsAfter(s.db, s'.db, t);
    TxsAfter(s.db, s'.db, s.txs, t);
    StatusKept(s.db, s'.db, s.newest, t);
    CoherentAfter(s.db, s'.db, s.newest, t);
    RiskAfter(s.db, s'.db, s.completions, t);
  }

  lemma StatusKept(db: Db, db': Db, newest: map<nat, nat>, t: nat)
    requires Coherent(db, newest) && Touches(db, db', t) && db'.apps == db.apps
    requires StatusFor(db'.tasks[t].status) == StatusFor(db.tasks[t].status)
    ensures forall a :: a in db.apps ==>
      db'.apps[a].status == if a in newest && newest[a] == t then StatusFor(db'.tasks[t].status) else db.apps[a].status
  {
    hide TaskCoherent;
    forall a | a in db.apps && a in newest && newest[a] == t
      ensures db.apps[a].status == StatusFor(db.tasks[t].status)
    {
      assert AppCoherent(db, newest, a);
    }
  }

  lemma RowIsOk(db: Db, t: nat)
    requires RowsOk(db) && t in db.tasks
    ensures t in db.steps && RowOk(db, t)
  {
    hide RowOk;
  }

  /** The task row moves. */
  lemma TaskStep(s: State, t: nat, row: TaskRow, pc': Pc)
    requires Inv(s) && t in s.db.tasks && t in s.db.steps
    requires row.taskNo == s.db.tasks[t].taskNo && row.appId == s.db.tasks[t].appId
    requires row.snapshot == s.db.tasks[t].snapshot && StatusFor(row.status) == StatusFor(s.db.tasks[t].status)
    requires var db' := s.db.(tasks := s.db.tasks[t := row]);
      RowOk(db', t) && PcOk(db', pc') && ObjectsOk(db', s.objects, pc', s.leak)
    requires row.status == Running ==> t in s.stuck || CurrentTask(pc') == Some(t)
    requires CurrentTask(pc') == CurrentTask(s.pc) || CurrentTask(s.pc) == None
    ensures Inv(s.(db := s.db.(tasks := s.db.tasks[t := row]), pc := pc'))
  {
    hide RowsOk;
    hide RowOk;
    hide TxsOk;
    hide Coherent;
    hide PcOk;
    hide ObjectsOk;
    hide RiskOk;
    hide StuckOk;
    hide CurrentTask;
    RowStep(s, s.(db := s.db.(tasks := s.db.tasks[t := row]), pc := pc'), t);
  }

  /** The step rows of a running task move. */
  lemma StepRowsStep(s: State, t: nat, rows: seq<StepRow>, pc': Pc)
    requires Inv(s) && t in s.db.tasks && t in s.db.steps && s.db.tasks[t].status == Running
    requires StepsShaped(rows)
    requires PcOk(s.db.(steps := s.db.steps[t := rows]), pc')
    requires Uploads(pc') == Uploads(s.pc) && PendingKeys(pc') == PendingKeys(s.pc)
    requires Unwinding(pc') ==> pc'.job.id == t && Unreferenced(s.objects, pc', s.leak, s.db.tasks[t].artifacts)
    requires CurrentTask(pc') == CurrentTask(s.pc) == Some(t)
    ensures Inv(s.(db := s.db.(steps := s.db.steps[t := rows]), pc := pc'))
  {
    hide RowsOk;
    hide TxsOk;
    hide Coherent;
    hide PcOk;
    hide ObjectsOk;
    hide RiskOk;
    hide StuckOk;
    hide CurrentTask;
    hide Uploads;
    hide PendingKeys;
    hide Unreferenced;
    hide StepsShaped;
    hide OwnsArtifacts;
    hide IsTaskNo;
    var s' := s.(db := s.db.(steps := s.db.steps[t := rows]), pc := pc');
    RowIsOk(s.db, t);
    ObjectsMove(s.db, s'.db, s.objects, s.pc, pc', s.leak);
    RowStep(s, s', t);
  }

  lemma MarksRunning(s: State, ok: bool)
    requires Inv(s) && WorkEnabled(s, MarkRunning(ok))
    ensures Inv(AfterMarkRunning(s, ok))
  {
    hide RowsOk;
    hide TxsOk;
    hide Coherent;
    hide ObjectsOk;
    hide RiskOk;
    hide StepsAt;
    hide StepsShaped;
    hide OwnsArtifacts;
    hide IsTaskNo;
    var s', t := AfterMarkRunning(s, ok), s.pc.job.id;
    RowIsOk(s.db, t);
    ObjectsMove(s.db, s'.db, s.objects, s.pc, s'.pc, s.leak);
    if ok {
      TaskStep(s, t, s.db.tasks[t].(status := Running), Entering(s.pc.job));
    } else {
      PcOnly(s, s');
    }
  }

  /** The step the worker looks up is row k, and its guards let a step in order through. */
  lemma StepFound(rows: seq<StepRow>, k: nat, status: StepStatus)
    requires StepsShaped(rows) && 1 <= k <= 6 && StepsAt(rows, k - 1, status)
    ensures IndexOfStep(rows, StepKeyAt(k)) == Some(k - 1)
    ensures !PriorIncomplete(rows, k - 1)
  {
    var found := IndexOfStep(rows, StepKeyAt(k));
    assert rows[k - 1].key == StepKeyAt(k);
    if found.Some? {
      assert rows[found.value].key == StepKeyAt(found.value + 1);
    }
  }

  lemma StepsMoved(rows: seq<StepRow>, k: nat, status: StepStatus, next: StepStatus)
    requires StepsShaped(rows) && 1 <= k <= 6 && StepsAt(rows, k - 1, status) && next != StepWaiting
    ensures var rows' := rows[k - 1 := rows[k - 1].(status := next)];
      && StepsShaped(rows') && StepsAt(rows', k - 1, next)
      && (next == StepSuccess && k < 6 ==> StepsAt(rows', k, StepWaiting))
      && (next == StepSuccess && k == 6 ==> StepsAt(rows', 6, StepSuccess))
  {
  }

  lemma BeginsStep(s: State, ok: bool)
    requires Inv(s) && WorkEnabled(s, BeginStep(ok))
    ensures Inv(AfterBeginStep(s, ok))
    ensures ok ==> AfterBeginStep(s, ok).pc.InStep?
  {
    hide RowsOk;
    hide TxsOk;
    hide Coherent;
    hide ObjectsOk;
    hide RiskOk;
    hide StuckOk;
    hide StepsAt;
    hide StepsShaped;
    hide StepKeyAt;
    hide OwnsArtifacts;
    hide IsTaskNo;
    hide Keys;
    hide Owner;
    hide OwnedList;
    hide PriorIncomplete;
    hide IndexOfStep;
    var s', t, k := AfterBeginStep(s, ok), s.pc.job.id, s.pc.k;
    RowIsOk(s.db, t);
    StepFound(s.db.steps[t], k, StepWaiting);
    StepsRead(s.db.steps[t], k - 1, StepWaiting);
    StepsMoved(s.db.steps[t], k, StepWaiting, StepRunning);
    if ok {
      StepRowsStep(s, t, s'.db.steps[t], s'.pc);
    } else {
      UnwindStarts(s.objects, s'.pc, s.leak, s.db.tasks[t].artifacts);
      PcOnly(s, s');
    }
  }

  lemma StepsRead(rows: seq<StepRow>, n: nat, status: StepStatus)
    requires StepsAt(rows, n, status) && n < 6
    ensures |rows| == 6 && rows[n].status == status
  {
  }

  lemma Records(s: State, ok: bool)
    requires Inv(s) && WorkEnabled(s, Record(ok))
    ensures Inv(AfterRecord(s, ok))
  {
    hide RowsOk;
    hide TxsOk;
    hide Coherent;
    hide ObjectsOk;
    hide RiskOk;
    hide StuckOk;
    hide StepsAt;
    hide StepsShaped;
    hide StepKeyAt;
    hide OwnsArtifacts;
    hide IsTaskNo;
    hide Keys;
    hide Owner;
    hide OwnedList;
    hide PriorIncomplete;
    hide IndexOfStep;
    var s', t, arts := AfterRecord(s, ok), s.pc.job.id, s.pc.arts;
    RowIsOk(s.db, t);
    assert IsTaskNo(s.pc.job.taskNo);
    OwnedKeysAreNoSources(s.pc.job.taskNo, arts);
    assert s.pc.puts == Keys(arts);
    if ok {
      RecordObjects(s.db, s'.db, s.objects, s.pc, s'.pc, s.leak, t, arts);
      TaskStep(s, t, s.db.tasks[t].(artifacts := arts), s'.pc);
    } else {
      UnwindStarts(s.objects, s'.pc, s.leak, s.db.tasks[t].artifacts);
      PcOnly(s, s');
    }
  }

  lemma RecordObjects(db: Db, db': Db, objects: set<string>, pc: Pc, pc': Pc, leak: set<string>, t: nat, arts: ArtifactFields)
    requires ObjectsOk(db, objects, pc, leak) && t in db.tasks && db.tasks[t].status == Running
    requires db.tasks[t].artifacts == NO_ARTIFACTS
    requires db'.tasks == db.tasks[t := db.tasks[t].(artifacts := arts)]
    requires Uploads(pc') == Uploads(pc) && PendingKeys(pc') == PendingKeys(pc) && !Unwinding(pc')
    ensures ObjectsOk(db', objects, pc', leak)
  {
    hide KeysPresent;
    hide IsSourceKey;
    hide Uploads;
    hide PendingKeys;
    forall key | key in objects && !IsSourceKey(key) ensures Accounted(db', pc', leak, key) {
      assert Accounted(db, pc, leak, key);
      if Recorded(db, key) {
        var u :| u in db.tasks && key in Keys(db.tasks[u].artifacts);
        assert u in db'.tasks && key in Keys(db'.tasks[u].artifacts);
      }
    }
  }

  lemma EndsStep(s: State, ok: bool)
    requires Inv(s) && WorkEnabled(s, EndStep(ok))
    ensures Inv(AfterEndStep(s, ok))
    ensures ok ==> !AfterEndStep(s, ok).pc.Leaving? && !AfterEndStep(s, ok).pc.RollingBack?
  {
    hide RowsOk;
    hide TxsOk;
    hide Coherent;
    hide ObjectsOk;
    hide RiskOk;
    hide StuckOk;
    hide StepsAt;
    hide StepsShaped;
    hide StepKeyAt;
    hide OwnsArtifacts;
    hide IsTaskNo;
    hide Keys;
    hide Owner;
    hide OwnedList;
    hide PriorIncomplete;
    hide IndexOfStep;
    var s', t, k := AfterEndStep(s, ok), s.pc.job.id, s.pc.k;
    RowIsOk(s.db, t);
    StepFound(s.db.steps[t], k, StepRunning);
    StepsRead(s.db.steps[t], k - 1, StepRunning);
    StepsMoved(s.db.steps[t], k, StepRunning, StepSuccess);
    UnwindOwned(s.db, s.pc);
    KeysOfNothing();
    if ok {
      StepRowsStep(s, t, s'.db.steps[t], s'.pc);
    } else {
      UnwindStarts(s.objects, s'.pc, s.leak, s.db.tasks[t].artifacts);
      PcOnly(s, s');
    }
  }

  lemma KeysOfNothing()
    ensures Keys(NO_ARTIFACTS) == []
  {
  }

  lemma UnwindOwned(db: Db, pc: Pc)
    requires RowsOk(db) && PcOk(db, pc) && (pc.StepDone? || pc.Completing?)
    ensures OwnedList(pc.job.taskNo, Uploads(pc))
  {
    hide PcOk;
    hide RowsOk;
    hide Owner;
    UploadsAreOwned(db, pc);
  }

  lemma FailsStep(s: State, ok: bool)
    requires Inv(s) && WorkEnabled(s, FailStep(ok))
    ensures Inv(AfterFailStep(s, ok))
  {
    hide RowsOk;
    hide TxsOk;
    hide Coherent;
    hide ObjectsOk;
    hide RiskOk;
    hide StuckOk;
    hide StepsAt;
    hide StepsShaped;
    hide StepKeyAt;
    hide OwnsArtifacts;
    hide IsTaskNo;
    hide Keys;
    hide Owner;
    hide OwnedList;
    hide PriorIncomplete;
    hide IndexOfStep;
    var s', t, k := AfterFailStep(s, ok), s.pc.job.id, s.pc.k;
    RowIsOk(s.db, t);
    StepFound(s.db.steps[t], k, StepRunning);
    StepsRead(s.db.steps[t], k - 1, StepRunning);
    StepsMoved(s.db.steps[t], k, StepRunning, StepFailed);
    UnwindStarts(s.objects, s'.pc, s.leak, s.db.tasks[t].artifacts);
    if ok {
      StepRowsStep(s, t, s'.db.steps[t], s'.pc);
    } else {
      PcOnly(s, s');
    }
  }
}
