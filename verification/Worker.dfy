/** The hardening worker as it is written: loops, early returns and deferred calls over the repository
    and the object store.  Every method keeps the surroundings valid, so whatever it does is a run of the
    pipeline's state machine and every theorem about reachable states holds of the real tables and
    objects. */
module Worker {
  import opened Wrappers
  import opened Strategy
  import opened Tables
  import opened ObjectKeys
  import opened Pipeline
  import opened Invariants
  import opened WorkerSteps
  import opened Theorems
  import opened Attempts
  import opened Lifecycle
  import opened WorkerEndings
  import opened Repository
  import opened World

  const RECOVERY_SUMMARY := "服务重启导致任务中断"

  /** The step the machine would finish is the step the worker found, whatever ran in between. */
  lemma CurrentStepStands(s: State, job: Job, k: nat)
    requires Inv(s) && (s.pc.StepDone? || s.pc.StepBroken?) && s.pc.job == job && s.pc.k == k
    ensures 1 <= k <= 6 && CurrentStep(s, job, k) == k - 1
  {
    hide RowsOk;
    hide TxsOk;
    hide Coherent;
    hide ObjectsOk;
    hide RiskOk;
    hide StuckOk;
    hide StepsAt;
    hide StepsShaped;
    hide IndexOfStep;
    hide PriorIncomplete;
    hide StepKeyAt;
    hide OwnsArtifacts;
    hide IsTaskNo;
    hide Keys;
    hide OwnedList;
    RowIsOk(s.db, job.id);
    StepFound(s.db.steps[job.id], k, StepRunning);
  }

  lemma StepBegins(s: State, job: Job, k: nat)
    requires Inv(s) && s.pc.BeforeStep? && s.pc.job == job && s.pc.k == k
    ensures 1 <= k <= 6 && FindStep(s.db, job.id, StepKeyAt(k)) == Some(k - 1)
  {
    hide RowsOk;
    hide TxsOk;
    hide Coherent;
    hide ObjectsOk;
    hide RiskOk;
    hide StuckOk;
    hide StepsAt;
    hide StepsShaped;
    hide IndexOfStep;
    hide PriorIncomplete;
    hide StepKeyAt;
    hide OwnsArtifacts;
    hide IsTaskNo;
    hide Keys;
    RowIsOk(s.db, job.id);
    StepFound(s.db.steps[job.id], k, StepWaiting);
  }

  /** The job is its task's row with the app it belongs to. */
  predicate LoadedFrom(db: Db, job: Job) {
    && job.id in db.tasks
    && job.taskNo == db.tasks[job.id].taskNo && job.appId == db.tasks[job.id].appId
    && job.snapshot == db.tasks[job.id].snapshot
    && job.appId in db.apps
    && job.packageName == db.apps[job.appId].packageName && job.sourceKey == db.apps[job.appId].objectKey
  }

  /** A queued task still has its app, so the join always finds one. */
  lemma JobIsLoaded(s: State, t: nat)
    requires Inv(s) && IsNextQueued(s.db, t)
    ensures t in s.db.tasks && LoadedFrom(s.db, JobOf(s.db, t)) && s.db.tasks[t].status == Queued
  {
    hide RowsOk;
    hide TxsOk;
    hide PcOk;
    hide ObjectsOk;
    hide RiskOk;
    hide StuckOk;
    ActiveIsNewest(s.db, s.newest, t);
  }

  /** What the worker's position says of the row of its job. */
  lemma LeavingRow(s: State, job: Job, committed: bool)
    requires Inv(s) && (s.pc == Leaving(job, committed) || s.pc == MarkingFailed(job, committed))
    ensures RowIs(s.db, job.id, if committed then Completed else Running)
  {
    hide RowsOk;
    hide TxsOk;
    hide Coherent;
    hide ObjectsOk;
    hide RiskOk;
    hide StuckOk;
  }

  predicate RowIs(db: Db, t: nat, status: TaskStatus) { t in db.tasks && db.tasks[t].status == status }

  lemma FailMoves(db: Db, t: nat, summary: string)
    ensures FailTask(db, t, summary).Some? ==> RowIs(db, t, Running) && RowIs(FailTask(db, t, summary).value, t, Failed)
  {
  }

  lemma StepStarts(s: State, job: Job, k: nat)
    requires Inv(s) && s.pc.BeforeStep? && s.pc.job == job && s.pc.k == k
    ensures 1 <= k <= 6 && Tables.StartStep(s.db, job.id, k - 1).Some?
  {
    hide Inv;
    hide FindStep;
    hide Tables.StartStep;
    hide StepKeyAt;
    StepBegins(s, job, k);
    BeginsStep(s, true);
  }

  lemma StepEnds(s: State, job: Job, k: nat)
    requires Inv(s) && s.pc.StepDone? && s.pc.job == job && s.pc.k == k
    ensures 1 <= k <= 6 && Tables.FinishStep(s.db, job.id, k - 1, StepSuccess).Some?
  {
    hide Inv;
    hide CurrentStep;
    hide Tables.FinishStep;
    CurrentStepStands(s, job, k);
    EndsStep(s, true);
  }

  /** What the transitions of the worker's own task need is there. */
  lemma TransitionsFind(s: State)
    requires Inv(s)
    ensures s.pc.Picked? ==> Tables.MarkTaskRunning(s.db, s.pc.job.id).Some?
    ensures s.pc.InStep? ==> Tables.RecordArtifacts(s.db, s.pc.job.id, s.pc.arts).Some?
    ensures s.pc.MarkingFailed? && !s.pc.committed ==> forall summary :: FailTask(s.db, s.pc.job.id, summary).Some?
  {
    hide RowsOk;
    hide TxsOk;
    hide ObjectsOk;
    hide RiskOk;
    hide StuckOk;
    hide StepsAt;
    hide OwnsArtifacts;
    hide Keys;
    hide Coherent;
    if s.pc.MarkingFailed? && !s.pc.committed {
      ActiveIsNewest(s.db, s.newest, s.pc.job.id);
    }
  }

  lemma CompletionFinds(s: State)
    requires Inv(s) && s.pc.Completing?
    ensures CompleteTask(s.db, s.pc.job.id, s.pc.arts, ResolveRiskLevel(s.pc.job.snapshot)).Some?
  {
    hide Inv;
    hide Keys;
    hide CompleteTask;
    hide ResolveRiskLevel;
    Completes(s, true);
  }

  class HardeningWorker {
    const around: Surroundings
    const repo: HardeningRepository
    const storage: ObjectStorage

    constructor (around: Surroundings)
      ensures this.around == around && repo == around.repo && storage == around.storage
    {
      this.around := around;
      repo := around.repo;
      storage := around.storage;
    }

    ghost predicate Valid()
      reads this, around, repo, storage
    {
      repo == around.repo && storage == around.storage && around.Valid()
    }

    /** Nothing goes wrong from one step of the surroundings up to another. */
    ghost predicate AllLucky(from: nat, upto: nat)
    {
      forall n :: from <= n < upto ==> Lucky(around.script(n))
    }

    ghost function Pc(): Pc
      reads around
    {
      around.machine.pc
    }

    // -------------------------------------------------------------- runStep

    /** The first half of runStep: look the step up and start it. */
    method BeginStep(job: Job, k: nat, ghost arts: ArtifactFields) returns (step: nat, ok: bool)
      requires Valid() && Pc() == BeforeStep(job, k, arts)
      modifies around, repo, storage`objects
      ensures Valid() && Pc() == if ok then InStep(job, k, arts, []) else Leaving(job, false)
      ensures ok ==> 1 <= k <= 6 && step == k - 1
      ensures around.tick == old(around.tick) + 1 && (Lucky(around.script(old(around.tick))) ==> ok)
    {
      hide ValidRun;
      hide Exec;
      hide Inv;
      hide Tables.FindStep;
      hide Tables.StartStep;
      hide StepKeyAt;
      var c := around.Yield();
      StepBegins(around.machine, job, k);
      StepStarts(around.machine, job, k);
      var found := repo.FindStep(job.id, StepKeyAt(k), !c.body);
      if found.None? {
        around.Advance(Work(WorkerStep.BeginStep(false)));
        return 0, false;
      }
      ok := repo.StartStep(job.id, found.value, c.fault);
      around.Advance(Work(WorkerStep.BeginStep(ok)));
      step := found.value;
    }

    /** runStep after a nil error of its closure. */
    method EndStep(job: Job, k: nat, step: nat, ghost arts: ArtifactFields, ghost puts: seq<string>) returns (ok: bool)
      requires Valid() && Pc() == StepDone(job, k, arts, puts) && step == k - 1
      modifies around, repo, storage`objects
      ensures Valid()
      ensures Pc() == if !ok then Unwind(job, puts) else if k < 6 then BeforeStep(job, k + 1, arts) else Completing(job, arts)
      ensures around.tick == old(around.tick) + 1 && (Lucky(around.script(old(around.tick))) ==> ok)
    {
      hide ValidRun;
      hide Exec;
      hide Inv;
      hide CurrentStep;
      hide Tables.FinishStep;
      var c := around.Yield();
      CurrentStepStands(around.machine, job, k);
      StepEnds(around.machine, job, k);
      ok := repo.FinishStep(job.id, step, StepSuccess, c.fault);
      around.Advance(Work(WorkerStep.EndStep(ok)));
    }

    /** runStep after an error of its closure; what FinishStepFailed answers is dropped. */
    method FailStep(job: Job, k: nat, step: nat, ghost puts: seq<string>)
      requires Valid() && Pc() == StepBroken(job, k, puts) && step == k - 1
      modifies around, repo, storage`objects
      ensures Valid() && Pc() == Unwind(job, puts) && around.tick == old(around.tick) + 1
    {
      hide ValidRun;
      hide Exec;
      hide Inv;
      hide CurrentStep;
      hide Tables.FinishStep;
      var c := around.Yield();
      CurrentStepStands(around.machine, job, k);
      var ok := repo.FinishStep(job.id, step, StepFailed, c.fault);
      around.Advance(Work(WorkerStep.FailStep(ok)));
    }

    // -------------------------------------------------------------- single calls

    /** The closure of the current step returns an error. */
    method BreakStep(job: Job, k: nat, step: nat, ghost arts: ArtifactFields, ghost puts: seq<string>)
      requires Valid() && Pc() == InStep(job, k, arts, puts) && step == k - 1
      modifies around, repo, storage`objects
      ensures Valid() && Pc() == Unwind(job, puts) && around.tick == old(around.tick) + 2
    {
      hide ValidRun;
      hide Exec;
      hide Inv;
      var c := around.Yield();
      around.Advance(Work(BodyFail));
      FailStep(job, k, step, puts);
    }

    method PassBody(job: Job, k: nat)
      requires Valid() && 1 <= k <= 4 && Pc() == InStep(job, k, NO_ARTIFACTS, [])
      modifies around, repo, storage`objects
      ensures Valid() && Pc() == StepDone(job, k, NO_ARTIFACTS, []) && around.tick == old(around.tick) + 1
    {
      hide ValidRun;
      hide Exec;
      hide Inv;
      var c := around.Yield();
      around.Advance(Work(BodyOk));
    }

    /** What the engine left behind: the unsigned output, and perhaps a signed one. */
    method ReadOutputs(job: Job, size: int, sha: string, signedFile: Option<(int, string)>) returns (arts: ArtifactFields)
      requires Valid() && Pc() == InStep(job, 5, NO_ARTIFACTS, []) && size > 0
      modifies around, repo, storage`objects
      ensures Valid() && Pc() == StepDone(job, 5, arts, [])
      ensures arts == Collected(job, size, sha, if signedFile.Some? && signedFile.value.0 > 0 then signedFile else None)
      ensures arts.unsignedKey == ArtifactKey(job.packageName, job.taskNo, Unsigned, ArtifactExt(job.sourceKey))
      ensures arts.unsignedSize == size && arts.unsignedSha == sha
      ensures signedFile.Some? && signedFile.value.0 > 0 ==>
        && arts.signedKey == ArtifactKey(job.packageName, job.taskNo, SignedTest, ArtifactExt(job.sourceKey))
        && arts.signedSize == signedFile.value.0 && arts.signedSha == signedFile.value.1
      ensures !(signedFile.Some? && signedFile.value.0 > 0) ==>
        arts.signedKey == "" && arts.signedSize == 0 && arts.signedSha == ""
      ensures around.tick == old(around.tick) + 1
    {
      hide ValidRun;
      hide Exec;
      hide Inv;
      hide ArtifactKey;
      hide ArtifactExt;
      var c := around.Yield();
      var ext := ArtifactExt(job.sourceKey);
      arts := NO_ARTIFACTS.(unsignedKey := ArtifactKey(job.packageName, job.taskNo, Unsigned, ext),
                            unsignedSize := size, unsignedSha := sha);
      var signed := if signedFile.Some? && signedFile.value.0 > 0 then signedFile else None;
      if signed.Some? {
        arts := arts.(signedKey := ArtifactKey(job.packageName, job.taskNo, SignedTest, ext),
                      signedSize := signed.value.0, signedSha := signed.value.1);
      }
      around.Advance(Work(Collect(size, sha, signed)));
    }

    method PutOne(job: Job, arts: ArtifactFields, key: string, ghost uploaded: seq<string>) returns (ok: bool)
      requires Valid() && Pc() == InStep(job, 6, arts, uploaded)
      requires |uploaded| < |Keys(arts)| && key == Keys(arts)[|uploaded|]
      modifies around, repo, storage
      ensures Valid()
      ensures Pc() == if ok then InStep(job, 6, arts, uploaded + [key]) else StepBroken(job, 6, uploaded)
      ensures storage.putLog == old(storage.putLog) + (if ok then [key] else [])
      ensures around.tick == old(around.tick) + 1 && (Lucky(around.script(old(around.tick))) ==> ok)
      ensures storage.deleteLog == old(storage.deleteLog)
    {
      hide ValidRun;
      hide Exec;
      hide Inv;
      hide Keys;
      var c := around.Yield();
      ok := storage.PutObject(key, c.fault, c.landed);
      around.Advance(Work(Put(ok, c.landed)));
    }

    method RecordKeys(job: Job, arts: ArtifactFields) returns (ok: bool)
      requires Valid() && Pc() == InStep(job, 6, arts, Keys(arts))
      modifies around, repo, storage`objects
      ensures Valid()
      ensures Pc() == if ok then StepDone(job, 6, arts, Keys(arts)) else StepBroken(job, 6, Keys(arts))
      ensures around.tick == old(around.tick) + 1 && (Lucky(around.script(old(around.tick))) ==> ok)
    {
      hide ValidRun;
      hide Exec;
      hide Inv;
      hide Keys;
      var c := around.Yield();
      TransitionsFind(around.machine);
      ok := repo.RecordArtifacts(job.id, arts, c.fault);
      around.Advance(Work(Record(ok)));
    }

    method DeleteOne(job: Job, key: string, ghost rest: seq<string>)
      requires Valid() && rest != [] && Pc() == RollingBack(job, rest) && key == rest[|rest| - 1]
      modifies around, repo, storage
      ensures Valid() && Pc() == Unwind(job, rest[..|rest| - 1]) && around.tick == old(around.tick) + 1
      ensures storage.deleteLog == old(storage.deleteLog) + [key] && storage.putLog == old(storage.putLog)
    {
      hide ValidRun;
      hide Exec;
      hide Inv;
      var c := around.Yield();
      var ok := storage.DeleteObject(key, c.fault, c.landed);
      around.Advance(Work(RollBackOne(ok, c.landed)));
    }

    method CommitCompletion(job: Job, arts: ArtifactFields) returns (ok: bool)
      requires Valid() && Pc() == Completing(job, arts)
      modifies around, repo, storage`objects
      ensures Valid() && Pc() == if ok then Leaving(job, true) else Unwind(job, Keys(arts))
      ensures ok ==> RowIs(repo.Contents(), job.id, Completed) && repo.tasks[job.id].artifacts == arts
      ensures around.tick == old(around.tick) + 1 && (Lucky(around.script(old(around.tick))) ==> ok)
    {
      hide ValidRun;
      hide Exec;
      hide Inv;
      hide Keys;
      hide ResolveRiskLevel;
      hide CompleteTask;
      var c := around.Yield();
      CompletionFinds(around.machine);
      ok := repo.CompleteTaskForApp(job.id, arts, ResolveRiskLevel(job.snapshot), c.fault);
      around.Advance(Work(Complete(ok)));
    }

    method MakeWorkDir(job: Job) returns (ok: bool)
      requires Valid() && Pc() == Entering(job)
      modifies around, repo, storage`objects
      ensures Valid() && Pc() == if ok then BeforeStep(job, 1, NO_ARTIFACTS) else MarkingFailed(job, false)
      ensures around.tick == old(around.tick) + 1 && (ok <==> !around.script(old(around.tick)).fault)
    {
      hide ValidRun;
      hide Exec;
      hide Inv;
      var c := around.Yield();
      ok := !c.fault;
      around.Advance(Work(MakeDir(ok)));
    }

    method RemoveWorkDir(job: Job, ghost committed: bool) returns (ok: bool)
      requires Valid() && Pc() == Leaving(job, committed)
      modifies around, repo, storage`objects
      ensures Valid() && Pc() == if committed && ok then Idle else MarkingFailed(job, committed)
      ensures RowIs(repo.Contents(), job.id, if committed then Completed else Running)
      ensures around.tick == old(around.tick) + 1 && (ok <==> !around.script(old(around.tick)).fault)
    {
      hide ValidRun;
      hide Exec;
      hide Inv;
      var c := around.Yield();
      LeavingRow(around.machine, job, committed);
      ok := !c.fault;
      around.Advance(Work(RemoveDir(ok)));
    }

    method PickNext() returns (job: Option<Job>, err: bool)
      requires Valid() && Pc() == Idle
      modifies around, repo, storage`objects
      ensures Valid() && Pc() == if job.Some? then Picked(job.value) else Idle
      ensures err ==> job.None?
      ensures job.Some? ==> IsNextQueued(repo.Contents(), job.value.id)
      ensures job.Some? ==>
        && job.value.id in repo.tasks && repo.tasks[job.value.id].status == Queued
        && LoadedFrom(repo.Contents(), job.value)
      ensures job.None? && !err ==> forall t :: t in repo.tasks ==> repo.tasks[t].status != Queued
      ensures around.tick == old(around.tick) + 1 && (Lucky(around.script(old(around.tick))) ==> !err)
    {
      hide ValidRun;
      hide Exec;
      hide Inv;
      hide IsNextQueued;
      var c := around.Yield();
      if c.fault {
        return None, true;
      }
      var next := repo.NextQueuedTask();
      if next.None? {
        return None, false;
      }
      JobIsLoaded(around.machine, next.value);
      job, err := Some(JobOf(repo.Contents(), next.value)), false;
      around.Advance(Work(Pick(next.value)));
    }

    method MarkRunning(job: Job) returns (ok: bool)
      requires Valid() && Pc() == Picked(job)
      modifies around, repo, storage`objects
      ensures Valid() && Pc() == if ok then Entering(job) else Idle
      ensures around.tick == old(around.tick) + 1 && (Lucky(around.script(old(around.tick))) ==> ok)
    {
      hide ValidRun;
      hide Exec;
      hide Inv;
      hide Tables.MarkTaskRunning;
      var c := around.Yield();
      TransitionsFind(around.machine);
      ok := repo.MarkTaskRunning(job.id, c.fault);
      around.Advance(Work(WorkerStep.MarkRunning(ok)));
    }

    method MarkFailed(job: Job, ghost committed: bool) returns (ok: bool)
      requires Valid() && Pc() == MarkingFailed(job, committed)
      modifies around, repo, storage`objects
      ensures Valid() && Pc() == Idle
      ensures RowIs(repo.Contents(), job.id, if committed then Completed else if ok then Failed else Running)
      ensures committed ==> !ok
      ensures around.tick == old(around.tick) + 1
      ensures !committed && !around.script(old(around.tick)).fault && |around.script(old(around.tick)).text| <= 500 ==> ok
    {
      hide ValidRun;
      hide Exec;
      hide Inv;
      hide FailTask;
      var c := around.Yield();
      LeavingRow(around.machine, job, committed);
      FailMoves(around.machine.db, job.id, c.text);
      TransitionsFind(around.machine);
      ok := repo.FailTaskForApp(job.id, c.text, c.fault);
      around.Advance(Work(WorkerStep.MarkFailed(ok, c.text)));
    }

    // -------------------------------------------------------------- the six steps

    /** Steps 1 to 4: their closures touch the work directory, the log and the engine only. */
    method RunPlainStep(job: Job, k: nat, bodyOk: bool) returns (err: bool)
      requires Valid() && 1 <= k <= 4 && Pc() == BeforeStep(job, k, NO_ARTIFACTS)
      modifies around, repo, storage`objects
      ensures Valid() && Pc() == if err then Leaving(job, false) else BeforeStep(job, k + 1, NO_ARTIFACTS)
      ensures around.tick > old(around.tick) && (bodyOk && AllLucky(old(around.tick), around.tick) ==> !err)
      ensures !bodyOk ==> err
    {
      hide Valid;
      var step, ok := BeginStep(job, k, NO_ARTIFACTS);
      if !ok {
        return true;
      }
      if !bodyOk {
        BreakStep(job, k, step, NO_ARTIFACTS, []);
        return true;
      }
      PassBody(job, k);
      ok := EndStep(job, k, step, NO_ARTIFACTS, []);
      err := !ok;
    }

    /** Step 5: a missing or empty unsigned output is an error, a missing or empty signed one is not. */
    method CollectArtifacts(job: Job, outputs: Choice) returns (arts: ArtifactFields, err: bool)
      requires Valid() && Pc() == BeforeStep(job, 5, NO_ARTIFACTS)
      modifies around, repo, storage`objects
      ensures Valid() && Pc() == if err then Leaving(job, false) else BeforeStep(job, 6, arts)
      ensures around.tick > old(around.tick)
      ensures outputs.body && outputs.size > 0 && AllLucky(old(around.tick), around.tick) ==> !err
      ensures !outputs.body || outputs.size <= 0 ==> err
      ensures !err ==> arts.unsignedSize == outputs.size && arts.unsignedSha == outputs.sha
    {
      hide Valid;
      arts := NO_ARTIFACTS;
      var step, ok := BeginStep(job, 5, NO_ARTIFACTS);
      if !ok {
        return arts, true;
      }
      if !outputs.body || outputs.size <= 0 {
        BreakStep(job, 5, step, NO_ARTIFACTS, []);
        return arts, true;
      }
      arts := ReadOutputs(job, outputs.size, outputs.sha, outputs.signed);
      ok := EndStep(job, 5, step, arts, []);
      err := !ok;
    }

    /** uploadArtifacts: stops at the first error and says what it had put by then. */
    method UploadArtifacts(job: Job, arts: ArtifactFields) returns (uploaded: seq<string>, err: bool)
      requires Valid() && Pc() == InStep(job, 6, arts, [])
      modifies around, repo, storage
      ensures Valid() && uploaded <= Keys(arts)
      ensures Pc() == if err then StepBroken(job, 6, uploaded) else InStep(job, 6, arts, Keys(arts))
      ensures !err ==> uploaded == Keys(arts)
      ensures !err && arts.unsignedKey != "" ==>
        uploaded == if arts.signedKey == "" then [arts.unsignedKey] else [arts.unsignedKey, arts.signedKey]
      ensures storage.putLog == old(storage.putLog) + uploaded && storage.deleteLog == old(storage.deleteLog)
      ensures around.tick >= old(around.tick) && (AllLucky(old(around.tick), around.tick) ==> !err)
    {
      hide Valid;
      hide Keys;
      if arts.unsignedKey != "" {
        UnsignedComesFirst(arts);
      }
      var keys := Keys(arts);
      uploaded := [];
      while |uploaded| < |keys|
        invariant Valid() && uploaded <= keys
        invariant Pc() == InStep(job, 6, arts, uploaded) && around.tick >= old(around.tick)
        invariant storage.putLog == old(storage.putLog) + uploaded && storage.deleteLog == old(storage.deleteLog)
      {
        var key := keys[|uploaded|];
        var ok := PutOne(job, arts, key, uploaded);
        if !ok {
          return uploaded, true;
        }
        uploaded := uploaded + [key];
      }
      err := false;
    }

    /** Step 6: upload, then record the keys before the task is completed. */
    method UploadAndRecord(job: Job, arts: ArtifactFields) returns (uploaded: seq<string>, err: bool)
      requires Valid() && Pc() == BeforeStep(job, 6, arts)
      modifies around, repo, storage
      ensures Valid() && Pc() == if err then Unwind(job, uploaded) else Completing(job, arts)
      ensures around.tick >= old(around.tick) && (AllLucky(old(around.tick), around.tick) ==> !err)
      ensures !err ==> uploaded == Keys(arts)
      ensures storage.putLog == old(storage.putLog) + uploaded && storage.deleteLog == old(storage.deleteLog)
    {
      hide Valid;
      hide Keys;
      var step, ok := BeginStep(job, 6, arts);
      if !ok {
        return [], true;
      }
      uploaded, err := UploadArtifacts(job, arts);
      if err {
        FailStep(job, 6, step, uploaded);
        return;
      }
      ok := RecordKeys(job, arts);
      if !ok {
        FailStep(job, 6, step, uploaded);
        return uploaded, true;
      }
      ok := EndStep(job, 6, step, arts, uploaded);
      err := !ok;
    }

    /** rollbackArtifacts: every key from the last to the first, past failing deletes. */
    method RollBackArtifacts(job: Job, uploaded: seq<string>)
      requires Valid() && uploaded != [] && Pc() == RollingBack(job, uploaded)
      modifies around, repo, storage
      ensures Valid() && Pc() == Leaving(job, false) && around.tick == old(around.tick) + |uploaded|
      ensures storage.deleteLog == old(storage.deleteLog) + Reversed(uploaded) && storage.putLog == old(storage.putLog)
    {
      hide Valid;
      hide Reversed;
      var i := |uploaded|;
      assert uploaded[..i] == uploaded && uploaded[i..] == [];
      ReversedNothing();
      while i > 0
        invariant 0 <= i <= |uploaded| && Valid() && Pc() == Unwind(job, uploaded[..i])
        invariant storage.deleteLog == old(storage.deleteLog) + Reversed(uploaded[i..])
        invariant storage.putLog == old(storage.putLog) && around.tick == old(around.tick) + |uploaded| - i
      {
        RollBackAdvances(uploaded, uploaded[..i], Reversed(uploaded[i..]));
        assert uploaded[..i][..i - 1] == uploaded[..i - 1];
        DeleteOne(job, uploaded[i - 1], uploaded[..i]);
        i := i - 1;
      }
      assert uploaded[0..] == uploaded;
    }

    // -------------------------------------------------------------- runTask

    /** The statements of runTask between its defers: six steps and the completion. */
    method RunSteps(job: Job) returns (uploaded: seq<string>, err: bool)
      requires Valid() && Pc() == BeforeStep(job, 1, NO_ARTIFACTS)
      modifies around, repo, storage
      ensures Valid() && Pc() == if err then Unwind(job, uploaded) else Leaving(job, true)
      ensures around.tick >= old(around.tick) && (AllLucky(old(around.tick), around.tick) ==> !err)
      ensures storage.putLog == old(storage.putLog) + uploaded && storage.deleteLog == old(storage.deleteLog)
    {
      hide Valid;
      hide Keys;
      uploaded := [];
      var k := 1;
      while k <= 4
        invariant 1 <= k <= 5 && Valid() && Pc() == BeforeStep(job, k, NO_ARTIFACTS) && around.tick >= old(around.tick)
        invariant storage.putLog == old(storage.putLog) && storage.deleteLog == old(storage.deleteLog)
      {
        var bodyOk := Luck();
        err := RunPlainStep(job, k, bodyOk.body);
        if err {
          return;
        }
        k := k + 1;
      }
      var outputs := Luck();
      var arts;
      arts, err := CollectArtifacts(job, outputs);
      if err {
        return;
      }
      uploaded, err := UploadAndRecord(job, arts);
      if err {
        return;
      }
      var ok := CommitCompletion(job, arts);
      err := !ok;
    }

    /** The outcome of work outside the database and the object store. */
    method Luck() returns (c: Choice)
      ensures c == around.script(around.tick)
    {
      c := around.script(around.tick);
    }

    /** runTask: the rollback defer was registered last, so it runs first, and it sees the error of the
        steps only; a failure to remove the work directory comes after it. */
    method RunTask(job: Job) returns (err: bool, ghost uploaded: seq<string>, ghost committed: bool)
      requires Valid() && Pc() == Entering(job)
      modifies around, repo, storage
      ensures Valid() && Pc() == if err then MarkingFailed(job, committed) else Idle
      ensures !err ==> committed && RowIs(repo.Contents(), job.id, Completed)
      ensures committed ==> around.tick > 0 && (err <==> around.script(around.tick - 1).fault)
      ensures around.tick >= old(around.tick) && (AllLucky(old(around.tick), around.tick) ==> !err)
      ensures storage.putLog == old(storage.putLog) + uploaded
      ensures storage.deleteLog == old(storage.deleteLog) + (if committed then [] else Reversed(uploaded))
    {
      hide Valid;
      hide Reversed;
      ReversedNothing();
      var made := MakeWorkDir(job);
      if !made {
        return true, [], false;
      }
      var keys;
      keys, err := RunSteps(job);
      uploaded, committed := keys, !err;
      if err && |keys| > 0 {
        RollBackArtifacts(job, keys);
      }
      var removed := RemoveWorkDir(job, committed);
      if !removed {
        err := true;
      }
    }

    // -------------------------------------------------------------- the loop

    /** ProcessNext: pick, mark, run, and on any error mark failed.  The task it worked on ends completed,
        with no delete, or else every upload was deleted once, newest first, and the task is failed; it is
        still running only if that last write failed too. */
    method ProcessNext() returns (worked: bool, err: bool, ghost task: nat, ghost uploaded: seq<string>)
      requires Valid() && Pc() == Idle
      modifies around, repo, storage
      ensures Valid() && Pc() == Idle
      ensures !worked ==> storage.putLog == old(storage.putLog) && storage.deleteLog == old(storage.deleteLog)
      ensures !worked && !err ==> forall t :: t in repo.tasks ==> repo.tasks[t].status != Queued
      ensures around.tick >= old(around.tick) && (AllLucky(old(around.tick), around.tick) ==> !err)
      ensures worked ==> storage.putLog == old(storage.putLog) + uploaded
      ensures worked && !err ==> RowIs(repo.Contents(), task, Completed)
      ensures worked ==>
        if RowIs(repo.Contents(), task, Completed) then storage.deleteLog == old(storage.deleteLog)
        else
          && storage.deleteLog == old(storage.deleteLog) + Reversed(uploaded)
          && (RowIs(repo.Contents(), task, Failed) || (RowIs(repo.Contents(), task, Running) && task in around.machine.stuck))
    {
      hide Valid;
      hide Reversed;
      worked, task, uploaded := false, 0, [];
      var next;
      next, err := PickNext();
      if next.None? {
        return;
      }
      var job := next.value;
      task := job.id;
      var marked := MarkRunning(job);
      if !marked {
        err := true;
        return;
      }
      ghost var committed;
      err, uploaded, committed := RunTask(job);
      if err {
        var failed := MarkFailed(job, committed);
      }
      worked := true;
      IdleRunningIsStuck();
    }

    /** While the worker is idle every running task is one that was left behind. */
    lemma IdleRunningIsStuck()
      requires Valid() && Pc() == Idle
      ensures forall t :: RowIs(repo.Contents(), t, Running) ==> t in around.machine.stuck
    {
      hide ValidRun;
      hide Exec;
      hide RowsOk;
      hide TxsOk;
      hide Coherent;
      hide PcOk;
      hide ObjectsOk;
      hide RiskOk;
      InitInv();
      RunsKeepInv(INIT, around.trace);
    }

    /** One row's part of cleanupRecoveredArtifacts; `rest` is what is left for the rows after it. */
    method CleanRow(t: nat, arts: ArtifactFields, ghost rest: seq<(nat, string)>)
      requires Valid() && Pc() == AfterCleaning(Tagged(t, Keys(arts)) + rest)
      modifies around, repo, storage
      ensures Valid() && Pc() == AfterCleaning(rest)
      ensures storage.putLog == old(storage.putLog) && storage.deleteLog == old(storage.deleteLog) + Keys(arts)
    {
      hide Valid;
      var keys := [arts.unsignedKey, arts.signedKey];
      ghost var left := Keys(arts);
      var j := 0;
      KeysAreNonempty(arts);
      assert keys[0..] == keys;
      while j < 2
        invariant 0 <= j <= 2 && Valid() && Pc() == AfterCleaning(Tagged(t, left) + rest)
        invariant left == Nonempty(keys[j..])
        invariant storage.putLog == old(storage.putLog)
        invariant storage.deleteLog + left == old(storage.deleteLog) + Keys(arts)
      {
        assert keys[j..][0] == keys[j] && keys[j..][1..] == keys[j + 1..];
        if keys[j] != "" {
          assert Tagged(t, left) + rest == [(t, keys[j])] + (Tagged(t, left[1..]) + rest);
          CleanOneKey(t, keys[j], Tagged(t, left[1..]) + rest);
          left := left[1..];
        }
        j := j + 1;
      }
      assert Tagged(t, []) + rest == rest;
    }

    method CleanOneKey(t: nat, key: string, ghost rest: seq<(nat, string)>)
      requires Valid() && Pc() == Cleaning([(t, key)] + rest)
      modifies around, repo, storage
      ensures Valid() && Pc() == AfterCleaning(rest)
      ensures storage.putLog == old(storage.putLog) && storage.deleteLog == old(storage.deleteLog) + [key]
    {
      hide ValidRun;
      hide Exec;
      hide Inv;
      var c := around.Yield();
      var ok := storage.DeleteObject(key, c.fault, c.landed);
      assert ([(t, key)] + rest)[1..] == rest;
      around.Advance(Work(CleanOne(ok, c.landed)));
    }

    /** cleanupRecoveredArtifacts: both keys of every recovered row, past failing deletes. */
    method CleanupRecoveredArtifacts(rows: seq<(nat, TaskRow)>)
      requires Valid() && Pc() == AfterCleaning(RowsCleanup(rows))
      modifies around, repo, storage
      ensures Valid() && Pc() == Idle
      ensures storage.putLog == old(storage.putLog) && storage.deleteLog == old(storage.deleteLog) + RowsKeys(rows)
    {
      hide Valid;
      hide Keys;
      hide Tagged;
      var n := 0;
      assert rows[0..] == rows;
      while n < |rows|
        invariant n <= |rows| && Valid() && Pc() == AfterCleaning(RowsCleanup(rows[n..]))
        invariant storage.putLog == old(storage.putLog)
        invariant storage.deleteLog + RowsKeys(rows[n..]) == old(storage.deleteLog) + RowsKeys(rows)
      {
        assert rows[n..][0] == rows[n] && rows[n..][1..] == rows[n + 1..];
        CleanRow(rows[n].0, rows[n].1.artifacts, RowsCleanup(rows[n + 1..]));
        n := n + 1;
      }
    }

    /** RecoverRunning: one transaction, then a best-effort cleanup of what it returned. */
    method RecoverRunning() returns (err: bool, ghost seen: State, ghost recovered: seq<(nat, TaskRow)>)
      requires Valid() && Pc() == Down
      modifies around, repo, storage
      ensures Valid() && Pc() == Idle
      ensures storage.putLog == old(storage.putLog)
      ensures storage.deleteLog == old(storage.deleteLog) + (if err then [] else RowsKeys(recovered))
      ensures !err ==> RecoversFrom(seen, recovered)
      ensures Lucky(around.script(old(around.tick))) ==> !err
    {
      hide Valid;
      hide RecoversFrom;
      var rows;
      err, seen, rows := RecoverInDatabase();
      recovered := rows;
      if !err {
        CleanupRecoveredArtifacts(rows);
      }
    }

    method RecoverInDatabase() returns (err: bool, ghost seen: State, rows: seq<(nat, TaskRow)>)
      requires Valid() && Pc() == Down
      modifies around, repo, storage`objects
      ensures Valid() && Pc() == if err then Idle else AfterCleaning(RowsCleanup(rows))
      ensures !err ==> RunningIds(repo.Contents()) == {}
      ensures around.tick == old(around.tick) + 1 && (Lucky(around.script(old(around.tick))) ==> !err)
      ensures !err ==> RecoversFrom(seen, rows) && repo.Contents() == Recovered(seen.db, RECOVERY_SUMMARY)
      ensures !err ==> forall i :: 0 <= i < |rows| ==>
        rows[i].1.status == Running && RowIs(repo.Contents(), rows[i].0, Failed)
    {
      hide ValidRun;
      hide Exec;
      hide Inv;
      hide Keys;
      hide RowsCleanup;
      hide CleanupList;
      hide Ids;
      hide RecoveredSteps;
      hide HasRunningTask;
      var c := around.Yield();
      ghost var before := repo.Contents();
      seen := around.machine;
      ReachedBy(around.trace);
      RecoveryNeverAborts(seen);
      var ok;
      ok, rows := repo.RecoverRunningTasks(RECOVERY_SUMMARY, c.faultAt);
      if !ok {
        around.Advance(Work(RecoverFail));
        return true, seen, [];
      }
      RowsCleanupIsList(before, rows);
      around.Advance(Work(RecoverCommit(Ids(rows), RECOVERY_SUMMARY)));
      RecoveredFailed(before, rows);
      err := false;
    }

    /** Start: recovery once, then the loop; a failed recovery is only reported. */
    method Start(rounds: nat)
      requires Valid() && Pc() == Down
      modifies around, repo, storage
      ensures Valid() && Pc() == Idle && Reachable(around.machine)
      ensures around.machine.db == repo.Contents() && around.machine.objects == storage.objects
    {
      hide ValidRun;
      hide Exec;
      var err;
      ghost var seen, recovered;
      err, seen, recovered := RecoverRunning();
      var n := 0;
      while n < rounds
        invariant Valid() && Pc() == Idle
      {
        var worked;
        ghost var task, uploaded;
        worked, err, task, uploaded := ProcessNext();
        n := n + 1;
      }
    }

    /** The process over several lives: each starts, works for some rounds, and dies. */
    method Outlive(lives: seq<nat>)
      requires Valid() && Pc() == Down
      modifies around, repo, storage
      ensures Valid() && Pc() == Down && Reachable(around.machine)
      ensures around.machine.db == repo.Contents() && around.machine.objects == storage.objects
    {
      hide ValidRun;
      hide Exec;
      hide Reachable;
      var n := 0;
      while n < |lives|
        invariant n <= |lives| && Valid() && Pc() == Down
      {
        Start(lives[n]);
        around.Crash();
        n := n + 1;
      }
      ReachedBy(around.trace);
    }
  }

  /** The rows are all rows that were running in a state of the machine, as they were there. */
  ghost predicate RecoversFrom(seen: State, rows: seq<(nat, TaskRow)>) {
    Reachable(seen) && Lists(Ids(rows), RunningIds(seen.db)) && ArePreImages(seen.db, rows)
  }

  lemma RecoveredFailed(db: Db, rows: seq<(nat, TaskRow)>)
    requires ArePreImages(db, rows) && Lists(Ids(rows), RunningIds(db))
    ensures forall i :: 0 <= i < |rows| ==>
      rows[i].1.status == Running && RowIs(Recovered(db, RECOVERY_SUMMARY), rows[i].0, Failed)
  {
    hide RecoveredSteps;
    hide HasRunningTask;
    forall i | 0 <= i < |rows| ensures rows[i].0 in RunningIds(db) {
      assert Ids(rows)[i] == rows[i].0;
    }
  }

  function Nonempty(keys: seq<string>): seq<string> {
    if keys == [] then []
    else (if keys[0] == "" then [] else [keys[0]]) + Nonempty(keys[1..])
  }

  lemma UnsignedComesFirst(arts: ArtifactFields)
    requires arts.unsignedKey != ""
    ensures Keys(arts) == if arts.signedKey == "" then [arts.unsignedKey] else [arts.unsignedKey, arts.signedKey]
  {
  }

  lemma KeysAreNonempty(arts: ArtifactFields)
    ensures Nonempty([arts.unsignedKey, arts.signedKey]) == Keys(arts)
  {
    var keys := [arts.unsignedKey, arts.signedKey];
    assert keys[1..] == [arts.signedKey] && [arts.signedKey][1..] == [];
    assert Nonempty([arts.signedKey]) == if arts.signedKey == "" then [] else [arts.signedKey];
  }

  function RowsCleanup(rows: seq<(nat, TaskRow)>): seq<(nat, string)> {
    if rows == [] then [] else Tagged(rows[0].0, Keys(rows[0].1.artifacts)) + RowsCleanup(rows[1..])
  }

  function RowsKeys(rows: seq<(nat, TaskRow)>): seq<string> {
    if rows == [] then [] else Keys(rows[0].1.artifacts) + RowsKeys(rows[1..])
  }

  lemma {:induction false} RowsCleanupIsList(db: Db, rows: seq<(nat, TaskRow)>)
    requires ArePreImages(db, rows)
    ensures forall i :: 0 <= i < |Ids(rows)| ==> Ids(rows)[i] in db.tasks
    ensures RowsCleanup(rows) == CleanupList(db, Ids(rows))
  {
    hide Keys;
    hide Tagged;
    if rows != [] {
      RowsCleanupIsList(db, rows[1..]);
      assert Ids(rows)[1..] == Ids(rows[1..]);
    }
  }
}
