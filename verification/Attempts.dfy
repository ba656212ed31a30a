/** One execution of runTask, among everything else that happens: what it uploads and what it deletes. */
module Attempts {
  import opened Tables
  import opened ObjectKeys
  import opened Pipeline
  import opened Invariants
  import opened ApiCalls
  import opened WorkerSteps
  import opened Theorems

  /** The keys an action has put successfully, and the keys it has tried to delete in a rollback. */
  ghost function PutBy(s: State, a: Action): seq<string>
    requires Enabled(s, a)
  {
    if a.Work? && a.step.Put? && a.step.ok then [Keys(s.pc.arts)[|s.pc.puts|]] else []
  }

  ghost function DeletedBy(s: State, a: Action): seq<string>
    requires Enabled(s, a)
  {
    if a.Work? && a.step.RollBackOne? then [s.pc.rest[|s.pc.rest| - 1]] else []
  }

  ghost function PutKeys(s: State, run: seq<Action>): seq<string>
    requires ValidRun(s, run)
    decreases |run|
  {
    if run == [] then []
    else PutKeys(s, run[..|run| - 1]) + PutBy(Exec(s, run[..|run| - 1]), run[|run| - 1])
  }

  ghost function DeletedKeys(s: State, run: seq<Action>): seq<string>
    requires ValidRun(s, run)
    decreases |run|
  {
    if run == [] then []
    else DeletedKeys(s, run[..|run| - 1]) + DeletedBy(Exec(s, run[..|run| - 1]), run[|run| - 1])
  }

  function Reversed(keys: seq<string>): seq<string> {
    if keys == [] then [] else Reversed(keys[1..]) + [keys[0]]
  }

  /** Last first. */
  lemma {:induction false} ReversedAt(keys: seq<string>, k: nat)
    requires k < |keys|
    ensures |Reversed(keys)| == |keys| && Reversed(keys)[k] == keys[|keys| - 1 - k]
  {
    if |keys| > 1 {
      ReversedAt(keys[1..], if k < |keys| - 1 then k else 0);
    }
  }

  /** Inside runTask and the FailTaskForApp call that may follow it. */
  predicate InAttempt(pc: Pc) {
    !pc.Down? && !pc.Cleaning? && !pc.Idle? && !pc.Picked?
  }

  /** The run never leaves the attempt: no crash, no return to the loop. */
  ghost predicate WithinAttempt(s: State, run: seq<Action>)
    requires ValidRun(s, run)
    decreases |run|
  {
    InAttempt(Exec(s, run).pc) && (run != [] ==> WithinAttempt(s, run[..|run| - 1]))
  }

  /** How uploads and deletes so far relate to the point the attempt has reached. */
  predicate Ledger(pc: Pc, puts: seq<string>, deletes: seq<string>) {
    match pc
    case Entering(_) => puts == [] && deletes == []
    case BeforeStep(_, _, _) => puts == [] && deletes == []
    case InStep(_, _, _, mine) => mine == puts && deletes == []
    case StepDone(_, _, _, mine) => mine == puts && deletes == []
    case StepBroken(_, _, mine) => mine == puts && deletes == []
    case Completing(_, arts) => Keys(arts) == puts && deletes == []
    case RollingBack(_, rest) => rest <= puts && deletes == Reversed(puts[|rest|..])
    case Leaving(_, committed) => deletes == if committed then [] else Reversed(puts)
    case MarkingFailed(_, committed) => deletes == if committed then [] else Reversed(puts)
    case _ => true
  }

  lemma RollBackAdvances(puts: seq<string>, rest: seq<string>, deletes: seq<string>)
    requires rest != [] && rest <= puts && deletes == Reversed(puts[|rest|..])
    ensures var shorter := rest[..|rest| - 1];
      shorter <= puts && deletes + [rest[|rest| - 1]] == Reversed(puts[|shorter|..])
  {
    var n := |rest| - 1;
    assert puts[n..][0] == rest[n] && puts[n..][1..] == puts[n + 1..];
  }

  lemma UnwindLedger(job: Job, puts: seq<string>)
    ensures Ledger(Unwind(job, puts), puts, [])
  {
    assert puts[|puts|..] == [];
  }

  ghost predicate Distinct(keys: seq<string>) {
    forall i, j :: 0 <= i < j < |keys| ==> keys[i] != keys[j]
  }

  lemma PutLedger(s: State, step: WorkerStep, puts: seq<string>)
    requires RowsOk(s.db) && PcOk(s.db, s.pc) && step.Put? && WorkEnabled(s, step) && s.pc.puts == puts
    ensures Ledger(ApplyWork(s, step).pc, puts + PutBy(s, Work(step)), [])
    ensures Distinct(puts + PutBy(s, Work(step)))
  {
    hide RowsOk;
    hide StepsAt;
    hide OwnsArtifacts;
    hide IsTaskNo;
    hide Owner;
    hide Keys;
    RowIsOk(s.db, s.pc.job.id);
    OwnedKeysAreNoSources(s.pc.job.taskNo, s.pc.arts);
    var more := puts + PutBy(s, Work(step));
    assert more <= Keys(s.pc.arts);
  }

  lemma RollBackLedger(s: State, step: WorkerStep, puts: seq<string>, deletes: seq<string>)
    requires step.RollBackOne? && WorkEnabled(s, step) && Ledger(s.pc, puts, deletes)
    ensures Ledger(ApplyWork(s, step).pc, puts, deletes + DeletedBy(s, Work(step)))
  {
    hide Reversed;
    RollBackAdvances(puts, s.pc.rest, deletes);
    assert [] <= puts && puts[0..] == puts;
  }

  /** The steps before the rollback that upload nothing. */
  lemma BodyLedger(s: State, step: WorkerStep, puts: seq<string>)
    requires PcOk(s.db, s.pc) && WorkEnabled(s, step) && Ledger(s.pc, puts, [])
    requires step.MakeDir? || step.BodyOk? || step.Collect? || step.BodyFail? || step.Record? || step.FailStep?
    ensures Ledger(ApplyWork(s, step).pc, puts, [])
  {
    hide StepsAt;
    hide OwnsArtifacts;
    hide OwnedList;
    hide Keys;
    hide FindStep;
    hide FinishStep;
    hide Collected;
    hide Owner;
    hide Reversed;
    UnwindLedger(s.pc.job, puts);
    assert Reversed([]) == [] by { ReversedNothing(); }
  }

  lemma ReversedNothing()
    ensures Reversed([]) == []
  {
  }

  lemma EdgeLedger(s: State, step: WorkerStep, puts: seq<string>)
    requires PcOk(s.db, s.pc) && WorkEnabled(s, step) && Ledger(s.pc, puts, [])
    requires step.BeginStep? || step.EndStep? || step.Complete?
    ensures Ledger(ApplyWork(s, step).pc, puts, [])
  {
    hide StepsAt;
    hide OwnsArtifacts;
    hide OwnedList;
    hide Keys;
    hide FindStep;
    hide StartStep;
    hide FinishStep;
    hide CompleteTask;
    hide Owner;
    hide Reversed;
    UnwindLedger(s.pc.job, puts);
  }

  lemma LeaveLedger(s: State, step: WorkerStep, puts: seq<string>, deletes: seq<string>)
    requires WorkEnabled(s, step) && Ledger(s.pc, puts, deletes) && (step.RemoveDir? || step.MarkFailed?)
    ensures Ledger(ApplyWork(s, step).pc, puts, deletes)
  {
    hide Reversed;
    hide FailTask;
  }

  lemma LedgerStep(s: State, a: Action, puts: seq<string>, deletes: seq<string>)
    requires RowsOk(s.db) && PcOk(s.db, s.pc) && Enabled(s, a) && Ledger(s.pc, puts, deletes) && Distinct(puts)
    requires InAttempt(s.pc) && InAttempt(Apply(s, a).pc)
    ensures Ledger(Apply(s, a).pc, puts + PutBy(s, a), deletes + DeletedBy(s, a))
    ensures Distinct(puts + PutBy(s, a))
  {
    hide RowsOk;
    hide PcOk;
    hide Keys;
    hide Reversed;
    hide ApiEnabled;
    hide ApplyApi;
    hide ApplyWork;
    hide IsNextQueued;
    hide CanRecover;
    hide Lists;
    assert puts + [] == puts && deletes + [] == deletes;
    match a
    case Api(call) => ApiLeavesWorker(s, call);
    case Work(step) =>
      match step
      case Put(_, _) => PutLedger(s, step, puts);
      case RollBackOne(_, _) => RollBackLedger(s, step, puts, deletes);
      case RemoveDir(_) => LeaveLedger(s, step, puts, deletes);
      case MarkFailed(_, _) => LeaveLedger(s, step, puts, deletes);
      case BeginStep(_) => EdgeLedger(s, step, puts);
      case EndStep(_) => EdgeLedger(s, step, puts);
      case Complete(_) => EdgeLedger(s, step, puts);
      case _ => BodyLedger(s, step, puts);
  }

  lemma {:induction false} AttemptLedger(s: State, run: seq<Action>)
    requires Inv(s) && s.pc.Entering? && ValidRun(s, run) && WithinAttempt(s, run)
    ensures Ledger(Exec(s, run).pc, PutKeys(s, run), DeletedKeys(s, run)) && Distinct(PutKeys(s, run))
    decreases |run|
  {
    hide Enabled;
    hide Apply;
    hide RowsOk;
    hide TxsOk;
    hide Coherent;
    hide PcOk;
    hide ObjectsOk;
    hide RiskOk;
    hide StuckOk;
    hide PutBy;
    hide DeletedBy;
    hide InAttempt;
    if run != [] {
      hide Ledger;
      var before := Exec(s, run[..|run| - 1]);
      AttemptLedger(s, run[..|run| - 1]);
      RunsKeepInv(s, run[..|run| - 1]);
      assert InAttempt(before.pc);
      LedgerStep(before, run[|run| - 1], PutKeys(s, run[..|run| - 1]), DeletedKeys(s, run[..|run| - 1]));
    }
  }

  /** When runTask has run all its deferred calls: if completion committed, no delete was ever issued, not
      even after a failure to remove the work directory, and FailTaskForApp then changes nothing; if it
      did not, every uploaded key got exactly one delete attempt, in reverse order, whichever failed. */
  lemma AttemptDeletesExactlyItsUploads(s: State, run: seq<Action>)
    requires Reachable(s) && s.pc.Entering? && ValidRun(s, run) && WithinAttempt(s, run)
    requires Exec(s, run).pc.Leaving? || Exec(s, run).pc.MarkingFailed?
    ensures DeletedKeys(s, run) == if Exec(s, run).pc.committed then [] else Reversed(PutKeys(s, run))
    ensures Distinct(PutKeys(s, run))
    ensures Exec(s, run).pc.committed <==>
      Exec(s, run).pc.job.id in Exec(s, run).db.tasks
      && Exec(s, run).db.tasks[Exec(s, run).pc.job.id].status == Completed
    ensures Exec(s, run).pc.MarkingFailed? && Exec(s, run).pc.committed ==>
      forall ok, summary :: AfterMarkFailed(Exec(s, run), ok, summary).db == Exec(s, run).db
  {
    hide RowsOk;
    hide TxsOk;
    hide Coherent;
    hide ObjectsOk;
    hide RiskOk;
    hide StuckOk;
    hide ValidRun;
    hide Exec;
    hide WithinAttempt;
    hide PutKeys;
    hide DeletedKeys;
    hide Reversed;
    hide Reachable;
    ReachableInv(s);
    AttemptLedger(s, run);
    RunsKeepInv(s, run);
  }
}
