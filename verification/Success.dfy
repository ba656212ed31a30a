/** An attempt in which no call fails: it never turns back, always has a next call, and completes its task
    after a bounded number of them. */
module Success {
  import opened Wrappers
  import opened Tables
  import opened Pipeline
  import opened Invariants
  import opened WorkerSteps
  import opened WorkerEndings
  import opened Theorems
  import opened Attempts

  /** The call succeeds. */
  predicate Succeeds(step: WorkerStep) {
    match step
    case RecoverFail => false
    case BodyFail => false
    case MarkRunning(ok) => ok
    case MakeDir(ok) => ok
    case BeginStep(ok) => ok
    case Put(ok, _) => ok
    case Record(ok) => ok
    case EndStep(ok) => ok
    case FailStep(ok) => ok
    case Complete(ok) => ok
    case RollBackOne(ok, _) => ok
    case CleanOne(ok, _) => ok
    case RemoveDir(ok) => ok
    case MarkFailed(ok, _) => ok
    case _ => true
  }

  /** On the way from the start of runTask to a committed completion. */
  predicate OnTrack(pc: Pc) {
    pc.Entering? || pc.BeforeStep? || pc.InStep? || pc.StepDone? || pc.Completing? || (pc.Leaving? && pc.committed)
  }

  /** More calls than are left. */
  function Rank(pc: Pc): int {
    match pc
    case Entering(_) => 60
    case BeforeStep(_, k, _) => 8 + 8 * (6 - k)
    case InStep(_, k, arts, puts) => 4 + 8 * (6 - k) + if k == 6 then |Keys(arts)| - |puts| else 0
    case StepDone(_, k, _, _) => 3 + 8 * (6 - k)
    case Completing(_, _) => 2
    case Leaving(_, _) => 1
    case _ => 0
  }

  // ---------------------------------------------------------------- one call

  lemma BeginSucceeds(s: State)
    requires Inv(s) && WorkEnabled(s, BeginStep(true))
    ensures var pc := ApplyWork(s, BeginStep(true)).pc; pc.InStep? && pc.k == s.pc.k <= 6 && pc.puts == []
  {
    hide Inv;
    BeginsStep(s, true);
    BeginKeepsPlace(s);
  }

  lemma BeginKeepsPlace(s: State)
    requires Inv(s) && s.pc.BeforeStep?
    ensures s.pc.k <= 6
    ensures var pc := AfterBeginStep(s, true).pc; pc.InStep? ==> pc.k == s.pc.k && pc.puts == []
  {
    hide RowsOk;
    hide TxsOk;
    hide Coherent;
    hide ObjectsOk;
    hide RiskOk;
    hide StuckOk;
    hide StepsAt;
    hide FindStep;
    hide StartStep;
  }

  lemma EndSucceeds(s: State)
    requires Inv(s) && WorkEnabled(s, EndStep(true))
    ensures var pc := ApplyWork(s, EndStep(true)).pc;
      s.pc.k <= 6 && if s.pc.k < 6 then pc.BeforeStep? && pc.k == s.pc.k + 1 else pc.Completing?
  {
    hide Inv;
    EndsStep(s, true);
    EndMovesOn(s);
  }

  lemma EndMovesOn(s: State)
    requires Inv(s) && s.pc.StepDone?
    ensures s.pc.k <= 6
    ensures var pc := AfterEndStep(s, true).pc;
      !pc.Leaving? && !pc.RollingBack? ==> if s.pc.k < 6 then pc.BeforeStep? && pc.k == s.pc.k + 1 else pc.Completing?
  {
    hide RowsOk;
    hide TxsOk;
    hide Coherent;
    hide ObjectsOk;
    hide RiskOk;
    hide StuckOk;
    hide StepsAt;
    hide Keys;
    hide CurrentStep;
    hide FinishStep;
  }

  lemma RecordSucceeds(s: State)
    requires Inv(s) && WorkEnabled(s, Record(true))
    ensures var pc := ApplyWork(s, Record(true)).pc; pc.StepDone? && pc.k == s.pc.k
  {
    hide RowsOk;
    hide TxsOk;
    hide Coherent;
    hide ObjectsOk;
    hide RiskOk;
    hide StuckOk;
    hide StepsAt;
    hide Keys;
  }

  /** A succeeding call keeps the attempt on track and brings it nearer to its end. */
  lemma SuccessAdvances(s: State, step: WorkerStep)
    requires Inv(s) && OnTrack(s.pc) && WorkEnabled(s, step) && Succeeds(step)
    ensures var pc := ApplyWork(s, step).pc; (OnTrack(pc) || pc == Idle) && 0 <= Rank(pc) < Rank(s.pc)
    ensures step.Complete? <==> ApplyWork(s, step).pc.Leaving?
  {
    hide Inv;
    hide Keys;
    RankBounds(s);
    match step
    case BeginStep(_) => BeginSucceeds(s);
    case EndStep(_) => EndSucceeds(s);
    case Record(_) => RecordSucceeds(s);
    case Complete(_) => Completes(s, true);
    case _ =>
  }

  lemma RankBounds(s: State)
    requires Inv(s) && OnTrack(s.pc)
    ensures s.pc.InStep? || s.pc.StepDone? || s.pc.BeforeStep? ==> 1 <= s.pc.k <= 6
    ensures s.pc.InStep? ==> |Keys(s.pc.arts)| <= 2 && |s.pc.puts| <= |Keys(s.pc.arts)|
    ensures s.pc.InStep? && s.pc.k < 6 ==> s.pc.puts == []
    ensures s.pc.BeforeStep? ==> |Keys(s.pc.arts)| <= 2
  {
    hide RowsOk;
    hide TxsOk;
    hide Coherent;
    hide ObjectsOk;
    hide RiskOk;
    hide StuckOk;
    hide StepsAt;
    hide OwnsArtifacts;
  }

  /** And until its end there always is such a call. */
  lemma NextCall(s: State) returns (step: WorkerStep)
    requires Inv(s) && OnTrack(s.pc)
    ensures WorkEnabled(s, step) && Succeeds(step)
  {
    hide Inv;
    hide Keys;
    RankBounds(s);
    step := match s.pc
      case Entering(_) => MakeDir(true)
      case BeforeStep(_, _, _) => BeginStep(true)
      case InStep(_, k, arts, puts) =>
        if k <= 4 then BodyOk
        else if k == 5 then Collect(1, "", None)
        else if |puts| < |Keys(arts)| then Put(true, false)
        else Record(true)
      case StepDone(_, _, _, _) => EndStep(true)
      case Completing(_, _) => Complete(true)
      case _ => RemoveDir(true);
  }

  // ---------------------------------------------------------------- whole attempts

  /** Nobody crashes and no call of the worker fails; API calls do what they want. */
  predicate AllSucceed(run: seq<Action>) {
    forall i :: 0 <= i < |run| ==> run[i].Api? || (run[i].Work? && Succeeds(run[i].step))
  }

  function Calls(run: seq<Action>): nat {
    if run == [] then 0 else Calls(run[..|run| - 1]) + if run[|run| - 1].Work? then 1 else 0
  }

  lemma ActionOnTrack(s: State, a: Action)
    requires Inv(s) && OnTrack(s.pc) && Enabled(s, a) && (a.Api? || (a.Work? && Succeeds(a.step)))
    requires InAttempt(Apply(s, a).pc)
    ensures OnTrack(Apply(s, a).pc)
    ensures Rank(Apply(s, a).pc) + (if a.Work? then 1 else 0) <= Rank(s.pc)
  {
    hide Inv;
    hide ApiEnabled;
    hide ApplyApi;
    hide WorkEnabled;
    hide ApplyWork;
    hide Rank;
    hide OnTrack;
    match a
    case Api(call) => ApiLeavesWorker(s, call);
    case Work(step) => SuccessAdvances(s, step);
  }

  lemma {:induction false} StaysOnTrack(s: State, run: seq<Action>)
    requires Inv(s) && s.pc.Entering? && ValidRun(s, run) && WithinAttempt(s, run) && AllSucceed(run)
    ensures OnTrack(Exec(s, run).pc) && Rank(Exec(s, run).pc) + Calls(run) <= 60
    decreases |run|
  {
    hide Inv;
    hide Enabled;
    hide Apply;
    hide Succeeds;
    if run != [] {
      hide OnTrack;
      hide Rank;
      hide InAttempt;
      var n := |run| - 1;
      StaysOnTrack(s, run[..n]);
      RunsKeepInv(s, run[..n]);
      assert InAttempt(Apply(Exec(s, run[..n]), run[n]).pc);
      ActionOnTrack(Exec(s, run[..n]), run[n]);
    }
  }

  /** From any start of runTask, among any API calls, as long as no call of the worker fails: the attempt is
      never broken, rolling back or leaving without a commit; it has a next succeeding call; it makes fewer
      than 60 of them; and when it leaves, its task is completed. */
  lemma SuccessCompletes(s: State, run: seq<Action>) returns (next: WorkerStep)
    requires Reachable(s) && s.pc.Entering? && ValidRun(s, run) && WithinAttempt(s, run) && AllSucceed(run)
    ensures var s' := Exec(s, run);
      && OnTrack(s'.pc) && Calls(run) < 60
      && WorkEnabled(s', next) && Succeeds(next)
      && (s'.pc.Leaving? ==> s'.pc.job.id in s'.db.tasks && s'.db.tasks[s'.pc.job.id].status == Completed)
  {
    hide ValidRun;
    hide Exec;
    hide WithinAttempt;
    hide AllSucceed;
    hide Reachable;
    hide Calls;
    hide WorkEnabled;
    hide Succeeds;
    hide RowsOk;
    hide TxsOk;
    hide Coherent;
    hide ObjectsOk;
    hide RiskOk;
    hide StuckOk;
    ReachableInv(s);
    StaysOnTrack(s, run);
    RunsKeepInv(s, run);
    RankBounds(Exec(s, run));
    next := NextCall(Exec(s, run));
  }
}
