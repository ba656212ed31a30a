/** The queue: every task is started at most once, in order, and within a bounded number of picks. */
module Queue {
  import opened Tables
  import opened ObjectKeys
  import opened Pipeline
  import opened Invariants
  import opened ApiCalls
  import opened Theorems

  lemma {:induction false} ExecSplit(s: State, a: seq<Action>, b: seq<Action>)
    requires ValidRun(s, a + b)
    ensures ValidRun(s, a) && ValidRun(Exec(s, a), b) && Exec(s, a + b) == Exec(Exec(s, a), b)
    decreases |b|
  {
    hide Enabled;
    hide Apply;
    if b == [] {
      assert a + b == a;
    } else {
      var front := b[..|b| - 1];
      assert (a + b)[..|a + b| - 1] == a + front;
      ExecSplit(s, a, front);
    }
  }

  const STARTED := Work(MarkRunning(true))

  /** A task that the worker has marked running is never started again, in this or any later life of
      the process. */
  lemma StartedAtMostOnce(run: seq<Action>, i: nat, j: nat)
    requires ValidRun(INIT, run) && i < j < |run| && run[i] == STARTED && run[j] == STARTED
    ensures ValidRun(INIT, run[..i]) && ValidRun(INIT, run[..j])
    ensures Exec(INIT, run[..i]).pc.Picked? && Exec(INIT, run[..j]).pc.Picked?
    ensures Exec(INIT, run[..i]).pc.job.id != Exec(INIT, run[..j]).pc.job.id
  {
    hide Inv;
    hide Enabled;
    hide Apply;
    hide Exec;
    hide ValidRun;
    PrefixValid(run, i);
    PrefixValid(run, i + 1);
    PrefixValid(run, j);
    var first, second, later := Exec(INIT, run[..i]), Exec(INIT, run[..j]), run[i + 1..j];
    assert run[..i + 1] + later == run[..j];
    var started := Exec(INIT, run[..i + 1]);
    StartsTask(first);
    ExecSplit(INIT, run[..i + 1], later);
    RunEvolves(started, later, first.pc.job.id);
    StartsTask(second);
  }

  /** Every prefix of a run is a run, and the next action is enabled there. */
  lemma {:induction false} PrefixValid(run: seq<Action>, n: nat)
    requires ValidRun(INIT, run) && n <= |run|
    ensures ValidRun(INIT, run[..n]) && Inv(Exec(INIT, run[..n]))
    ensures n < |run| ==>
      && Enabled(Exec(INIT, run[..n]), run[n])
      && ValidRun(INIT, run[..n + 1]) && Exec(INIT, run[..n + 1]) == Apply(Exec(INIT, run[..n]), run[n])
    decreases |run| - n
  {
    hide Inv;
    hide Enabled;
    hide Apply;
    if n == |run| {
      assert run[..n] == run;
    } else {
      PrefixValid(run, n + 1);
      assert run[..n + 1][..n] == run[..n] && run[..n + 1][n] == run[n];
    }
    InitInv();
    RunsKeepInv(INIT, run[..n]);
  }

  lemma StartsTask(s: State)
    requires Inv(s) && Enabled(s, STARTED)
    ensures s.pc.Picked?
    ensures var s', t := Apply(s, STARTED), s.pc.job.id;
      && t in s.db.tasks && s.db.tasks[t].status == Queued
      && s'.db.tasks == s.db.tasks[t := s.db.tasks[t].(status := Running)]
  {
    hide RowsOk;
    hide TxsOk;
    hide Coherent;
    hide ObjectsOk;
    hide RiskOk;
    hide StuckOk;
  }

  // ---------------------------------------------------------------- bounded waiting

  /** The tasks the queue serves before t. */
  ghost function Ahead(db: Db, t: nat): set<nat>
    requires t in db.tasks
  {
    set u | u in db.tasks && db.tasks[u].status == Queued && u != t && Before(db, u, t)
  }

  /** A commit whose creation key is beyond every queued one: clocks do not run backwards across commits. */
  ghost predicate InOrder(s: State, a: Action) {
    a.Api? && a.call.TxCommit? && a.call.app in s.txs && s.txs[a.call.app].AppUpdated? ==>
      var tx := s.txs[a.call.app];
      forall u :: u in s.db.tasks && s.db.tasks[u].status == Queued ==>
        s.db.tasks[u].createdAt < tx.row.createdAt || (s.db.tasks[u].createdAt == tx.row.createdAt && u < tx.id)
  }

  ghost predicate InOrderRun(s: State, run: seq<Action>)
    requires ValidRun(s, run)
  {
    forall i :: 0 <= i < |run| && ValidRun(s, run[..i]) ==> InOrder(Exec(s, run[..i]), run[i])
  }

  /** What the worker picked is still the head of the queue. */
  ghost predicate HeadPicked(s: State) {
    s.pc.Picked? ==> IsNextQueued(s.db, s.pc.job.id)
  }

  function Starts(run: seq<Action>): nat {
    if run == [] then 0
    else Starts(run[..|run| - 1]) + if run[|run| - 1] == STARTED then 1 else 0
  }

  lemma ApiHeadPicked(s: State, call: ApiCall)
    requires TxsOk(s.db, s.txs) && ApiEnabled(s, call) && InOrder(s, Api(call)) && HeadPicked(s)
    ensures HeadPicked(ApplyApi(s, call))
  {
    hide TxsOk;
    hide HasActiveTask;
    hide TaskNoFree;
    hide IsTaskNo;
    hide IsSourceKey;
    if call.TxCommit? {
      TxIsOk(s.db, s.txs, call.app);
    }
  }

  lemma StepHeadPicked(s: State, a: Action)
    requires Inv(s) && Enabled(s, a) && InOrder(s, a) && HeadPicked(s)
    ensures HeadPicked(Apply(s, a))
  {
    hide RowsOk;
    hide TxsOk;
    hide Coherent;
    hide PcOk;
    hide ObjectsOk;
    hide RiskOk;
    hide StuckOk;
    hide ApiEnabled;
    hide ApplyApi;
    hide InOrder;
    hide IsNextQueued;
    hide CanRecover;
    hide Lists;
    hide FindStep;
    hide Recovered;
    hide CleanupList;
    hide Collected;
    hide Keys;
    match a
    case Api(call) => ApiHeadPicked(s, call);
    case Work(step) =>
    case Crash =>
  }

  /** An action never puts a task ahead of a waiting one, and a start takes one away. */
  lemma ApiAhead(s: State, call: ApiCall, t: nat)
    requires TxsOk(s.db, s.txs) && ApiEnabled(s, call) && InOrder(s, Api(call))
    requires t in s.db.tasks && s.db.tasks[t].status == Queued
    ensures t in ApplyApi(s, call).db.tasks && Ahead(ApplyApi(s, call).db, t) == Ahead(s.db, t)
  {
    hide TxsOk;
    hide HasActiveTask;
    hide TaskNoFree;
    hide IsTaskNo;
    hide IsSourceKey;
    if call.TxCommit? {
      TxIsOk(s.db, s.txs, call.app);
    }
  }

  lemma StepAhead(s: State, a: Action, t: nat)
    requires Inv(s) && Enabled(s, a) && InOrder(s, a) && HeadPicked(s)
    requires t in s.db.tasks && s.db.tasks[t].status == Queued
    requires t in Apply(s, a).db.tasks && Apply(s, a).db.tasks[t].status == Queued
    ensures |Ahead(Apply(s, a).db, t)| + (if a == STARTED then 1 else 0) <= |Ahead(s.db, t)|
  {
    hide Enabled;
    hide Apply;
    hide InOrder;
    hide IsNextQueued;
    hide TxsOk;
    hide RowsOk;
    hide Coherent;
    hide PcOk;
    hide ObjectsOk;
    hide RiskOk;
    hide StuckOk;
    var before, after := Ahead(s.db, t), Ahead(Apply(s, a).db, t);
    if a.Api? {
      assert ApiEnabled(s, a.call) && Apply(s, a) == ApplyApi(s, a.call) by { ApplyIsApi(s, a); }
      ApiAhead(s, a.call, t);
    } else {
      WorkAddsNothing(s, a, t);
      if a == STARTED {
        StartTakesHead(s, t);
        Shrinks(after, before - {s.pc.job.id});
      } else {
        Shrinks(after, before);
      }
    }
  }

  lemma ApplyIsApi(s: State, a: Action)
    requires Enabled(s, a) && a.Api?
    ensures ApiEnabled(s, a.call) && Apply(s, a) == ApplyApi(s, a.call)
  {
    hide ApiEnabled;
    hide ApplyApi;
  }

  lemma {:induction false} Shrinks(small: set<nat>, large: set<nat>)
    requires small <= large
    ensures |small| <= |large|
  {
    if small != {} {
      var x :| x in small;
      Shrinks(small - {x}, large - {x});
    }
  }

  lemma WorkAddsNothing(s: State, a: Action, t: nat)
    requires Inv(s) && Enabled(s, a) && !a.Api? && t in s.db.tasks && t in Apply(s, a).db.tasks
    ensures Ahead(Apply(s, a).db, t) <= Ahead(s.db, t)
  {
    hide Inv;
    hide Enabled;
    hide Apply;
    var s' := Apply(s, a);
    forall u | u in s'.db.tasks ensures u in s.db.tasks {
      NoNewTasks(s, a, u);
    }
    forall u | u in s.db.tasks ensures u in s'.db.tasks && Follows(s.db.tasks[u], s'.db.tasks[u]) {
      ActionFollows(s, a, u);
    }
  }

  lemma NoNewTasks(s: State, a: Action, u: nat)
    requires Enabled(s, a) && !a.Api? && u in Apply(s, a).db.tasks
    ensures u in s.db.tasks
  {
    hide StepsAt;
    hide OwnsArtifacts;
    hide OwnedList;
    hide Keys;
    hide PendingOk;
    hide IsNextQueued;
    hide CanRecover;
    hide Lists;
    hide AfterBeginStep;
    hide AfterEndStep;
    hide AfterFailStep;
    hide RecoveredSteps;
    hide HasRunningTask;
    hide CleanupList;
    hide Collected;
    if a.Work? {
      match a.step
      case BeginStep(ok) => StepRowsOnly(s, ok);
      case EndStep(ok) => StepRowsOnly(s, ok);
      case FailStep(ok) => StepRowsOnly(s, ok);
      case _ =>
    }
  }

  lemma StartTakesHead(s: State, t: nat)
    requires Inv(s) && Enabled(s, STARTED) && HeadPicked(s)
    requires t in s.db.tasks && s.db.tasks[t].status == Queued
    requires t in Apply(s, STARTED).db.tasks && Apply(s, STARTED).db.tasks[t].status == Queued
    ensures s.pc.Picked? && s.pc.job.id in Ahead(s.db, t)
    ensures s.pc.job.id !in Ahead(Apply(s, STARTED).db, t)
  {
    hide Inv;
    hide Apply;
    StartsTask(s);
  }

  lemma {:induction false} WaitingShrinks(s: State, run: seq<Action>, t: nat)
    requires Inv(s) && HeadPicked(s) && ValidRun(s, run) && InOrderRun(s, run)
    requires t in s.db.tasks && s.db.tasks[t].status == Queued
    requires t in Exec(s, run).db.tasks && Exec(s, run).db.tasks[t].status == Queued
    ensures HeadPicked(Exec(s, run))
    ensures Starts(run) + |Ahead(Exec(s, run).db, t)| <= |Ahead(s.db, t)|
    decreases |run|
  {
    hide Inv;
    hide Enabled;
    hide Apply;
    hide InOrder;
    hide HeadPicked;
    hide Ahead;
    if run != [] {
      var n := |run| - 1;
      var before := Exec(s, run[..n]);
      forall i | 0 <= i < n && ValidRun(s, run[..n][..i]) ensures InOrder(Exec(s, run[..n][..i]), run[..n][i]) {
        assert run[..n][..i] == run[..i];
      }
      RunsKeepInv(s, run[..n]);
      RunEvolves(s, run[..n], t);
      ActionFollows(before, run[n], t);
      WaitingShrinks(s, run[..n], t);
      StepHeadPicked(before, run[n]);
      StepAhead(before, run[n], t);
    }
  }

  /** In every run whose commits come in order, what the worker has picked is still the head of the queue. */
  lemma {:induction false} HeadStaysPicked(run: seq<Action>)
    requires ValidRun(INIT, run) && InOrderRun(INIT, run)
    ensures Inv(Exec(INIT, run)) && HeadPicked(Exec(INIT, run))
    decreases |run|
  {
    hide Inv;
    hide Enabled;
    hide Apply;
    hide InOrder;
    InitInv();
    RunsKeepInv(INIT, run);
    if run != [] {
      hide HeadPicked;
      var n := |run| - 1;
      forall i | 0 <= i < n && ValidRun(INIT, run[..n][..i]) ensures InOrder(Exec(INIT, run[..n][..i]), run[..n][i]) {
        assert run[..n][..i] == run[..i];
      }
      HeadStaysPicked(run[..n]);
      StepHeadPicked(Exec(INIT, run[..n]), run[n]);
    }
  }

  /** A task with k tasks ahead has left the queue after k + 1 starts, whatever arrives later. */
  lemma PickedWithinBound(before: seq<Action>, run: seq<Action>, t: nat)
    requires ValidRun(INIT, before) && InOrderRun(INIT, before)
    requires var s := Exec(INIT, before);
      && ValidRun(s, run) && InOrderRun(s, run)
      && t in s.db.tasks && s.db.tasks[t].status == Queued
      && Starts(run) > |Ahead(s.db, t)|
    ensures var s' := Exec(Exec(INIT, before), run);
      t in s'.db.tasks && s'.db.tasks[t].status != Queued
  {
    hide Inv;
    hide ValidRun;
    hide Exec;
    hide InOrderRun;
    hide HeadPicked;
    hide Ahead;
    var s := Exec(INIT, before);
    HeadStaysPicked(before);
    RunEvolves(s, run, t);
    if Exec(s, run).db.tasks[t].status == Queued {
      WaitingShrinks(s, run, t);
      assert false;
    }
  }

  // ---------------------------------------------------------------- commits out of order

  /** A commit that puts its task ahead of t: its transaction drew the earlier creation time and committed
      later. */
  predicate Overtakes(s: State, a: Action, t: nat)
    requires t in s.db.tasks
  {
    && a.Api? && a.call.TxCommit? && a.call.app in s.txs && s.txs[a.call.app].AppUpdated?
    && var tx := s.txs[a.call.app];
       tx.row.createdAt < s.db.tasks[t].createdAt || (tx.row.createdAt == s.db.tasks[t].createdAt && tx.id < t)
  }

  ghost function Overtakers(s: State, run: seq<Action>, t: nat): nat
    requires ValidRun(s, run)
    decreases |run|
  {
    if run == [] then 0
    else
      var before := Exec(s, run[..|run| - 1]);
      Overtakers(s, run[..|run| - 1], t)
      + if t in before.db.tasks && Overtakes(before, run[|run| - 1], t) then 1 else 0
  }

  /** What the worker has picked is t, or is ahead of it. */
  ghost predicate PickedAhead(s: State, t: nat)
    requires t in s.db.tasks
  {
    s.pc.Picked? ==> s.pc.job.id == t || s.pc.job.id in Ahead(s.db, t)
  }

  lemma ApiAheadAnyway(s: State, call: ApiCall, t: nat)
    requires TxsOk(s.db, s.txs) && ApiEnabled(s, call)
    requires t in s.db.tasks && s.db.tasks[t].status == Queued
    ensures t in ApplyApi(s, call).db.tasks && Ahead(s.db, t) <= Ahead(ApplyApi(s, call).db, t)
    ensures Overtakes(s, Api(call), t) ==>
      Ahead(ApplyApi(s, call).db, t) <= Ahead(s.db, t) + {s.txs[call.app].id}
    ensures !Overtakes(s, Api(call), t) ==> Ahead(ApplyApi(s, call).db, t) == Ahead(s.db, t)
  {
    hide TxsOk;
    hide HasActiveTask;
    hide TaskNoFree;
    hide IsTaskNo;
    hide IsSourceKey;
    if call.TxCommit? {
      TxIsOk(s.db, s.txs, call.app);
    }
  }

  /** One action: what is ahead of t grows by an overtaking commit only, and a start takes one away unless
      it is the start of a task picked before. */
  lemma StepAheadAnyway(s: State, a: Action, t: nat)
    requires Inv(s) && Enabled(s, a)
    requires t in s.db.tasks && s.db.tasks[t].status == Queued
    requires t in Apply(s, a).db.tasks && Apply(s, a).db.tasks[t].status == Queued
    ensures |Ahead(Apply(s, a).db, t)| <= |Ahead(s.db, t)| + if Overtakes(s, a, t) then 1 else 0
    ensures PickedAhead(s, t) ==> PickedAhead(Apply(s, a), t)
    ensures a == STARTED ==> !Apply(s, a).pc.Picked? && (PickedAhead(s, t) ==> |Ahead(Apply(s, a).db, t)| < |Ahead(s.db, t)|)
    ensures !s.pc.Picked? ==> PickedAhead(Apply(s, a), t)
  {
    hide Enabled;
    hide Apply;
    hide Ahead;
    hide Inv;
    var before, after := Ahead(s.db, t), Ahead(Apply(s, a).db, t);
    if a.Api? {
      ApplyIsApi(s, a);
      assert TxsOk(s.db, s.txs) by { InvTxs(s); }
      ApiAheadAnyway(s, a.call, t);
      ApiLeavesWorker(s, a.call);
      if Overtakes(s, a, t) {
        Shrinks(after, before + {s.txs[a.call.app].id});
      }
    } else {
      WorkAddsNothing(s, a, t);
      Shrinks(after, before);
      WorkPicks(s, a, t);
      if a == STARTED && PickedAhead(s, t) {
        StartLeavesQueue(s, t);
        Shrinks(after, before - {s.pc.job.id});
      }
    }
  }

  /** The worker picks the head of the queue, and holds on to it until it starts it or gives it up. */
  lemma WorkPicks(s: State, a: Action, t: nat)
    requires Enabled(s, a) && !a.Api? && t in s.db.tasks && s.db.tasks[t].status == Queued
    requires t in Apply(s, a).db.tasks
    ensures Apply(s, a).pc.Picked? ==> !s.pc.Picked? && PickedAhead(Apply(s, a), t)
  {
    hide WorkEnabled;
    hide ApplyWork;
    if a.Work? {
      OnlyPickPicks(s, a.step);
      if a.step.Pick? {
        PickIsAhead(s, a.step.task, t);
      }
    }
  }

  lemma PickIsAhead(s: State, head: nat, t: nat)
    requires WorkEnabled(s, Pick(head)) && t in s.db.tasks && s.db.tasks[t].status == Queued
    ensures var s' := ApplyWork(s, Pick(head)); t in s'.db.tasks && !s.pc.Picked? && PickedAhead(s', t)
  {
  }

  lemma OnlyPickPicks(s: State, step: WorkerStep)
    requires WorkEnabled(s, step)
    ensures ApplyWork(s, step).pc.Picked? ==> step.Pick?
  {
    hide Keys;
    hide IsNextQueued;
    hide CanRecover;
    hide Lists;
    hide FindStep;
    hide StartStep;
    hide FinishStep;
    hide CurrentStep;
    hide CompleteTask;
    hide FailTask;
    hide MarkTaskRunning;
    hide RecordArtifacts;
    hide Recovered;
    hide CleanupList;
    hide Collected;
  }

  lemma StartLeavesQueue(s: State, t: nat)
    requires Inv(s) && Enabled(s, STARTED) && t in s.db.tasks && PickedAhead(s, t)
    requires t in Apply(s, STARTED).db.tasks && Apply(s, STARTED).db.tasks[t].status == Queued
    ensures s.pc.Picked? && s.pc.job.id in Ahead(s.db, t) && s.pc.job.id !in Ahead(Apply(s, STARTED).db, t)
  {
    hide Inv;
    hide Apply;
    StartsTask(s);
  }

  /** Whatever the order of commits: starts plus the tasks still ahead never exceed those ahead at first plus
      the commits that overtook, and one for a task picked before. */
  lemma {:induction false} WaitingShrinksAnyway(s: State, run: seq<Action>, t: nat)
    requires Inv(s) && ValidRun(s, run) && t in s.db.tasks && s.db.tasks[t].status == Queued
    requires t in Exec(s, run).db.tasks && Exec(s, run).db.tasks[t].status == Queued
    ensures var s' := Exec(s, run);
      Starts(run) + |Ahead(s'.db, t)| + (if s'.pc.Picked? && !PickedAhead(s', t) then 1 else 0)
        <= |Ahead(s.db, t)| + Overtakers(s, run, t) + if s.pc.Picked? && !PickedAhead(s, t) then 1 else 0
    decreases |run|
  {
    hide Inv;
    hide Enabled;
    hide Apply;
    hide Ahead;
    hide PickedAhead;
    hide Overtakes;
    if run != [] {
      var n := |run| - 1;
      var before := Exec(s, run[..n]);
      RunsKeepInv(s, run[..n]);
      RunEvolves(s, run[..n], t);
      ActionFollows(before, run[n], t);
      WaitingShrinksAnyway(s, run[..n], t);
      StepAheadAnyway(before, run[n], t);
      StartedWasPicked(before, run[n]);
    }
  }

  lemma StartedWasPicked(s: State, a: Action)
    requires Enabled(s, a)
    ensures a == STARTED ==> s.pc.Picked?
  {
    hide ApiEnabled;
    hide IsNextQueued;
    hide CanRecover;
    hide Lists;
    hide Keys;
  }

  /** From any reachable state a task with k tasks ahead has left the queue after more than k starts beyond
      the overtaking commits and the start of a task that was picked before. */
  lemma PickedDespiteOvertaking(s: State, run: seq<Action>, t: nat)
    requires Reachable(s) && ValidRun(s, run) && t in s.db.tasks && s.db.tasks[t].status == Queued
    requires Starts(run) > |Ahead(s.db, t)| + Overtakers(s, run, t) + if s.pc.Picked? then 1 else 0
    ensures t in Exec(s, run).db.tasks && Exec(s, run).db.tasks[t].status != Queued
  {
    hide Inv;
    hide Reachable;
    hide ValidRun;
    hide Exec;
    hide Ahead;
    hide PickedAhead;
    hide Overtakers;
    ReachableInv(s);
    RunEvolves(s, run, t);
    if Exec(s, run).db.tasks[t].status == Queued {
      WaitingShrinksAnyway(s, run, t);
      assert false;
    }
  }
}
