/** Small histories from the empty system, for the places where a property fails. */
module Histories {
  import opened Wrappers
  import opened Strategy
  import opened Tables
  import opened ObjectKeys
  import opened Pipeline
  import opened Theorems
  import opened Creation

  const PLAIN := Strategy(false, false, false, "low", false, false, "none", 0, [], false, false, "warn",
                          false, false, false, false, false, "")

  function FirstTask(createdAt: int): TaskRow {
    TaskRow("TASK-1", 0, Queued, "plain", PLAIN, NO_ARTIFACTS, "", createdAt)
  }

  predicate NoCrash(run: seq<Action>) {
    forall i :: 0 <= i < |run| ==> !run[i].Crash?
  }

  lemma FirstTaskNo(createdAt: int)
    ensures IsTaskNo(FirstTask(createdAt).taskNo)
  {
    assert "TASK-" <= "TASK-1";
  }

  lemma NothingDone(s: State)
    ensures ValidRun(s, []) && Exec(s, []) == s
  {
  }

  /** One app and nothing else. */
  predicate OneApp(s: State) {
    s == AfterInsertApp(INIT, "p", SourceKey("p", "0123456789ab", "a.apk"))
  }

  /** The worker has not come up yet, and task 0 of app 0 waits for it. */
  predicate OnlyTaskQueued(s: State) {
    && s.pc == Down && 0 in s.db.tasks && (forall t :: t in s.db.tasks ==> t == 0)
    && s.db.tasks[0].status == Queued && s.db.tasks[0].appId == 0
  }

  /** An app is uploaded, then its first task is created. */
  ghost predicate QueuesFirstTask(before: seq<Action>, created: seq<Action>, createdAt: int) {
    && ValidRun(INIT, before) && ValidRun(INIT, created) && before <= created && NoCrash(created)
    && OneApp(Exec(INIT, before)) && OnlyTaskQueued(Exec(INIT, created))
    && Exec(INIT, created).db.tasks == map[0 := FirstTask(createdAt)]
    && 0 in Exec(INIT, created).db.apps && Exec(INIT, created).txs == map[]
  }

  lemma QueueFirstTask(createdAt: int) returns (before: seq<Action>, created: seq<Action>)
    ensures QueuesFirstTask(before, created, createdAt)
  {
    hide ValidRun;
    hide Exec;
    hide SourceKey;
    hide IsSourceKey;
    hide IsTaskNo;
    hide DefaultSteps;
    var key := SourceKey("p", "0123456789ab", "a.apk");
    UploadedKeyIsSourceKey("p", "0123456789ab", "a.apk");
    FirstTaskNo(createdAt);
    NothingDone(INIT);
    Extend(INIT, [], Api(InsertApp("p", key)));
    before := [] + [Api(InsertApp("p", key))];
    assert OneApp(Exec(INIT, before));
    created := CreationIsARun(before, 0, FirstTask(createdAt));
    assert Exec(INIT, created) == AfterCreation(Exec(INIT, before), 0, FirstTask(createdAt));
    assert Exec(INIT, created).db.tasks == map[0 := FirstTask(createdAt)];
  }

  lemma RecoversNothing(db: Db)
    requires RunningIds(db) == {}
    ensures CanRecover(db) && Recovered(db, "") == db
  {
    hide RecoveredSteps;
    forall t | t in db.tasks ensures db.tasks[t].status != Running {
      assert t !in RunningIds(db);
    }
    assert Recovered(db, "").tasks == db.tasks;
    assert Recovered(db, "").apps == db.apps;
    assert Recovered(db, "").steps == db.steps;
  }

  /** The worker comes up, has nothing to recover, picks the only task and starts it. */
  lemma StartFirstTask(s: State, run: seq<Action>) returns (run': seq<Action>)
    requires ValidRun(s, run) && OnlyTaskQueued(Exec(s, run)) && NoCrash(run)
    ensures ValidRun(s, run') && run <= run' && NoCrash(run')
    ensures var q, s' := Exec(s, run), Exec(s, run');
      s' == q.(db := q.db.(tasks := q.db.tasks[0 := q.db.tasks[0].(status := Running)]), pc := Entering(JobOf(q.db, 0)), stuck := {})
  {
    hide ValidRun;
    hide Exec;
    hide Recovered;
    var q := Exec(s, run);
    RecoversNothing(q.db);
    assert RunningIds(q.db) == {};
    Extend(s, run, Work(RecoverCommit([], "")));
    run' := run + [Work(RecoverCommit([], ""))];
    assert Exec(s, run') == q.(pc := Idle, stuck := {});
    Extend(s, run', Work(Pick(0)));
    run' := run' + [Work(Pick(0))];
    assert Exec(s, run') == q.(pc := Picked(JobOf(q.db, 0)), stuck := {});
    Extend(s, run', Work(MarkRunning(true)));
    run' := run' + [Work(MarkRunning(true))];
  }

  /** It cannot make its directory, and marks the task failed, or fails to. */
  lemma FailFirstTask(run: seq<Action>, ok: bool) returns (run': seq<Action>)
    requires ValidRun(INIT, run) && OnlyTaskQueued(Exec(INIT, run)) && NoCrash(run) && 0 in Exec(INIT, run).db.apps
    ensures ValidRun(INIT, run') && run <= run' && NoCrash(run')
    ensures var s, s' := Exec(INIT, run), Exec(INIT, run');
      && s'.pc == Idle && s'.stuck == (if ok then {} else {0}) && s'.db.tasks.Keys == s.db.tasks.Keys
      && s'.db.tasks[0].status == if ok then Failed else Running
  {
    hide ValidRun;
    hide Exec;
    hide Recovered;
    run' := StartFirstTask(INIT, run);
    Extend(INIT, run', Work(MakeDir(false)));
    run' := run' + [Work(MakeDir(false))];
    Extend(INIT, run', Work(MarkFailed(ok, "")));
    run' := run' + [Work(MarkFailed(ok, ""))];
  }

  /** The worker idles, and a task runs that nobody works on. */
  ghost predicate Strands(run: seq<Action>) {
    && ValidRun(INIT, run) && NoCrash(run) && Exec(INIT, run).pc == Idle
    && RunningIds(Exec(INIT, run).db) == Exec(INIT, run).stuck != {}
  }

  /** A history without a crash, in which two calls fail: making the work directory, and marking the task
      failed. */
  lemma ATaskIsStranded() returns (run: seq<Action>)
    ensures Strands(run)
  {
    hide ValidRun;
    hide Exec;
    var before, created := QueueFirstTask(0);
    run := FailFirstTask(created, false);
    assert RunningIds(Exec(INIT, run).db) == {0};
  }
}
