/** The creation transaction, run undisturbed from its lock to its commit, has exactly the effect that the
    repository's CreateTaskWithStepsForApp promises. */
module Creation {
  import opened Tables
  import opened ObjectKeys
  import opened Pipeline
  import opened Theorems

  function DefaultSteps(n: nat): (rows: seq<StepRow>)
    ensures |rows| == n && forall i :: 0 <= i < n ==> rows[i] == DefaultStep(i + 1)
  {
    if n == 0 then [] else DefaultSteps(n - 1) + [DefaultStep(n)]
  }

  /** What a create needs: an app that nobody has locked and that has no active task, and a row for it. */
  ghost predicate Creatable(s: State, app: nat, row: TaskRow) {
    && app in s.db.apps && app !in s.txs && !HasActiveTask(s.db, app)
    && row.appId == app && row.status == Queued && row.artifacts == NO_ARTIFACTS
    && IsTaskNo(row.taskNo) && TaskNoFree(s, app, row.taskNo)
  }

  function AfterCreation(s: State, app: nat, row: TaskRow): State
    requires app in s.db.apps
  {
    var id := s.db.nextTask;
    s.(db := InsertCommitted(s.db.(nextTask := id + 1), app, id, row, DefaultSteps(6)),
       newest := s.newest[app := id])
  }

  /** A longer run, with calls of the API only. */
  predicate AddsApi(run: seq<Action>, run': seq<Action>) {
    run <= run' && forall i :: |run| <= i < |run'| ==> run'[i].Api?
  }

  function WithTx(s: State, app: nat, tx: Tx): State { s.(txs := s.txs[app := tx]) }

  lemma Opens(run: seq<Action>, app: nat, row: TaskRow) returns (run': seq<Action>)
    requires ValidRun(INIT, run) && Creatable(Exec(INIT, run), app, row)
    ensures AddsApi(run, run') && ValidRun(INIT, run')
    ensures var s := Exec(INIT, run);
      Exec(INIT, run') == WithTx(s.(db := s.db.(nextTask := s.db.nextTask + 1)), app, Inserting(s.db.nextTask, row, []))
  {
    hide ValidRun;
    hide Exec;
    hide IsTaskNo;
    var s := Exec(INIT, run);
    Extend(INIT, run, Api(TxLock(app)));
    run' := run + [Api(TxLock(app))];
    Extend(INIT, run', Api(TxCount(app)));
    run' := run' + [Api(TxCount(app))];
    var counted := Exec(INIT, run');
    assert counted == WithTx(s, app, Counted);
    Extend(INIT, run', Api(TxInsert(app, row)));
    run' := run' + [Api(TxInsert(app, row))];
    assert Exec(INIT, run').txs == s.txs[app := Inserting(s.db.nextTask, row, [])];
  }

  lemma {:induction false} Inserts(run: seq<Action>, s: State, app: nat, id: nat, row: TaskRow, n: nat)
    returns (run': seq<Action>)
    requires ValidRun(INIT, run) && Exec(INIT, run) == WithTx(s, app, Inserting(id, row, [])) && n <= 6
    ensures AddsApi(run, run') && ValidRun(INIT, run') && Exec(INIT, run') == WithTx(s, app, Inserting(id, row, DefaultSteps(n)))
  {
    hide ValidRun;
    hide Exec;
    run' := run;
    if n > 0 {
      run' := Inserts(run, s, app, id, row, n - 1);
      var before := Exec(INIT, run');
      Extend(INIT, run', Api(TxInsertStep(app)));
      run' := run' + [Api(TxInsertStep(app))];
      assert Exec(INIT, run').txs == s.txs[app := Inserting(id, row, DefaultSteps(n))];
    }
  }

  lemma Closes(run: seq<Action>, s: State, app: nat, id: nat, row: TaskRow) returns (run': seq<Action>)
    requires ValidRun(INIT, run) && Exec(INIT, run) == WithTx(s, app, Inserting(id, row, DefaultSteps(6)))
    requires app in s.db.apps && app !in s.txs
    ensures AddsApi(run, run') && ValidRun(INIT, run')
    ensures Exec(INIT, run') ==
      s.(db := InsertCommitted(s.db, app, id, row, DefaultSteps(6)), newest := s.newest[app := id])
  {
    hide ValidRun;
    hide Exec;
    hide DefaultSteps;
    Extend(INIT, run, Api(TxUpdateApp(app)));
    run' := run + [Api(TxUpdateApp(app))];
    assert Exec(INIT, run') == WithTx(s, app, AppUpdated(id, row, DefaultSteps(6)));
    Extend(INIT, run', Api(TxCommit(app)));
    run' := run' + [Api(TxCommit(app))];
    assert s.txs[app := AppUpdated(id, row, DefaultSteps(6))] - {app} == s.txs;
  }

  /** Whenever an app is free, the ten small steps of a creation can run, and together they do what the
      repository's method does in one go. */
  lemma CreationIsARun(run: seq<Action>, app: nat, row: TaskRow) returns (run': seq<Action>)
    requires ValidRun(INIT, run) && Creatable(Exec(INIT, run), app, row)
    ensures AddsApi(run, run') && ValidRun(INIT, run')
    ensures Exec(INIT, run') == AfterCreation(Exec(INIT, run), app, row)
  {
    hide ValidRun;
    hide Exec;
    hide DefaultSteps;
    hide IsTaskNo;
    var s := Exec(INIT, run);
    run' := Opens(run, app, row);
    var started := s.(db := s.db.(nextTask := s.db.nextTask + 1));
    run' := Inserts(run', started, app, s.db.nextTask, row, 6);
    run' := Closes(run', started, app, s.db.nextTask, row);
  }
}
