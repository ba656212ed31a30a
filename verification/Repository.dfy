/** The hardening repository: in-place updates of the tables, each proved equal to its transition
    function.  `fault` says that the database refuses the statement (or, for a transaction of several
    statements, at which of them); an error leaves the tables as they were. */
module Repository {
  import opened Wrappers
  import opened Strategy
  import opened Tables
  import opened Pipeline

  datatype CreateError = AppNotFound | ActiveTaskExists | CreateFailed
  datatype Created = Ok(id: nat) | Err(error: CreateError)

  /** error_summary is a column of 500 characters. */
  const SUMMARY_SIZE := 500

  class HardeningRepository {
    var apps: map<nat, AppRow>
    var tasks: map<nat, TaskRow>
    var steps: map<nat, seq<StepRow>>
    var nextApp: nat
    var nextTask: nat

    constructor ()
      ensures Contents() == INIT.db
    {
      apps, tasks, steps, nextApp, nextTask := map[], map[], map[], 0, 0;
    }

    function Contents(): Db
      reads this
    {
      Db(apps, tasks, steps, nextApp, nextTask)
    }

    /** A rolled back transaction gives back no ids. */
    method RollBack(db: Db)
      modifies this
      ensures Contents() == db.(nextTask := old(nextTask))
    {
      apps, tasks, steps, nextApp := db.apps, db.tasks, db.steps, db.nextApp;
    }

    // -------------------------------------------------------------- creation

    method CreateTaskWithStepsForApp(row: TaskRow, faultAt: Option<nat>) returns (r: Created)
      modifies this
      ensures r.Err? ==>
        Contents() == old(Contents()).(nextTask := nextTask) && old(nextTask) <= nextTask <= old(nextTask) + 1
      ensures row.appId !in old(apps) ==> r == Err(AppNotFound) || r == Err(CreateFailed)
      ensures HasActiveTask(old(Contents()), row.appId) ==> r.Err?
      ensures r == Err(ActiveTaskExists) ==> row.appId in old(apps) && HasActiveTask(old(Contents()), row.appId)
      ensures r == Err(AppNotFound) ==> row.appId !in old(apps)
      ensures faultAt.None? && row.appId in old(apps) && HasActiveTask(old(Contents()), row.appId) ==>
        r == Err(ActiveTaskExists)
      ensures faultAt.None? ==>
        (r.Ok? <==> row.appId in old(apps) && !HasActiveTask(old(Contents()), row.appId)
                    && forall t :: t in old(tasks) ==> old(tasks)[t].taskNo != row.taskNo)
      ensures r.Ok? ==>
        && r.id == old(nextTask) && row.appId in old(apps)
        && r.id in steps && |steps[r.id]| == 6 && (forall i :: 0 <= i < 6 ==> steps[r.id][i] == DefaultStep(i + 1))
        && Contents() == InsertCommitted(old(Contents()).(nextTask := old(nextTask) + 1), row.appId, r.id, row, steps[r.id])
    {
      var before := Contents();
      if faultAt == Some(0) {
        return Err(CreateFailed);
      }
      if row.appId !in apps {
        return Err(AppNotFound);
      }
      if faultAt == Some(1) {
        return Err(CreateFailed);
      }
      if HasActiveTask(Contents(), row.appId) {
        return Err(ActiveTaskExists);
      }
      var id := nextTask;
      nextTask := nextTask + 1;
      if faultAt == Some(2) || exists t :: t in tasks && tasks[t].taskNo == row.taskNo {
        return Err(CreateFailed);
      }
      tasks := tasks[id := row];
      var inserted := InsertSteps(id, faultAt);
      if !inserted || faultAt == Some(9) {
        RollBack(before);
        return Err(CreateFailed);
      }
      apps := apps[row.appId := apps[row.appId].(status := AppProcessing)];
      r := Ok(id);
    }

    /** The six inserts, each of which may fail. */
    method InsertSteps(id: nat, faultAt: Option<nat>) returns (ok: bool)
      modifies `steps
      ensures faultAt.None? ==> ok
      ensures ok ==> id in steps && |steps[id]| == 6 && (forall i :: 0 <= i < 6 ==> steps[id][i] == DefaultStep(i + 1))
      ensures ok ==> steps[id] == [
        StepRow(PrepareInput, 1, StepWaiting), StepRow(ParsePackage, 2, StepWaiting), StepRow(ApplyStrategy, 3, StepWaiting),
        StepRow(RunEngine, 4, StepWaiting), StepRow(CollectArtifacts, 5, StepWaiting), StepRow(UploadArtifacts, 6, StepWaiting)]
      ensures ok ==> steps == old(steps)[id := steps[id]]
    {
      var rows := [];
      var n := 1;
      while n <= 6
        invariant 1 <= n <= 7 && |rows| == n - 1
        invariant forall i :: 0 <= i < n - 1 ==> rows[i] == DefaultStep(i + 1)
        invariant n > 1 ==> id in steps && steps[id] == rows && steps == old(steps)[id := rows]
        invariant n == 1 ==> steps == old(steps)
      {
        if faultAt == Some(n + 2) {
          return false;
        }
        rows := rows + [DefaultStep(n)];
        steps := steps[id := rows];
        n := n + 1;
      }
      ok := true;
    }

    method HasActiveTaskForApp(app: nat, fault: bool) returns (r: Option<bool>)
      ensures r == if fault then None else Some(HasActiveTask(Contents(), app))
    {
      if fault {
        return None;
      }
      r := Some(exists t :: t in tasks && tasks[t].appId == app && Active(tasks[t].status));
    }

    // -------------------------------------------------------------- picking

    /** ORDER BY created_at ASC, id ASC LIMIT 1 over the queued rows. */
    method NextQueuedTask() returns (next: Option<nat>)
      ensures next.Some? ==> IsNextQueued(Contents(), next.value)
      ensures next.Some? ==>
        && next.value in tasks && tasks[next.value].status == Queued
        && forall u :: u in tasks && tasks[u].status == Queued ==>
             tasks[next.value].createdAt < tasks[u].createdAt
             || (tasks[next.value].createdAt == tasks[u].createdAt && next.value <= u)
      ensures next.None? ==> forall t :: t in tasks ==> tasks[t].status != Queued
    {
      next := None;
      var rest := tasks.Keys;
      while rest != {}
        invariant rest <= tasks.Keys
        invariant next.Some? ==> next.value in tasks && next.value !in rest && tasks[next.value].status == Queued
        invariant next.Some? ==> forall u :: u in tasks && u !in rest && tasks[u].status == Queued && u != next.value ==>
          Before(Contents(), next.value, u)
        invariant next.None? ==> forall u :: u in tasks && u !in rest ==> tasks[u].status != Queued
        decreases rest
      {
        var t :| t in rest;
        rest := rest - {t};
        if tasks[t].status == Queued && (next.None? || Before(Contents(), t, next.value)) {
          next := Some(t);
        }
      }
    }

    // -------------------------------------------------------------- guarded transitions

    method MarkTaskRunning(t: nat, fault: bool) returns (ok: bool)
      modifies this
      ensures ok <==> !fault && Tables.MarkTaskRunning(old(Contents()), t).Some?
      ensures Contents() == if ok then Tables.MarkTaskRunning(old(Contents()), t).value else old(Contents())
      ensures ok <==> !fault && t in old(tasks) && old(tasks)[t].status == Queued
      ensures ok ==> Contents() == old(Contents()).(tasks := old(tasks)[t := old(tasks)[t].(status := Running)])
    {
      if fault || t !in tasks || tasks[t].status != Queued {
        return false;
      }
      tasks := tasks[t := tasks[t].(status := Running)];
      ok := true;
    }

    method RecordArtifacts(t: nat, arts: ArtifactFields, fault: bool) returns (ok: bool)
      modifies this
      ensures ok <==> !fault && Tables.RecordArtifacts(old(Contents()), t, arts).Some?
      ensures Contents() == if ok then Tables.RecordArtifacts(old(Contents()), t, arts).value else old(Contents())
      ensures ok <==> !fault && t in old(tasks)
      ensures ok ==> Contents() == old(Contents()).(tasks := old(tasks)[t := old(tasks)[t].(artifacts := arts)])
    {
      if fault || t !in tasks {
        return false;
      }
      tasks := tasks[t := tasks[t].(artifacts := arts)];
      ok := true;
    }

    /** The two updates of transitionTaskForAppTx; after an error the caller must roll back. */
    method TransitionTx(t: nat, app: nat, expected: TaskStatus, status: TaskStatus, arts: ArtifactFields,
                        summary: string, appStatus: AppStatus, risk: Option<RiskLevel>, fault: bool)
      returns (ok: bool)
      requires t in tasks && tasks[t].appId == app
      modifies `apps, `tasks
      ensures ok <==>
        !fault && TransitionTaskForApp(old(Contents()), t, expected, status, arts, summary, appStatus, risk).Some?
      ensures ok ==>
        Contents() == TransitionTaskForApp(old(Contents()), t, expected, status, arts, summary, appStatus, risk).value
    {
      if tasks[t].status != expected {
        return false;
      }
      tasks := tasks[t := tasks[t].(status := status, artifacts := arts, errorSummary := summary)];
      if fault || app !in apps {
        return false;
      }
      var row := apps[app];
      row := row.(status := appStatus);
      if risk.Some? {
        row := row.(risk := risk);
      }
      apps := apps[app := row];
      ok := true;
    }

    method TransitionInTransaction(t: nat, expected: TaskStatus, status: TaskStatus, arts: ArtifactFields,
                                   summary: string, appStatus: AppStatus, risk: Option<RiskLevel>, fault: bool)
      returns (ok: bool)
      modifies this
      ensures ok <==>
        !fault && TransitionTaskForApp(old(Contents()), t, expected, status, arts, summary, appStatus, risk).Some?
      ensures Contents() ==
        if ok then TransitionTaskForApp(old(Contents()), t, expected, status, arts, summary, appStatus, risk).value
        else old(Contents())
    {
      if t !in tasks {
        return false;
      }
      var before := Contents();
      ok := TransitionTx(t, tasks[t].appId, expected, status, arts, summary, appStatus, risk, fault);
      if !ok {
        RollBack(before);
      }
    }

    method CompleteTaskForApp(t: nat, arts: ArtifactFields, risk: RiskLevel, fault: bool) returns (ok: bool)
      modifies this
      ensures ok <==> !fault && CompleteTask(old(Contents()), t, arts, risk).Some?
      ensures Contents() == if ok then CompleteTask(old(Contents()), t, arts, risk).value else old(Contents())
      ensures ok <==>
        !fault && t in old(tasks) && old(tasks)[t].status == Running && old(tasks)[t].appId in old(apps)
      ensures ok ==>
        var row, a := old(tasks)[t], old(tasks)[t].appId;
        Contents() == old(Contents()).(
          tasks := old(tasks)[t := row.(status := Completed, artifacts := arts, errorSummary := "")],
          apps := old(apps)[a := old(apps)[a].(status := AppCompleted, risk := Some(risk))])
    {
      ok := TransitionInTransaction(t, Running, Completed, arts, "", AppCompleted, Some(risk), fault);
    }

    method FailTaskForApp(t: nat, summary: string, fault: bool) returns (ok: bool)
      modifies this
      ensures ok <==> !fault && |summary| <= SUMMARY_SIZE && FailTask(old(Contents()), t, summary).Some?
      ensures Contents() == if ok then FailTask(old(Contents()), t, summary).value else old(Contents())
      ensures ok <==>
        && !fault && |summary| <= 500
        && t in old(tasks) && old(tasks)[t].status == Running && old(tasks)[t].appId in old(apps)
      ensures ok ==>
        var row, a := old(tasks)[t], old(tasks)[t].appId;
        Contents() == old(Contents()).(
          tasks := old(tasks)[t := row.(status := Failed, errorSummary := summary,
                                        artifacts := ArtifactFields("", 0, "", "", 0, ""))],
          apps := old(apps)[a := old(apps)[a].(status := AppFailed)])
    {
      ok := TransitionInTransaction(t, Running, Failed, NO_ARTIFACTS, summary, AppFailed, None,
                                    fault || |summary| > SUMMARY_SIZE);
    }

    // -------------------------------------------------------------- recovery

    method SelectRunning() returns (ids: seq<nat>)
      ensures Lists(ids, RunningIds(Contents()))
    {
      ids := [];
      var rest := RunningIds(Contents());
      while rest != {}
        invariant rest <= RunningIds(Contents())
        invariant Lists(ids, RunningIds(Contents()) - rest)
        decreases rest
      {
        var t :| t in rest;
        rest := rest - {t};
        ids := ids + [t];
      }
      assert RunningIds(Contents()) - {} == RunningIds(Contents());
    }

    /** One transaction over all running tasks; its result is the rows as they were before. */
    method RecoverRunningTasks(summary: string, faultAt: Option<nat>) returns (ok: bool, recovered: seq<(nat, TaskRow)>)
      modifies this
      ensures !ok ==> Contents() == old(Contents())
      ensures ok ==> CanRecover(old(Contents())) && Contents() == Recovered(old(Contents()), summary)
      ensures faultAt.None? ==> (ok <==> CanRecover(old(Contents())))
      ensures ok ==> Lists(Ids(recovered), RunningIds(old(Contents())))
      ensures ok ==> ArePreImages(old(Contents()), recovered)
    {
      hide PartlyRecovered;
      hide Recovered;
      hide RecoveredSteps;
      hide Lists;
      hide RunningIds;
      hide CanRecover;
      hide EachHasApp;
      hide ArePreImages;
      if faultAt == Some(0) {
        return false, [];
      }
      var before := Contents();
      var ids := SelectRunning();
      ok, recovered := RecoverEach(before, ids, summary, faultAt);
      if !ok || faultAt == Some(|ids| + 1) {
        RollBack(before);
        return false, [];
      }
      assert PartlyRecovered(before, Contents(), ids, summary);
      PartlySteps(before, Contents(), ids, summary);
      steps := map t | t in steps :: if t in ids then RecoveredSteps(steps[t]) else steps[t];
      RecoveredAll(before, Contents(), ids, summary);
      EachAppExists(before, ids);
    }

    /** The loop of that transaction: task and app rows, one task after the other. */
    method RecoverEach(before: Db, ids: seq<nat>, summary: string, faultAt: Option<nat>)
      returns (ok: bool, recovered: seq<(nat, TaskRow)>)
      requires Contents() == before && Lists(ids, RunningIds(before))
      modifies `apps, `tasks
      ensures ok ==> PartlyRecovered(before, Contents(), ids, summary) && EachHasApp(before, ids)
      ensures faultAt.None? ==> (ok <==> CanRecover(before))
      ensures ok ==> Ids(recovered) == ids && ArePreImages(before, recovered)
    {
      hide PartlyRecovered;
      recovered := [];
      var n := 0;
      assert ids[..0] == [];
      NothingRecovered(before, summary);
      while n < |ids|
        invariant n <= |ids|
        invariant PartlyRecovered(before, Contents(), ids[..n], summary)
        invariant EachHasApp(before, ids[..n])
        invariant Ids(recovered) == ids[..n] && ArePreImages(before, recovered)
      {
        var t := ids[n];
        assert t in RunningIds(before) && t !in ids[..n];
        StillAsBefore(before, Contents(), ids[..n], t, summary);
        ghost var mid := Contents();
        ok := TransitionTx(t, tasks[t].appId, Running, Failed, NO_ARTIFACTS, summary, AppFailed, None,
                           faultAt == Some(n + 1));
        if !ok {
          return false, [];
        }
        IdsSnoc(recovered, (t, before.tasks[t]));
        recovered := recovered + [(t, before.tasks[t])];
        assert ids[..n + 1] == ids[..n] + [t];
        RecoverOneMore(before, mid, Contents(), ids[..n], t, summary);
        n := n + 1;
      }
      assert ids[..n] == ids;
      EachAppExists(before, ids);
      ok := true;
    }

    // -------------------------------------------------------------- steps

    method FindStep(t: nat, key: StepKey, fault: bool) returns (r: Option<nat>)
      ensures r == if fault then None else Tables.FindStep(Contents(), t, key)
    {
      if fault {
        return None;
      }
      r := Tables.FindStep(Contents(), t, key);
    }

    method StartStep(t: nat, i: nat, fault: bool) returns (ok: bool)
      modifies this
      ensures ok <==> !fault && Tables.StartStep(old(Contents()), t, i).Some?
      ensures Contents() == if ok then Tables.StartStep(old(Contents()), t, i).value else old(Contents())
      ensures ok <==>
        && !fault && t in old(steps) && i < |old(steps)[t]| && old(steps)[t][i].status == StepWaiting
        && t in old(tasks) && old(tasks)[t].status == Running
        && forall j :: 0 <= j < |old(steps)[t]| && old(steps)[t][j].sortOrder < old(steps)[t][i].sortOrder ==>
             old(steps)[t][j].status == StepSuccess
      ensures ok ==>
        var rows := old(steps)[t];
        Contents() == old(Contents()).(steps := old(steps)[t := rows[i := rows[i].(status := StepRunning)]])
    {
      if fault || t !in steps || i >= |steps[t]| || steps[t][i].status != StepWaiting {
        return false;
      }
      if t !in tasks || tasks[t].status != Running {
        return false;
      }
      if PriorIncomplete(steps[t], i) {
        return false;
      }
      steps := steps[t := steps[t][i := steps[t][i].(status := StepRunning)]];
      ok := true;
    }

    method FinishStep(t: nat, i: nat, status: StepStatus, fault: bool) returns (ok: bool)
      modifies this
      ensures ok <==> !fault && Tables.FinishStep(old(Contents()), t, i, status).Some?
      ensures Contents() == if ok then Tables.FinishStep(old(Contents()), t, i, status).value else old(Contents())
      ensures ok <==> !fault && t in old(steps) && i < |old(steps)[t]| && old(steps)[t][i].status == StepRunning
      ensures ok ==>
        var rows := old(steps)[t];
        Contents() == old(Contents()).(steps := old(steps)[t := rows[i := rows[i].(status := status)]])
    {
      if fault || t !in steps || i >= |steps[t]| || steps[t][i].status != StepRunning {
        return false;
      }
      steps := steps[t := steps[t][i := steps[t][i].(status := status)]];
      ok := true;
    }
  }

  // ---------------------------------------------------------------- the recovery loop

  function Ids(rows: seq<(nat, TaskRow)>): (ids: seq<nat>)
    ensures |ids| == |rows| && forall i :: 0 <= i < |rows| ==> ids[i] == rows[i].0
  {
    if rows == [] then [] else [rows[0].0] + Ids(rows[1..])
  }

  lemma IdsSnoc(rows: seq<(nat, TaskRow)>, row: (nat, TaskRow))
    ensures Ids(rows + [row]) == Ids(rows) + [row.0]
  {
  }

  ghost predicate ArePreImages(db: Db, rows: seq<(nat, TaskRow)>) {
    forall i :: 0 <= i < |rows| ==> rows[i].0 in db.tasks && rows[i].1 == db.tasks[rows[i].0]
  }

  predicate EachHasApp(db: Db, ids: seq<nat>) {
    forall i :: 0 <= i < |ids| ==> ids[i] in db.tasks && db.tasks[ids[i]].appId in db.apps
  }

  lemma EachAppExists(db: Db, ids: seq<nat>)
    requires Lists(ids, RunningIds(db))
    ensures EachHasApp(db, ids) <==> CanRecover(db)
  {
    if EachHasApp(db, ids) {
      forall t | t in db.tasks && db.tasks[t].status == Running ensures db.tasks[t].appId in db.apps {
        assert t in RunningIds(db);
        var i :| 0 <= i < |ids| && ids[i] == t;
      }
    }
  }

  lemma NothingRecovered(before: Db, summary: string)
    ensures PartlyRecovered(before, before, [], summary)
  {
  }

  lemma StillAsBefore(before: Db, db: Db, ids: seq<nat>, t: nat, summary: string)
    requires PartlyRecovered(before, db, ids, summary) && t in before.tasks && t !in ids
    ensures t in db.tasks && db.tasks[t] == before.tasks[t] && db.apps.Keys == before.apps.Keys
  {
    hide AppOfSome;
    hide RecoveredTask;
  }

  lemma PartlySteps(before: Db, db: Db, ids: seq<nat>, summary: string)
    requires PartlyRecovered(before, db, ids, summary)
    ensures db.(steps := before.steps) == db && db.steps == before.steps
  {
    hide AppOfSome;
    hide RecoveredTask;
  }

  predicate AppOfSome(db: Db, ids: seq<nat>, a: nat) {
    exists i :: 0 <= i < |ids| && ids[i] in db.tasks && db.tasks[ids[i]].appId == a
  }

  /** The tables after the loop has handled the listed tasks. */
  ghost predicate PartlyRecovered(before: Db, db: Db, ids: seq<nat>, summary: string) {
    && db.steps == before.steps && db.nextApp == before.nextApp && db.nextTask == before.nextTask
    && db.tasks.Keys == before.tasks.Keys && db.apps.Keys == before.apps.Keys
    && (forall t :: t in before.tasks ==>
          db.tasks[t] == if t in ids then RecoveredTask(before.tasks[t], summary) else before.tasks[t])
    && (forall a :: a in before.apps ==>
          db.apps[a] == if AppOfSome(before, ids, a) then before.apps[a].(status := AppFailed) else before.apps[a])
  }

  lemma AppOfOneMore(before: Db, ids: seq<nat>, t: nat, a: nat)
    requires t in before.tasks
    ensures AppOfSome(before, ids + [t], a) <==> AppOfSome(before, ids, a) || before.tasks[t].appId == a
  {
    var more := ids + [t];
    assert more[|ids|] == t;
    if AppOfSome(before, ids, a) {
      var i :| 0 <= i < |ids| && ids[i] in before.tasks && before.tasks[ids[i]].appId == a;
      assert more[i] == ids[i];
    }
  }

  lemma RecoverOneMore(before: Db, mid: Db, after: Db, ids: seq<nat>, t: nat, summary: string)
    requires PartlyRecovered(before, mid, ids, summary) && t in before.tasks && t !in ids
    requires before.tasks[t].status == Running && before.tasks[t].appId in before.apps
    requires TransitionTaskForApp(mid, t, Running, Failed, NO_ARTIFACTS, summary, AppFailed, None) == Some(after)
    ensures PartlyRecovered(before, after, ids + [t], summary)
  {
    hide AppOfSome;
    forall a | a in before.apps
      ensures after.apps[a] ==
        if AppOfSome(before, ids + [t], a) then before.apps[a].(status := AppFailed) else before.apps[a]
    {
      AppOfOneMore(before, ids, t, a);
    }
  }

  lemma RecoveredAll(before: Db, after: Db, ids: seq<nat>, summary: string)
    requires Lists(ids, RunningIds(before))
    requires PartlyRecovered(before, after.(steps := before.steps), ids, summary)
    requires after.steps == map t | t in before.steps :: if t in ids then RecoveredSteps(before.steps[t]) else before.steps[t]
    ensures after == Recovered(before, summary)
  {
    hide RecoveredSteps;
    var all := Recovered(before, summary);
    forall a | a in before.apps ensures after.apps[a] == all.apps[a] {
      assert AppOfSome(before, ids, a) <==> HasRunningTask(before, a) by { AppsOfRunning(before, ids, a); }
    }
    assert after.tasks == all.tasks;
    assert after.apps == all.apps;
    assert after.steps == all.steps;
  }

  lemma AppsOfRunning(db: Db, ids: seq<nat>, a: nat)
    requires Lists(ids, RunningIds(db))
    ensures AppOfSome(db, ids, a) <==> HasRunningTask(db, a)
  {
    if HasRunningTask(db, a) {
      var t :| t in db.tasks && db.tasks[t].appId == a && db.tasks[t].status == Running;
      assert t in RunningIds(db);
    }
  }
}
