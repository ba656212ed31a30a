/** The dashboard's histograms.  A query result is the list of task rows in whatever order the database
    returns it; the clock, the start of the day and the local hour of a creation time are parameters. */
module Dashboard {
  import opened Tables
  import opened Pipeline
  import opened Invariants
  import opened Theorems
  import opened Lifecycle
  import opened ObjectKeys
  import opened Histories

  /** WHERE created_at >= since. */
  function Since(rows: seq<TaskRow>, since: int): (r: seq<TaskRow>)
    ensures |r| <= |rows|
    ensures forall row :: row in r <==> row in rows && row.createdAt >= since
  {
    if rows == [] then []
    else if rows[0].createdAt >= since then [rows[0]] + Since(rows[1..], since)
    else Since(rows[1..], since)
  }

  function Statuses(rows: seq<TaskRow>): (r: seq<TaskStatus>)
    ensures |r| == |rows| && forall i :: 0 <= i < |rows| ==> r[i] == rows[i].status
  {
    if rows == [] then [] else [rows[0].status] + Statuses(rows[1..])
  }

  type Hour = h: nat | h < 24

  function Hours(rows: seq<TaskRow>, hourOf: int -> Hour): (r: seq<nat>)
    ensures |r| == |rows| && forall i :: 0 <= i < |rows| ==> r[i] == hourOf(rows[i].createdAt) < 24
  {
    if rows == [] then [] else [hourOf(rows[0].createdAt)] + Hours(rows[1..], hourOf)
  }

  function Sum(counts: seq<nat>): nat {
    if counts == [] then 0 else counts[0] + Sum(counts[1..])
  }

  /** Missing keys read as zero. */
  function Count(counts: map<TaskStatus, nat>, status: TaskStatus): nat {
    if status in counts then counts[status] else 0
  }

  /** Both loops count their values; a multiset says how often each occurs. */
  method CountByStatusSince(rows: seq<TaskRow>, since: int) returns (counts: map<TaskStatus, nat>)
    ensures forall status :: Count(counts, status) == multiset(Statuses(Since(rows, since)))[status]
  {
    hide Statuses;
    hide Since;
    var statuses := Statuses(Since(rows, since));
    counts := map[];
    var i := 0;
    while i < |statuses|
      invariant i <= |statuses|
      invariant forall status :: Count(counts, status) == multiset(statuses[..i])[status]
    {
      assert statuses[..i + 1] == statuses[..i] + [statuses[i]];
      counts := counts[statuses[i] := Count(counts, statuses[i]) + 1];
      i := i + 1;
    }
    assert statuses[..i] == statuses;
  }

  method HourlyCountsSince(rows: seq<TaskRow>, since: int, hourOf: int -> Hour) returns (counts: array<nat>)
    ensures fresh(counts) && counts.Length == 24
    ensures forall h :: 0 <= h < 24 ==> counts[h] == multiset(Hours(Since(rows, since), hourOf))[h]
  {
    hide Hours;
    hide Since;
    var hours := Hours(Since(rows, since), hourOf);
    counts := new nat[24](_ => 0);
    var i := 0;
    while i < |hours|
      invariant i <= |hours|
      invariant forall h :: 0 <= h < 24 ==> counts[h] == multiset(hours[..i])[h]
    {
      assert hours[..i + 1] == hours[..i] + [hours[i]];
      var h := hours[i];
      counts[h] := counts[h] + 1;
      i := i + 1;
    }
    assert hours[..i] == hours;
  }

  function ActiveRows(rows: seq<TaskRow>): (n: nat)
    ensures n <= |rows|
  {
    if rows == [] then 0 else (if Active(rows[0].status) then 1 else 0) + ActiveRows(rows[1..])
  }

  /** The share of `part` in `whole`, and nothing of nothing. */
  predicate IsPercentage(rate: real, part: nat, whole: nat) {
    0.0 <= rate <= 100.0 && if whole > 0 then rate * whole as real == 100.0 * part as real else rate == 0.0
  }

  datatype Overview = Overview(
    today: nat, success: nat, failed: nat, processing: nat, successRate: real, queueCount: nat, hourlyTrend: seq<nat>)

  /** GetOverview over the rows that each of its three counting queries saw. */
  method GetOverview(statusRows: seq<TaskRow>, hourRows: seq<TaskRow>, queueRows: seq<TaskRow>,
                     startOfDay: int, hourOf: int -> Hour) returns (o: Overview)
    ensures o.today == o.success + o.failed + o.processing == |Since(statusRows, startOfDay)|
    ensures |o.hourlyTrend| == 24 && Sum(o.hourlyTrend) == |Since(hourRows, startOfDay)|
    ensures forall h :: 0 <= h < 24 ==> o.hourlyTrend[h] == multiset(Hours(Since(hourRows, startOfDay), hourOf))[h]
    ensures o.success == multiset(Statuses(Since(statusRows, startOfDay)))[Completed]
    ensures o.failed == multiset(Statuses(Since(statusRows, startOfDay)))[Failed]
    ensures o.queueCount == ActiveRows(queueRows)
    ensures o.processing == ActiveRows(Since(statusRows, startOfDay)) <= ActiveRows(statusRows)
    ensures IsPercentage(o.successRate, o.success, o.success + o.failed)
  {
    hide Since;
    hide Statuses;
    hide Hours;
    hide Sum;
    hide ActiveRows;
    hide IsPercentage;
    var counts := CountByStatusSince(statusRows, startOfDay);
    var hourly := HourlyCountsSince(hourRows, startOfDay, hourOf);
    var completed, failed := Count(counts, Completed), Count(counts, Failed);
    var queued, running := Count(counts, Queued), Count(counts, Running);
    var rate := SuccessRate(completed, failed);
    var trend := Trend(hourly);
    FourStatuses(Statuses(Since(statusRows, startOfDay)));
    BucketsSum(Hours(Since(hourRows, startOfDay), hourOf), trend);
    ActiveStatuses(Since(statusRows, startOfDay));
    FewerActiveSince(statusRows, startOfDay);
    o := Overview(completed + failed + queued + running, completed, failed, queued + running, rate,
                  ActiveRows(queueRows), trend);
  }

  method Trend(hourly: array<nat>) returns (trend: seq<nat>)
    requires hourly.Length == 24
    ensures trend == hourly[..]
  {
    trend := [];
    while |trend| < 24
      invariant |trend| <= 24 && trend == hourly[..|trend|]
    {
      trend := trend + [hourly[|trend|]];
    }
  }

  method SuccessRate(completed: nat, failed: nat) returns (rate: real)
    ensures IsPercentage(rate, completed, completed + failed)
  {
    rate := 0.0;
    if completed + failed > 0 {
      rate := completed as real / (completed + failed) as real * 100.0;
      RateInRange(completed as real, (completed + failed) as real);
    }
  }

  lemma RateInRange(part: real, whole: real)
    requires 0.0 <= part <= whole && whole > 0.0
    ensures var rate := part / whole * 100.0;
      0.0 <= rate <= 100.0 && rate * whole == 100.0 * part
  {
    var share := part / whole;
    assert share * whole == part;
    if share > 1.0 {
      Stretches(share, whole);
      assert false;
    }
    if share < 0.0 {
      Stretches(1.0 - share, whole);
      assert false;
    }
  }

  lemma Stretches(factor: real, whole: real)
    requires factor > 1.0 && whole > 0.0
    ensures factor * whole > whole
  {
    assert (factor - 1.0) * whole > 0.0;
  }

  lemma {:induction false} FourStatuses(statuses: seq<TaskStatus>)
    ensures var m := multiset(statuses);
      m[Queued] + m[Running] + m[Completed] + m[Failed] == |statuses|
  {
    if statuses != [] {
      assert statuses == [statuses[0]] + statuses[1..];
      FourStatuses(statuses[1..]);
      var rest := multiset(statuses[1..]);
      assert multiset(statuses) == rest[statuses[0] := rest[statuses[0]] + 1];
      match statuses[0]
      case Queued =>
      case Running =>
      case Completed =>
      case Failed =>
    }
  }

  /** Buckets that count every value below their number add up to the number of values. */
  lemma {:induction false} BucketsSum(values: seq<nat>, counts: seq<nat>)
    requires forall i :: 0 <= i < |values| ==> values[i] < |counts|
    requires forall h :: 0 <= h < |counts| ==> counts[h] == multiset(values)[h]
    ensures Sum(counts) == |values|
  {
    if values == [] {
      AllZero(counts);
    } else {
      var v := values[0];
      assert values == [v] + values[1..];
      var fewer := counts[v := counts[v] - 1];
      BucketsSum(values[1..], fewer);
      OneMore(fewer, v);
      assert counts == fewer[v := fewer[v] + 1];
    }
  }

  lemma {:induction false} AllZero(counts: seq<nat>)
    requires forall h :: 0 <= h < |counts| ==> counts[h] == 0
    ensures Sum(counts) == 0
  {
    if counts != [] {
      AllZero(counts[1..]);
    }
  }

  lemma {:induction false} OneMore(counts: seq<nat>, v: nat)
    requires v < |counts|
    ensures Sum(counts[v := counts[v] + 1]) == Sum(counts) + 1
  {
    var more := counts[v := counts[v] + 1];
    if v == 0 {
      assert more[1..] == counts[1..];
    } else {
      assert more[1..] == counts[1..][v - 1 := counts[1..][v - 1] + 1];
      OneMore(counts[1..], v - 1);
    }
  }

  lemma {:induction false} ActiveStatuses(rows: seq<TaskRow>)
    ensures multiset(Statuses(rows))[Queued] + multiset(Statuses(rows))[Running] == ActiveRows(rows)
  {
    if rows != [] {
      ActiveStatuses(rows[1..]);
      assert Statuses(rows) == [rows[0].status] + Statuses(rows[1..]);
    }
  }

  lemma {:induction false} FewerActiveSince(rows: seq<TaskRow>, since: int)
    ensures ActiveRows(Since(rows, since)) <= ActiveRows(rows)
  {
    if rows != [] {
      FewerActiveSince(rows[1..], since);
      assert rows[0].createdAt >= since ==> Since(rows, since)[1..] == Since(rows[1..], since);
    }
  }

  // ---------------------------------------------------------------- the tables behind the rows

  /** A query result over the whole task table. */
  ghost predicate IsTable(db: Db, ids: seq<nat>, rows: seq<TaskRow>) {
    && Lists(ids, db.tasks.Keys) && |rows| == |ids|
    && forall i :: 0 <= i < |ids| ==> rows[i] == db.tasks[ids[i]]
  }

  function SinceIds(db: Db, since: int): set<nat> {
    set t | t in db.tasks && db.tasks[t].createdAt >= since
  }

  function ActiveIds(db: Db): set<nat> {
    set t | t in db.tasks && Active(db.tasks[t].status)
  }

  function Among(ids: seq<nat>, chosen: set<nat>): set<nat> { set t | t in ids && t in chosen }

  function ProcessingApps(db: Db): set<nat> {
    set a | a in db.apps && db.apps[a].status == AppProcessing
  }

  ghost predicate AreRows(db: Db, ids: seq<nat>, rows: seq<TaskRow>) {
    && (forall i, j :: 0 <= i < j < |ids| ==> ids[i] != ids[j]) && |rows| == |ids|
    && forall i :: 0 <= i < |ids| ==> ids[i] in db.tasks && rows[i] == db.tasks[ids[i]]
  }

  lemma {:induction false} CountsRows(db: Db, ids: seq<nat>, rows: seq<TaskRow>, since: int)
    requires AreRows(db, ids, rows)
    ensures |Since(rows, since)| == |Among(ids, SinceIds(db, since))|
    ensures ActiveRows(rows) == |Among(ids, ActiveIds(db))|
    ensures ActiveRows(Since(rows, since)) == |Among(ids, SinceIds(db, since) * ActiveIds(db))|
  {
    hide SinceIds;
    hide ActiveIds;
    if ids == [] {
      assert Among(ids, SinceIds(db, since)) == {} && Among(ids, ActiveIds(db)) == {};
      assert Among(ids, SinceIds(db, since) * ActiveIds(db)) == {};
    } else {
      assert AreRows(db, ids[1..], rows[1..]);
      CountsRows(db, ids[1..], rows[1..], since);
      OneMoreId(ids, SinceIds(db, since));
      OneMoreId(ids, ActiveIds(db));
      OneMoreId(ids, SinceIds(db, since) * ActiveIds(db));
      InSets(db, ids[0], since);
    }
  }

  lemma InSets(db: Db, t: nat, since: int)
    requires t in db.tasks
    ensures t in SinceIds(db, since) <==> db.tasks[t].createdAt >= since
    ensures t in ActiveIds(db) <==> Active(db.tasks[t].status)
  {
  }

  lemma OneMoreId(ids: seq<nat>, chosen: set<nat>)
    requires ids != [] && ids[0] !in ids[1..]
    ensures |Among(ids, chosen)| == |Among(ids[1..], chosen)| + if ids[0] in chosen then 1 else 0
  {
    assert ids == [ids[0]] + ids[1..];
    assert Among(ids, chosen) == if ids[0] in chosen then Among(ids[1..], chosen) + {ids[0]} else Among(ids[1..], chosen);
  }

  lemma TableCounts(db: Db, ids: seq<nat>, rows: seq<TaskRow>, since: int)
    requires IsTable(db, ids, rows)
    ensures |Since(rows, since)| == |SinceIds(db, since)| && ActiveRows(rows) == |ActiveIds(db)|
    ensures ActiveRows(Since(rows, since)) == |SinceIds(db, since) * ActiveIds(db)|
  {
    hide Since;
    hide ActiveRows;
    hide SinceIds;
    hide ActiveIds;
    CountsRows(db, ids, rows, since);
    AreTasks(db, since);
    AmongAll(ids, SinceIds(db, since));
    AmongAll(ids, ActiveIds(db));
    AmongAll(ids, SinceIds(db, since) * ActiveIds(db));
  }

  lemma AreTasks(db: Db, since: int)
    ensures SinceIds(db, since) <= db.tasks.Keys && ActiveIds(db) <= db.tasks.Keys
  {
  }

  lemma AmongAll(ids: seq<nat>, chosen: set<nat>)
    requires forall t :: t in chosen ==> t in ids
    ensures Among(ids, chosen) == chosen
  {
  }

  /** The hourly trend and the day's total come from two queries.  They agree exactly when no task of the
      day was created between the two, whatever else happened. */
  lemma TrendAgreesIff(s: State, run: seq<Action>, since: int,
                       ids: seq<nat>, rows: seq<TaskRow>, ids': seq<nat>, rows': seq<TaskRow>)
    requires Reachable(s) && ValidRun(s, run)
    requires IsTable(s.db, ids, rows) && IsTable(Exec(s, run).db, ids', rows')
    ensures |Since(rows', since)| == |Since(rows, since)| <==>
      forall t :: t in Exec(s, run).db.tasks && Exec(s, run).db.tasks[t].createdAt >= since ==> t in s.db.tasks
  {
    hide Inv;
    hide ValidRun;
    hide Exec;
    hide Since;
    hide IsTable;
    hide Reachable;
    ReachableInv(s);
    var db, db' := s.db, Exec(s, run).db;
    TableCounts(db, ids, rows, since);
    TableCounts(db', ids', rows', since);
    forall t | t in db.tasks ensures t in db'.tasks && db'.tasks[t].createdAt == db.tasks[t].createdAt {
      RunEvolves(s, run, t);
    }
    SameSizeIff(SinceIds(db, since), SinceIds(db', since));
    if SinceIds(db', since) <= SinceIds(db, since) {
      forall t | t in db'.tasks && db'.tasks[t].createdAt >= since ensures t in db.tasks {
        assert t in SinceIds(db', since);
      }
    }
  }

  /** A query over an empty table, and a later one that counts the only task of the day. */
  ghost predicate Disagrees(before: seq<Action>, later: seq<Action>, since: int) {
    && ValidRun(INIT, before) && ValidRun(INIT, later) && before <= later
    && IsTable(Exec(INIT, before).db, [], []) && |Since([], since)| == 0
    && 0 in Exec(INIT, later).db.tasks
    && var row := Exec(INIT, later).db.tasks[0];
       IsTable(Exec(INIT, later).db, [0], [row]) && |Since([row], since)| == 1
  }

  /** Such a history: an app exists, the first query runs, a task of the day is created, and the second
      query counts it. */
  lemma TrendCanDisagree(since: int) returns (before: seq<Action>, later: seq<Action>)
    ensures Disagrees(before, later, since)
  {
    hide ValidRun;
    hide Exec;
    hide SourceKey;
    before, later := QueueFirstTask(since);
    assert Since([FirstTask(since)], since) == [FirstTask(since)] + Since([], since);
  }

  /** The tasks of the day that the processing count of a table contains. */
  function Processing(db: Db, since: int): set<nat> { SinceIds(db, since) * ActiveIds(db) }

  /** Those of them that have finished by a later state. */
  function Finished(db: Db, db': Db, since: int): set<nat> {
    set t | t in Processing(db, since) && t in db'.tasks
            && (db'.tasks[t].status == Completed || db'.tasks[t].status == Failed)
  }

  /** In every run the processing count of one query stays within the queue count of a later one if and only
      if no more of the counted tasks finish between the two than other tasks are active at the second. */
  lemma ProcessingWithinQueueIff(s: State, run: seq<Action>, since: int,
                                 ids: seq<nat>, rows: seq<TaskRow>, ids': seq<nat>, rows': seq<TaskRow>)
    requires Reachable(s) && ValidRun(s, run)
    requires IsTable(s.db, ids, rows) && IsTable(Exec(s, run).db, ids', rows')
    ensures var db' := Exec(s, run).db;
      ActiveRows(Since(rows, since)) <= ActiveRows(rows')
      <==> |Finished(s.db, db', since)| <= |ActiveIds(db') - Processing(s.db, since)|
  {
    hide Since;
    hide ActiveRows;
    hide IsTable;
    hide Reachable;
    hide Inv;
    hide ValidRun;
    hide Exec;
    hide SinceIds;
    ReachableInv(s);
    var db' := Exec(s, run).db;
    TableCounts(s.db, ids, rows, since);
    TableCounts(db', ids', rows', since);
    forall t | t in Processing(s.db, since) ensures t in db'.tasks {
      RunEvolves(s, run, t);
    }
    assert Finished(s.db, db', since) == Processing(s.db, since) - ActiveIds(db');
    FewerThanIff(Processing(s.db, since), ActiveIds(db'));
  }

  /** A query that counts one processing task, and a later one that counts none in the queue. */
  ghost predicate Outruns(counted: seq<Action>, later: seq<Action>, since: int) {
    && ValidRun(INIT, counted) && ValidRun(INIT, later) && counted <= later
    && 0 in Exec(INIT, counted).db.tasks && 0 in Exec(INIT, later).db.tasks
    && var row, row' := Exec(INIT, counted).db.tasks[0], Exec(INIT, later).db.tasks[0];
       && IsTable(Exec(INIT, counted).db, [0], [row]) && ActiveRows(Since([row], since)) == 1
       && IsTable(Exec(INIT, later).db, [0], [row']) && ActiveRows([row']) == 0
  }

  /** Such a history: the day's only task is queued at the first query and has failed at the second. */
  lemma ProcessingCanOutrunQueue(since: int) returns (counted: seq<Action>, later: seq<Action>)
    ensures Outruns(counted, later, since)
  {
    hide ValidRun;
    hide Exec;
    var before;
    before, counted := QueueFirstTask(since);
    later := FailFirstTask(counted, true);
    var row, row' := FirstTask(since), Exec(INIT, later).db.tasks[0];
    assert Since([row], since) == [row] + Since([], since);
    assert ActiveRows([row]) == 1 + ActiveRows([]) && ActiveRows([row']) == ActiveRows([]);
    assert [row][1..] == [] && [row'][1..] == [];
  }

  lemma FewerThanIff(a: set<nat>, b: set<nat>)
    ensures |a| <= |b| <==> |a - b| <= |b - a|
  {
    assert a == (a - b) + (a * b);
    assert b == (b - a) + (a * b);
  }

  lemma SameSizeIff(small: set<nat>, large: set<nat>)
    requires small <= large
    ensures |small| == |large| <==> large <= small
  {
    assert large == small + (large - small);
    assert |large| == |small| + |large - small|;
    if |small| == |large| {
      assert large - small == {};
    }
    assert large <= small ==> large == small;
  }

  lemma {:induction false} SameSize(ids: set<nat>, apps: set<nat>, tasks: map<nat, TaskRow>)
    requires forall t :: t in ids ==> t in tasks && tasks[t].appId in apps
    requires forall t, u :: t in ids && u in ids && tasks[t].appId == tasks[u].appId ==> t == u
    requires forall a :: a in apps ==> exists t :: t in ids && tasks[t].appId == a
    ensures |ids| == |apps|
    decreases ids
  {
    if ids == {} {
      assert apps == {};
    } else {
      var t :| t in ids;
      var a := tasks[t].appId;
      forall b | b in apps - {a} ensures exists u :: u in ids - {t} && tasks[u].appId == b {
        var u :| u in ids && tasks[u].appId == b;
        assert u in ids - {t};
      }
      SameSize(ids - {t}, apps - {a}, tasks);
    }
  }

  /** In every reachable state the queue count is the number of apps shown as processing. */
  lemma QueueCountsProcessingApps(s: State, ids: seq<nat>, rows: seq<TaskRow>)
    requires Reachable(s) && IsTable(s.db, ids, rows)
    ensures ActiveRows(rows) == |ProcessingApps(s.db)|
  {
    hide Reachable;
    hide Inv;
    hide IsTable;
    hide ActiveRows;
    TableCounts(s.db, ids, rows, 0);
    forall t | t in ActiveIds(s.db)
      ensures s.db.tasks[t].appId in s.db.apps && s.db.apps[s.db.tasks[t].appId].status == AppProcessing
    {
      ActiveTaskProcesses(s, t);
    }
    forall t, u | t in ActiveIds(s.db) && u in ActiveIds(s.db) && s.db.tasks[t].appId == s.db.tasks[u].appId
      ensures t == u
    {
      OneActiveTaskPerApp(s, t, u);
    }
    forall a | a in ProcessingApps(s.db) ensures exists t :: t in ActiveIds(s.db) && s.db.tasks[t].appId == a {
      var t := ProcessingAppHasTask(s, a);
      assert t in ActiveIds(s.db);
    }
    SameSize(ActiveIds(s.db), ProcessingApps(s.db), s.db.tasks);
  }

  lemma ActiveTaskProcesses(s: State, t: nat)
    requires Reachable(s) && t in s.db.tasks && Active(s.db.tasks[t].status)
    ensures s.db.tasks[t].appId in s.db.apps && s.db.apps[s.db.tasks[t].appId].status == AppProcessing
  {
    hide Reachable;
    hide RowsOk;
    hide TxsOk;
    hide PcOk;
    hide ObjectsOk;
    hide RiskOk;
    ReachableInv(s);
    assert TaskCoherent(s.db, s.newest, t);
    assert AppCoherent(s.db, s.newest, s.db.tasks[t].appId);
  }

  lemma ProcessingAppHasTask(s: State, a: nat) returns (t: nat)
    requires Reachable(s) && a in s.db.apps && s.db.apps[a].status == AppProcessing
    ensures t in s.db.tasks && s.db.tasks[t].appId == a && Active(s.db.tasks[t].status)
  {
    hide Reachable;
    hide RowsOk;
    hide TxsOk;
    hide PcOk;
    hide ObjectsOk;
    hide RiskOk;
    ReachableInv(s);
    assert AppCoherent(s.db, s.newest, a);
    t := s.newest[a];
  }
}
