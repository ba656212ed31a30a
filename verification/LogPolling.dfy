/** Following the log of a task: HardeningRepository.Logs as a client polls it with the id it saw last. */
module LogPolling {
  import opened Wrappers

  /** A log row with the key of the step it is joined to, if it has one. */
  datatype LogRow = LogRow(taskId: nat, stepKey: Option<string>, message: string)

  /** Ids start at 1; an append takes the next one. */
  datatype LogTable = LogTable(rows: map<nat, LogRow>, nextId: nat)

  datatype Query = Query(taskId: nat, stepKey: string)

  predicate Matches(row: LogRow, q: Query) {
    row.taskId == q.taskId && (q.stepKey == "" || row.stepKey == Some(q.stepKey))
  }

  ghost predicate TableOk(t: LogTable) {
    forall i :: i in t.rows ==> 0 < i < t.nextId
  }

  function EffectiveLimit(limit: int): nat {
    if limit < 0 || limit > 500 then 200 else limit
  }

  /** ORDER BY id ASC over the matching rows with ids in from..bound. */
  function Scan(rows: map<nat, LogRow>, q: Query, from: nat, bound: nat): seq<nat>
    decreases bound - from
  {
    if from >= bound then []
    else if from in rows && Matches(rows[from], q) then [from] + Scan(rows, q, from + 1, bound)
    else Scan(rows, q, from + 1, bound)
  }

  /** The matching rows in that range, each once, in ascending order. */
  lemma {:induction false} ScanLists(rows: map<nat, LogRow>, q: Query, from: nat, bound: nat)
    ensures var ids := Scan(rows, q, from, bound);
      && (forall i :: i in ids <==> from <= i < bound && i in rows && Matches(rows[i], q))
      && (forall k, l :: 0 <= k < l < |ids| ==> ids[k] < ids[l])
    decreases bound - from
  {
    if from < bound {
      ScanLists(rows, q, from + 1, bound);
      var tail := Scan(rows, q, from + 1, bound);
      assert forall k :: 0 <= k < |tail| ==> tail[k] in tail;
    }
  }

  function Take(ids: seq<nat>, n: nat): seq<nat> { if n < |ids| then ids[..n] else ids }

  /** One call: the ids of the rows it returns. An afterId of 0 is no bound. */
  function Logs(t: LogTable, q: Query, afterId: nat, limit: int): seq<nat> {
    Take(Scan(t.rows, q, if afterId != 0 then afterId + 1 else 0, t.nextId), EffectiveLimit(limit))
  }

  /** One answer: rows of the task, and of the step if one is named, beyond the given id, each once and
      ascending; as many as asked for, or 200 for a limit out of range; and what is not there comes after. */
  lemma LogsAnswer(t: LogTable, q: Query, afterId: nat, limit: int)
    requires TableOk(t)
    ensures var ids, most := Logs(t, q, afterId, limit), if 0 <= limit <= 500 then limit else 200;
      && |ids| <= most
      && (forall k, l :: 0 <= k < l < |ids| ==> ids[k] < ids[l])
      && (forall i :: i in ids ==>
            && i in t.rows && i > afterId
            && t.rows[i].taskId == q.taskId && (q.stepKey == "" || t.rows[i].stepKey == Some(q.stepKey)))
      && (forall i :: i in t.rows && i > afterId && i !in ids
                      && t.rows[i].taskId == q.taskId && (q.stepKey == "" || t.rows[i].stepKey == Some(q.stepKey)) ==>
            |ids| == most && forall j :: j in ids ==> j < i)
  {
    hide Scan;
    hide EffectiveLimit;
    var from := if afterId != 0 then afterId + 1 else 0;
    var all, most := Scan(t.rows, q, from, t.nextId), EffectiveLimit(limit);
    LimitIs(limit);
    ScanLists(t.rows, q, from, t.nextId);
    var ids := Take(all, most);
    assert forall i :: i in ids ==> i in all;
    forall i | i in all && i !in ids ensures |ids| == most && forall j :: j in ids ==> j < i {
      CutOff(all, most, i);
    }
  }

  lemma CutOff(all: seq<nat>, n: nat, i: nat)
    requires i in all && i !in Take(all, n) && forall k, l :: 0 <= k < l < |all| ==> all[k] < all[l]
    ensures |Take(all, n)| == n && forall j :: j in Take(all, n) ==> j < i
  {
    var k :| 0 <= k < |all| && all[k] == i;
    if n < |all| {
      assert forall m :: 0 <= m < n ==> all[..n][m] == all[m] && all[m] != i;
    }
  }

  lemma LimitIs(limit: int)
    ensures EffectiveLimit(limit) == if 0 <= limit <= 500 then limit else 200
  {
  }

  // ---------------------------------------------------------------- a client that polls

  /** What a client has received so far, and the last id it saw. */
  datatype Client = Client(got: seq<nat>, after: nat)

  /** One poll: the table as it is then, and the limit asked for. */
  datatype Poll = Poll(table: LogTable, limit: int)

  function AfterPoll(c: Client, p: Poll, q: Query): Client {
    var batch := Logs(p.table, q, c.after, p.limit);
    Client(c.got + batch, if batch == [] then c.after else batch[|batch| - 1])
  }

  function Received(polls: seq<Poll>, q: Query): Client
    decreases |polls|
  {
    if polls == [] then Client([], 0) else AfterPoll(Received(polls[..|polls| - 1], q), polls[|polls| - 1], q)
  }

  /** Rows stay and rows come, under any ids: two writers may commit in the other order than they drew
      their ids, and then the lower id shows up later. */
  ghost predicate Gains(t: LogTable, t': LogTable) {
    t.nextId <= t'.nextId && forall i :: i in t.rows ==> i in t'.rows && t'.rows[i] == t.rows[i]
  }

  ghost predicate Following(polls: seq<Poll>) {
    && (forall k :: 0 <= k < |polls| ==> TableOk(polls[k].table))
    && (forall k :: 0 < k < |polls| ==> Gains(polls[k - 1].table, polls[k].table))
  }

  predicate IsNew(polls: seq<Poll>, k: nat, i: nat)
    requires k < |polls|
  {
    i in polls[k].table.rows && (k > 0 ==> i !in polls[k - 1].table.rows)
  }

  /** Poll k is the first to face row i, a match that its cursor has already passed. */
  predicate IsLate(polls: seq<Poll>, q: Query, k: nat, i: nat) {
    && k < |polls| && IsNew(polls, k, i) && Matches(polls[k].table.rows[i], q)
    && i <= Received(polls[..k], q).after
  }

  ghost predicate NothingLate(polls: seq<Poll>, q: Query) {
    forall k: nat, i: nat :: !IsLate(polls, q, k, i)
  }

  /** Received is exactly the matching part of the table up to the last id seen. */
  ghost predicate Complete(t: LogTable, q: Query, c: Client) {
    c.after < t.nextId && c.got == Scan(t.rows, q, 0, c.after + 1)
  }

  lemma {:induction false} ScanSplits(rows: map<nat, LogRow>, q: Query, from: nat, mid: nat, bound: nat)
    requires from <= mid <= bound
    ensures Scan(rows, q, from, mid) + Scan(rows, q, mid, bound) == Scan(rows, q, from, bound)
    decreases mid - from
  {
    if from < mid {
      ScanSplits(rows, q, from + 1, mid, bound);
    }
  }

  lemma {:induction false} ScanAgrees(rows: map<nat, LogRow>, rows': map<nat, LogRow>, q: Query, from: nat, bound: nat)
    requires forall i :: from <= i < bound ==> (i in rows && Matches(rows[i], q) <==> i in rows' && Matches(rows'[i], q))
    ensures Scan(rows, q, from, bound) == Scan(rows', q, from, bound)
    decreases bound - from
  {
    if from < bound {
      ScanAgrees(rows, rows', q, from + 1, bound);
    }
  }

  /** The first n matches are the matches up to the n-th. */
  lemma {:induction false} TakenIsScan(rows: map<nat, LogRow>, q: Query, from: nat, bound: nat, n: nat)
    requires 0 < n <= |Scan(rows, q, from, bound)|
    ensures from <= Scan(rows, q, from, bound)[n - 1] < bound
    ensures var ids := Scan(rows, q, from, bound);
      ids[..n] == Scan(rows, q, from, ids[n - 1] + 1)
    decreases bound - from
  {
    var ids, tail := Scan(rows, q, from, bound), Scan(rows, q, from + 1, bound);
    if from in rows && Matches(rows[from], q) {
      assert ids == [from] + tail;
      if n > 1 {
        TakenIsScan(rows, q, from + 1, bound, n - 1);
        assert ids[..n] == [from] + tail[..n - 1];
      }
    } else {
      TakenIsScan(rows, q, from + 1, bound, n);
    }
  }

  lemma NoRowZero(t: LogTable, q: Query)
    requires TableOk(t)
    ensures Scan(t.rows, q, 0, 1) == [] && Scan(t.rows, q, 0, t.nextId) == Scan(t.rows, q, 1, t.nextId)
  {
  }

  /** One poll leads from a complete prefix to a complete prefix that is longer by what it returned. */
  lemma PollContinues(c: Client, p: Poll, q: Query)
    requires TableOk(p.table) && Complete(p.table, q, c)
    ensures Complete(p.table, q, AfterPoll(c, p, q))
    ensures Logs(p.table, q, c.after, p.limit)
         == Take(Scan(p.table.rows, q, c.after + 1, p.table.nextId), EffectiveLimit(p.limit))
    ensures c.got + Scan(p.table.rows, q, c.after + 1, p.table.nextId) == Scan(p.table.rows, q, 0, p.table.nextId)
  {
    hide TableOk;
    hide Scan;
    hide EffectiveLimit;
    var t, batch := p.table, Logs(p.table, q, c.after, p.limit);
    NoRowZero(t, q);
    ScanSplits(t.rows, q, 0, c.after + 1, t.nextId);
    if batch == [] {
      assert c.got + batch == c.got;
    } else {
      TakenIsScan(t.rows, q, c.after + 1, t.nextId, |batch|);
      ScanSplits(t.rows, q, 0, c.after + 1, batch[|batch| - 1] + 1);
    }
  }

  lemma GainKeepsComplete(t: LogTable, t': LogTable, q: Query, c: Client)
    requires Gains(t, t') && Complete(t, q, c)
    requires forall i :: i in t'.rows && i !in t.rows && Matches(t'.rows[i], q) ==> i > c.after
    ensures Complete(t', q, c)
  {
    hide Scan;
    hide Matches;
    ScanAgrees(t.rows, t'.rows, q, 0, c.after + 1);
  }

  lemma {:induction false} CompleteWhileNothingLate(polls: seq<Poll>, q: Query)
    requires Following(polls) && polls != [] && polls[0].table.nextId > 0 && NothingLate(polls, q)
    ensures Complete(polls[|polls| - 1].table, q, Received(polls, q))
    decreases |polls|
  {
    hide TableOk;
    hide Gains;
    hide Complete;
    hide AfterPoll;
    hide Matches;
    var n := |polls| - 1;
    if n > 0 {
      forall k: nat, i: nat ensures !IsLate(polls[..n], q, k, i) {
        assert k < n ==> polls[..n][..k] == polls[..k];
        assert !IsLate(polls, q, k, i);
      }
      CompleteWhileNothingLate(polls[..n], q);
      forall i | i in polls[n].table.rows && i !in polls[n - 1].table.rows && Matches(polls[n].table.rows[i], q)
        ensures i > Received(polls[..n], q).after
      {
        assert !IsLate(polls, q, n, i);
      }
      GainKeepsComplete(polls[n - 1].table, polls[n].table, q, Received(polls[..n], q));
    } else {
      assert polls[..n] == [];
      StartsComplete(polls[0].table, q);
    }
    PollContinues(Received(polls[..n], q), polls[n], q);
  }

  /** After any number of polls with whatever limits, while rows come under any ids: the client has received
      exactly the matching logs up to the last id it saw, each once and in id order, if and only if no
      matching row ever appeared at or below the cursor of the poll that could first have returned it. */
  lemma PollingLosesNothing(polls: seq<Poll>, q: Query)
    requires Following(polls) && polls != [] && polls[0].table.nextId > 0
    ensures Complete(polls[|polls| - 1].table, q, Received(polls, q)) <==> NothingLate(polls, q)
  {
    hide Received;
    hide TableOk;
    hide Gains;
    hide IsLate;
    hide Scan;
    if NothingLate(polls, q) {
      CompleteWhileNothingLate(polls, q);
    } else {
      var k: nat, i: nat :| IsLate(polls, q, k, i);
      LateRowIsNeverSeen(polls, q, k, i);
    }
  }

  /** Ids that never come below the sequence value of the poll before, as from a single writer, are never
      late. */
  lemma IdsInOrderSuffice(polls: seq<Poll>, q: Query)
    requires Following(polls)
    requires forall k, i :: 0 < k < |polls| && i in polls[k].table.rows && i !in polls[k - 1].table.rows ==>
      polls[k - 1].table.nextId <= i
    ensures NothingLate(polls, q)
  {
    hide Matches;
    hide Logs;
    forall k: nat, i: nat ensures !IsLate(polls, q, k, i) {
      if k == 0 {
        assert polls[..0] == [];
      } else if k < |polls| {
        ReceivedIsKnown(polls[..k], q);
      }
    }
  }

  lemma StartsComplete(t: LogTable, q: Query)
    requires TableOk(t) && t.nextId > 0
    ensures Complete(t, q, Client([], 0))
  {
    NoRowZero(t, q);
  }

  /** A poll with a non-zero limit comes back empty exactly when everything has been delivered. */
  lemma EmptyMeansDone(c: Client, t: LogTable, q: Query, limit: int)
    requires TableOk(t) && Complete(t, q, c) && limit != 0
    ensures Logs(t, q, c.after, limit) == [] <==> c.got == Scan(t.rows, q, 0, t.nextId)
  {
    hide Scan;
    hide TableOk;
    hide Complete;
    hide Logs;
    PollContinues(c, Poll(t, limit), q);
    var rest := Scan(t.rows, q, c.after + 1, t.nextId);
    assert |c.got + rest| == |c.got| + |rest|;
    assert rest == [] ==> c.got + rest == c.got;
  }

  /** On a log that no longer grows every poll with a non-zero limit delivers more, until all is delivered. */
  lemma {:induction false} PollingFinishes(polls: seq<Poll>, q: Query, t: LogTable)
    requires TableOk(t) && t.nextId > 0
    requires forall k :: 0 <= k < |polls| ==> polls[k].table == t && polls[k].limit != 0
    ensures Complete(t, q, Received(polls, q))
    ensures |Received(polls, q).got| >= |polls| || Received(polls, q).got == Scan(t.rows, q, 0, t.nextId)
    decreases |polls|
  {
    hide TableOk;
    hide Scan;
    hide Complete;
    hide Logs;
    if polls == [] {
      StartsComplete(t, q);
    } else {
      var n := |polls| - 1;
      var had := Received(polls[..n], q);
      PollingFinishes(polls[..n], q, t);
      PollContinues(had, polls[n], q);
      EmptyMeansDone(had, t, q, polls[n].limit);
    }
  }

  /** Limits below zero or above 500 act as 200; a limit of zero delivers nothing, ever. */
  lemma LimitsOutOfRange(t: LogTable, q: Query, afterId: nat, limit: int)
    ensures limit < 0 || limit > 500 ==> Logs(t, q, afterId, limit) == Logs(t, q, afterId, 200)
    ensures |Logs(t, q, afterId, limit)| <= 500
    ensures Logs(t, q, afterId, limit) == [] <== limit == 0
  {
    hide Scan;
  }

  /** A client that gives no limit, or one out of range, has the first 200 rows of a fixed log after each of
      its polls, until it has them all. */
  lemma {:induction false} DefaultPollsDeliver(polls: seq<Poll>, q: Query, t: LogTable)
    requires TableOk(t) && t.nextId > 0
    requires forall k :: 0 <= k < |polls| ==> polls[k].table == t && (polls[k].limit < 0 || polls[k].limit > 500)
    ensures Received(polls, q).got == Take(Scan(t.rows, q, 0, t.nextId), 200 * |polls|)
    decreases |polls|
  {
    hide TableOk;
    hide Scan;
    hide Logs;
    var all := Scan(t.rows, q, 0, t.nextId);
    if polls != [] {
      var n := |polls| - 1;
      var had := Received(polls[..n], q);
      DefaultPollsDeliver(polls[..n], q, t);
      PollingFinishes(polls[..n], q, t);
      PollContinues(had, polls[n], q);
      LimitsOutOfRange(t, q, had.after, polls[n].limit);
      PollContinues(had, Poll(t, 200), q);
      TakesOn(all, had.got, Scan(t.rows, q, had.after + 1, t.nextId), 200 * n);
    }
  }

  lemma TakesOn(all: seq<nat>, got: seq<nat>, rest: seq<nat>, n: nat)
    requires all == got + rest && got == Take(all, n)
    ensures got + Take(rest, 200) == Take(all, n + 200)
  {
  }

  // ---------------------------------------------------------------- rows that come late

  /** What a client has received it has read from the table, and its cursor stands on one of those rows. */
  lemma {:induction false} ReceivedIsKnown(polls: seq<Poll>, q: Query)
    requires Following(polls) && polls != []
    ensures var c, rows := Received(polls, q), polls[|polls| - 1].table.rows;
      && (forall i :: i in c.got ==> i in rows) && (c.after == 0 || c.after in rows)
    decreases |polls|
  {
    hide Logs;
    var n := |polls| - 1;
    var c, t := Received(polls[..n], q), polls[n].table;
    var batch := Logs(t, q, c.after, polls[n].limit);
    BatchIsFresh(t, q, c.after, polls[n].limit);
    assert batch != [] ==> batch[|batch| - 1] in batch;
    if n > 0 {
      ReceivedIsKnown(polls[..n], q);
      assert Gains(polls[n - 1].table, t);
    } else {
      assert polls[..n] == [];
    }
  }

  /** A call returns rows of the table, beyond the cursor. */
  lemma BatchIsFresh(t: LogTable, q: Query, afterId: nat, limit: int)
    ensures forall i :: i in Logs(t, q, afterId, limit) ==> i in t.rows && (afterId != 0 ==> i > afterId)
  {
    hide Scan;
    var from := if afterId != 0 then afterId + 1 else 0;
    ScanLists(t.rows, q, from, t.nextId);
    var ids := Scan(t.rows, q, from, t.nextId);
    assert forall i :: i in Take(ids, EffectiveLimit(limit)) ==> i in ids;
  }

  /** An id the cursor has passed is returned by no later poll. */
  lemma {:induction false} PassedForever(polls: seq<Poll>, q: Query, n: nat, i: nat)
    requires n <= |polls| && 0 < i <= Received(polls[..n], q).after && i !in Received(polls[..n], q).got
    ensures i !in Received(polls, q).got && i <= Received(polls, q).after
    decreases |polls|
  {
    hide Logs;
    if n == |polls| {
      assert polls[..n] == polls;
    } else {
      var m := |polls| - 1;
      assert polls[..m][..n] == polls[..n];
      PassedForever(polls[..m], q, n, i);
      var c := Received(polls[..m], q);
      var batch := Logs(polls[m].table, q, c.after, polls[m].limit);
      BatchIsFresh(polls[m].table, q, c.after, polls[m].limit);
      assert batch != [] ==> batch[|batch| - 1] in batch;
    }
  }

  lemma {:induction false} RowsStay(polls: seq<Poll>, k: nat, i: nat)
    requires Following(polls) && k < |polls| && i in polls[k].table.rows
    ensures i in polls[|polls| - 1].table.rows && polls[|polls| - 1].table.rows[i] == polls[k].table.rows[i]
    decreases |polls|
  {
    var n := |polls| - 1;
    if k < n {
      RowsStay(polls[..n], k, i);
      assert Gains(polls[n - 1].table, polls[n].table);
    }
  }

  /** A matching row that comes late is in the table for good and reaches the client never, however often
      and with whatever limits it polls. */
  lemma LateRowIsNeverSeen(polls: seq<Poll>, q: Query, k: nat, late: nat)
    requires Following(polls) && IsLate(polls, q, k, late)
    ensures var t, c := polls[|polls| - 1].table, Received(polls, q);
      && late in t.rows && Matches(t.rows[late], q) && late <= c.after
      && late in Scan(t.rows, q, 0, c.after + 1) && late !in c.got
      && !Complete(t, q, c)
  {
    hide Received;
    hide Matches;
    hide Scan;
    assert 0 < late by { assert TableOk(polls[k].table); }
    if k == 0 {
      assert polls[..0] == [];
      NothingReceived(q);
      assert false;
    }
    ReceivedIsKnown(polls[..k], q);
    PassedForever(polls, q, k, late);
    RowsStay(polls, k, late);
    ScanLists(polls[|polls| - 1].table.rows, q, 0, Received(polls, q).after + 1);
  }

  lemma NothingReceived(q: Query)
    ensures Received([], q) == Client([], 0)
  {
  }

  /** Two polls are enough: the row with id 2 is committed first and read, then the row with id 1. */
  lemma TwoPollsLoseARow() returns (polls: seq<Poll>, q: Query)
    ensures |polls| == 2 && Following(polls) && polls[0].table.nextId > 0 && IsLate(polls, q, 1, 1)
    ensures Received(polls, q) == Client([2], 2) && Scan(polls[1].table.rows, q, 0, polls[1].table.nextId) == [1, 2]
  {
    q := Query(7, "");
    var out, err := LogRow(7, Some("run_engine"), "out"), LogRow(7, Some("run_engine"), "err");
    var first, second := LogTable(map[2 := err], 3), LogTable(map[1 := out, 2 := err], 3);
    polls := [Poll(first, -1), Poll(second, -1)];
    assert Scan(first.rows, q, 2, 3) == [2] && Scan(first.rows, q, 1, 3) == [2] && Scan(first.rows, q, 0, 3) == [2];
    assert Scan(second.rows, q, 3, 3) == [] && Scan(second.rows, q, 2, 3) == [2];
    assert Scan(second.rows, q, 1, 3) == [1, 2] && Scan(second.rows, q, 0, 3) == [1, 2];
    assert polls[..1] == [polls[0]] && polls[..1][..0] == [];
    assert Received(polls[..0], q) == Client([], 0);
    assert Received(polls[..1], q) == AfterPoll(Client([], 0), polls[0], q) == Client([2], 2);
    assert Received(polls, q) == AfterPoll(Client([2], 2), polls[1], q) == Client([2], 2);
  }
}
