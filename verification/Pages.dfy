/** The task list: HardeningRepository.List filters the tasks joined to their apps, orders them by creation
    time and id, newest first, and cuts out one page. */
module Pages {
  import opened Wrappers
  import opened Tables

  /** One row of the app table, and one of the task table with its id. */
  datatype AppEntry = AppEntry(id: nat, name: string, packageName: string)
  datatype TaskEntry = TaskEntry(id: nat, row: TaskRow)

  /** A task beside the app it was joined to, if there is one. */
  datatype Joined = Joined(task: TaskEntry, app: Option<AppEntry>)

  /** Absent conditions are None, 0 and "". */
  datatype Filter = Filter(status: Option<TaskStatus>, appId: nat, search: string)

  // ---------------------------------------------------------------- the joined and filtered rows

  function AppsOf(apps: seq<AppEntry>, id: nat): seq<AppEntry> {
    if apps == [] then []
    else if apps[0].id == id then [apps[0]] + AppsOf(apps[1..], id)
    else AppsOf(apps[1..], id)
  }

  function Beside(task: TaskEntry, apps: seq<AppEntry>): seq<Joined> {
    if apps == [] then [] else [Joined(task, Some(apps[0]))] + Beside(task, apps[1..])
  }

  /** LEFT JOIN apps ON apps.id = tasks.app_id: one row per matching app, and one without if none matches. */
  function LeftJoin(tasks: seq<TaskEntry>, apps: seq<AppEntry>): seq<Joined> {
    if tasks == [] then []
    else
      var found := AppsOf(apps, tasks[0].row.appId);
      (if found == [] then [Joined(tasks[0], None)] else Beside(tasks[0], found)) + LeftJoin(tasks[1..], apps)
  }

  /** The search pattern in task number, app name or package name; a missing app matches nothing.
      `like` stands for ILIKE. */
  predicate Passes(j: Joined, f: Filter, like: (string, string) -> bool) {
    && (f.status.Some? ==> j.task.row.status == f.status.value)
    && (f.appId != 0 ==> j.task.row.appId == f.appId)
    && (f.search != "" ==>
          like(j.task.row.taskNo, f.search)
          || (j.app.Some? && (like(j.app.value.name, f.search) || like(j.app.value.packageName, f.search))))
  }

  function Filtered(rows: seq<Joined>, f: Filter, like: (string, string) -> bool): seq<TaskEntry> {
    if rows == [] then []
    else (if Passes(rows[0], f, like) then [rows[0].task] else []) + Filtered(rows[1..], f, like)
  }

  predicate DistinctApps(apps: seq<AppEntry>) {
    forall i, j :: 0 <= i < j < |apps| ==> apps[i].id != apps[j].id
  }

  predicate DistinctTasks(tasks: seq<TaskEntry>) {
    forall i, j :: 0 <= i < j < |tasks| ==> tasks[i].id != tasks[j].id
  }

  lemma {:induction false} AtMostOneApp(apps: seq<AppEntry>, id: nat)
    requires DistinctApps(apps)
    ensures |AppsOf(apps, id)| <= 1
    ensures AppsOf(apps, id) == [] <==> forall i :: 0 <= i < |apps| ==> apps[i].id != id
  {
    if apps != [] {
      AtMostOneApp(apps[1..], id);
      assert forall i :: 0 <= i < |apps| - 1 ==> apps[1..][i] == apps[i + 1];
    }
  }

  function Tasks(rows: seq<Joined>): (r: seq<TaskEntry>)
    ensures |r| == |rows| && forall i :: 0 <= i < |rows| ==> r[i] == rows[i].task
  {
    if rows == [] then [] else [rows[0].task] + Tasks(rows[1..])
  }

  lemma OneJoinedRow(task: TaskEntry, apps: seq<AppEntry>)
    requires DistinctApps(apps)
    ensures var found := AppsOf(apps, task.row.appId);
      |if found == [] then [Joined(task, None)] else Beside(task, found)| == 1
    ensures var found := AppsOf(apps, task.row.appId);
      (if found == [] then [Joined(task, None)] else Beside(task, found))[0].task == task
  {
    AtMostOneApp(apps, task.row.appId);
  }

  /** The app id is a primary key, so the join neither drops nor multiplies a task. */
  lemma {:induction false} JoinAddsNoRows(tasks: seq<TaskEntry>, apps: seq<AppEntry>)
    requires DistinctApps(apps)
    ensures Tasks(LeftJoin(tasks, apps)) == tasks
  {
    if tasks != [] {
      hide AppsOf;
      OneJoinedRow(tasks[0], apps);
      JoinAddsNoRows(tasks[1..], apps);
    }
  }

  /** Filtering keeps every task at most once, and exactly those that pass. */
  lemma {:induction false} FilteredSelects(rows: seq<Joined>, f: Filter, like: (string, string) -> bool)
    requires DistinctTasks(Tasks(rows))
    ensures DistinctTasks(Filtered(rows, f, like))
    ensures forall task :: task in Filtered(rows, f, like) <==>
      exists i :: 0 <= i < |rows| && rows[i].task == task && Passes(rows[i], f, like)
  {
    hide Passes;
    if rows != [] {
      var rest := Filtered(rows[1..], f, like);
      assert Tasks(rows)[1..] == Tasks(rows[1..]);
      FilteredSelects(rows[1..], f, like);
      forall task | task in rest ensures task.id != rows[0].task.id {
        var i :| 0 <= i < |rows[1..]| && rows[1..][i].task == task && Passes(rows[1..][i], f, like);
        assert Tasks(rows)[i + 1] == task && Tasks(rows)[0] == rows[0].task;
      }
      forall task ensures task in Filtered(rows, f, like) <==>
        exists i :: 0 <= i < |rows| && rows[i].task == task && Passes(rows[i], f, like)
      {
        if i :| 0 <= i < |rows| && rows[i].task == task && Passes(rows[i], f, like) {
          assert i > 0 ==> rows[1..][i - 1] == rows[i];
        }
        if task in rest {
          var i :| 0 <= i < |rows[1..]| && rows[1..][i].task == task && Passes(rows[1..][i], f, like);
          assert rows[i + 1].task == task;
        }
      }
    }
  }

  /** The list selects the tasks with the status and the app asked for, and with the search text in their
      number or in the name or package of their app. */
  lemma ListSelects(tasks: seq<TaskEntry>, apps: seq<AppEntry>, f: Filter, like: (string, string) -> bool, task: TaskEntry)
    requires DistinctTasks(tasks) && DistinctApps(apps)
    ensures task in Filtered(LeftJoin(tasks, apps), f, like) <==>
      && task in tasks
      && (f.status == None || f.status == Some(task.row.status))
      && (f.appId == 0 || f.appId == task.row.appId)
      && (f.search == "" || like(task.row.taskNo, f.search)
          || exists a :: a in apps && a.id == task.row.appId && (like(a.name, f.search) || like(a.packageName, f.search)))
  {
    hide Filtered;
    hide LeftJoin;
    hide AppsOf;
    var rows := LeftJoin(tasks, apps);
    JoinAddsNoRows(tasks, apps);
    FilteredSelects(rows, f, like);
    if task in tasks {
      var k :| 0 <= k < |tasks| && tasks[k] == task;
      JoinedApp(tasks, apps, k);
      assert rows[k].task == task;
      forall i | 0 <= i < |rows| && rows[i].task == task ensures i == k {
        assert tasks[i].id == tasks[k].id;
      }
    }
    forall i | 0 <= i < |rows| && rows[i].task == task ensures task in tasks {
      assert tasks[i] == task;
    }
  }

  /** The app beside a task is the app with its app id, if there is one. */
  lemma {:induction false} JoinedApp(tasks: seq<TaskEntry>, apps: seq<AppEntry>, k: nat)
    requires DistinctApps(apps) && k < |tasks|
    ensures |LeftJoin(tasks, apps)| == |tasks| && LeftJoin(tasks, apps)[k].task == tasks[k]
    ensures LeftJoin(tasks, apps)[k].app.Some? ==>
      LeftJoin(tasks, apps)[k].app.value in apps && LeftJoin(tasks, apps)[k].app.value.id == tasks[k].row.appId
    ensures forall a :: a in apps && a.id == tasks[k].row.appId ==> LeftJoin(tasks, apps)[k].app == Some(a)
  {
    hide AppsOf;
    hide Beside;
    JoinAddsNoRows(tasks, apps);
    OneJoinedRow(tasks[0], apps);
    FirstJoined(tasks[0], apps);
    if k > 0 {
      JoinedApp(tasks[1..], apps, k - 1);
    }
  }

  lemma FirstJoined(task: TaskEntry, apps: seq<AppEntry>)
    requires DistinctApps(apps)
    ensures var found := AppsOf(apps, task.row.appId);
      var rows := if found == [] then [Joined(task, None)] else Beside(task, found);
      && |rows| == 1
      && (rows[0].app.Some? ==> rows[0].app.value in apps && rows[0].app.value.id == task.row.appId)
      && forall a :: a in apps && a.id == task.row.appId ==> rows[0].app == Some(a)
  {
    AtMostOneApp(apps, task.row.appId);
    AppsOfLists(apps, task.row.appId);
  }

  lemma {:induction false} AppsOfLists(apps: seq<AppEntry>, id: nat)
    ensures forall a :: a in AppsOf(apps, id) <==> a in apps && a.id == id
  {
    if apps != [] {
      AppsOfLists(apps[1..], id);
      assert apps == [apps[0]] + apps[1..];
    }
  }

  // ---------------------------------------------------------------- order

  /** created_at DESC, id DESC. */
  predicate Newer(a: TaskEntry, b: TaskEntry) {
    a.row.createdAt > b.row.createdAt || (a.row.createdAt == b.row.createdAt && a.id > b.id)
  }

  ghost predicate Ordered(list: seq<TaskEntry>) {
    forall i, j :: 0 <= i < j < |list| ==> Newer(list[i], list[j])
  }

  /** What ORDER BY may return: a rearrangement in which no row comes before a newer one. */
  ghost predicate IsOrdering(rows: seq<TaskEntry>, list: seq<TaskEntry>) {
    && multiset(list) == multiset(rows)
    && forall i, j :: 0 <= i < j < |list| ==> !Newer(list[j], list[i])
  }

  lemma {:induction false} CountOfTwo(list: seq<TaskEntry>, i: nat, j: nat)
    requires i < j < |list| && list[i] == list[j]
    ensures multiset(list)[list[i]] >= 2
  {
    assert list == list[..j] + list[j..];
    assert list[i] in list[..j] && list[j] in list[j..];
    assert list[..j][i] == list[i] && list[j..][0] == list[j];
  }

  lemma {:induction false} DistinctCountOnce(list: seq<TaskEntry>, x: TaskEntry)
    requires DistinctTasks(list)
    ensures multiset(list)[x] <= 1
  {
    if list != [] {
      assert list == [list[0]] + list[1..];
      DistinctCountOnce(list[1..], x);
      if x == list[0] && x in list[1..] {
        assert false;
      }
    }
  }

  /** Ids break every tie, so the order is strict ... */
  lemma OrderIsStrict(rows: seq<TaskEntry>, list: seq<TaskEntry>)
    requires DistinctTasks(rows) && IsOrdering(rows, list)
    ensures Ordered(list)
  {
    forall i, j | 0 <= i < j < |list| ensures Newer(list[i], list[j]) {
      assert list[i] in multiset(list) && list[j] in multiset(list);
      assert list[i] in rows && list[j] in rows;
      if list[i].id == list[j].id {
        var k :| 0 <= k < |rows| && rows[k] == list[i];
        var l :| 0 <= l < |rows| && rows[l] == list[j];
        assert k == l;
        CountOfTwo(list, i, j);
        DistinctCountOnce(rows, list[i]);
        assert false;
      }
    }
  }

  /** ... and there is only one way to return the rows: queries for different pages cut the same list. */
  lemma {:induction false} OrderIsUnique(a: seq<TaskEntry>, b: seq<TaskEntry>)
    requires Ordered(a) && Ordered(b) && multiset(a) == multiset(b)
    ensures a == b
    decreases |a|
  {
    if a == [] || b == [] {
      assert |multiset(a)| == |a| && |multiset(b)| == |b|;
    } else {
      assert a[0] in multiset(a) && b[0] in multiset(b);
      assert a[0] in b && b[0] in a;
      assert a[0] == b[0];
      assert a == [a[0]] + a[1..] && b == [b[0]] + b[1..];
      assert multiset(a[1..]) == multiset(a) - multiset{a[0]};
      assert multiset(b[1..]) == multiset(b) - multiset{b[0]};
      OrderIsUnique(a[1..], b[1..]);
    }
  }

  // ---------------------------------------------------------------- pages

  function PageNumber(page: int): (p: nat)
    ensures p >= 1
  {
    if page < 1 then 1 else page
  }

  function PageSize(pageSize: int): (n: nat)
    ensures n >= 1
  {
    if pageSize < 1 then 10 else pageSize
  }

  function Offset(page: int, pageSize: int): nat { (PageNumber(page) - 1) * PageSize(pageSize) }

  /** OFFSET skip LIMIT n. */
  function Window<T>(list: seq<T>, skip: nat, n: nat): seq<T> {
    if skip >= |list| then [] else if skip + n >= |list| then list[skip..] else list[skip..skip + n]
  }

  /** An answer of List: the total, and the page cut from some ordering of the filtered rows. */
  ghost predicate IsAnswer(tasks: seq<TaskEntry>, apps: seq<AppEntry>, f: Filter, like: (string, string) -> bool,
                           page: int, pageSize: int, rows: seq<TaskEntry>, total: nat)
  {
    var selected := Filtered(LeftJoin(tasks, apps), f, like);
    && total == |selected|
    && exists list :: IsOrdering(selected, list)
                      && rows == Window(list, Offset(page, pageSize), PageSize(pageSize))
  }

  function Flatten<T>(pages: seq<seq<T>>): seq<T> {
    if pages == [] then [] else Flatten(pages[..|pages| - 1]) + pages[|pages| - 1]
  }

  lemma {:induction false} WindowsCover<T>(list: seq<T>, size: nat, pages: seq<seq<T>>)
    requires size >= 1
    requires forall p :: 0 <= p < |pages| ==> pages[p] == Window(list, p * size, size)
    ensures Flatten(pages) == if |pages| * size >= |list| then list else list[..|pages| * size]
  {
    if pages != [] {
      var n := |pages| - 1;
      WindowsCover(list, size, pages[..n]);
      assert |pages| * size == n * size + size;
      assert pages[n] == Window(list, n * size, size);
      if n * size < |list| {
        assert n * size + size < |list| ==> list[..n * size] + list[n * size..n * size + size] == list[..n * size + size];
        assert list[..n * size] + list[n * size..] == list;
      }
    }
  }

  /** Pages 1 to n, with n pages enough for the total, put together give every filtered task exactly once,
      newest first, although every page is its own query. */
  lemma PagesPartitionTheList(tasks: seq<TaskEntry>, apps: seq<AppEntry>, f: Filter, like: (string, string) -> bool,
                              pageSize: int, pages: seq<seq<TaskEntry>>, total: nat)
    requires DistinctTasks(tasks) && DistinctApps(apps)
    requires forall p :: 0 <= p < |pages| ==> IsAnswer(tasks, apps, f, like, p + 1, pageSize, pages[p], total)
    requires |pages| * PageSize(pageSize) >= total && pages != []
    ensures IsOrdering(Filtered(LeftJoin(tasks, apps), f, like), Flatten(pages))
    ensures Ordered(Flatten(pages)) && |Flatten(pages)| == total
    ensures var list := Flatten(pages);
      forall i, j :: 0 <= i < j < |list| ==>
        list[i].row.createdAt > list[j].row.createdAt
        || (list[i].row.createdAt == list[j].row.createdAt && list[i].id > list[j].id)
  {
    hide LeftJoin;
    hide Filtered;
    hide IsOrdering;
    hide Ordered;
    hide Flatten;
    hide Window;
    hide Offset;
    hide PageSize;
    hide DistinctTasks;
    var selected, size := Filtered(LeftJoin(tasks, apps), f, like), PageSize(pageSize);
    JoinAddsNoRows(tasks, apps);
    FilteredSelects(LeftJoin(tasks, apps), f, like);
    assert IsAnswer(tasks, apps, f, like, 0 + 1, pageSize, pages[0], total);
    var list :| IsOrdering(selected, list) && pages[0] == Window(list, Offset(1, pageSize), size);
    forall p | 0 <= p < |pages| ensures pages[p] == Window(list, p * size, size) {
      assert IsAnswer(tasks, apps, f, like, p + 1, pageSize, pages[p], total);
      var other :| IsOrdering(selected, other) && pages[p] == Window(other, Offset(p + 1, pageSize), size);
      SameOrdering(selected, list, other);
      OffsetOf(p, pageSize);
    }
    WindowsCover(list, size, pages);
    OrderIsStrict(selected, list);
    OrderingLength(selected, list);
    OrderedMeans(list);
  }

  lemma OrderedMeans(list: seq<TaskEntry>)
    requires Ordered(list)
    ensures forall i, j :: 0 <= i < j < |list| ==>
      list[i].row.createdAt > list[j].row.createdAt
      || (list[i].row.createdAt == list[j].row.createdAt && list[i].id > list[j].id)
  {
    forall i, j | 0 <= i < j < |list|
      ensures list[i].row.createdAt > list[j].row.createdAt
              || (list[i].row.createdAt == list[j].row.createdAt && list[i].id > list[j].id)
    {
      assert Newer(list[i], list[j]);
    }
  }

  lemma OffsetOf(p: nat, pageSize: int)
    ensures Offset(p + 1, pageSize) == p * PageSize(pageSize)
  {
  }

  lemma OffsetIs(page: int, pageSize: int)
    ensures PageSize(pageSize) == if pageSize < 1 then 10 else pageSize
    ensures var p, n := if page < 1 then 1 else page, if pageSize < 1 then 10 else pageSize;
      Offset(page, pageSize) == (p - 1) * n
  {
  }

  lemma OrderingLength(rows: seq<TaskEntry>, list: seq<TaskEntry>)
    requires IsOrdering(rows, list)
    ensures |list| == |rows|
  {
    assert |multiset(list)| == |list| && |multiset(rows)| == |rows|;
  }

  lemma SameOrdering(rows: seq<TaskEntry>, a: seq<TaskEntry>, b: seq<TaskEntry>)
    requires DistinctTasks(rows) && IsOrdering(rows, a) && IsOrdering(rows, b)
    ensures a == b
  {
    OrderIsStrict(rows, a);
    OrderIsStrict(rows, b);
    OrderIsUnique(a, b);
  }

  /** A page past the last one is empty, and page numbers and sizes below 1 mean the first page and ten rows. */
  lemma BeyondTheLastPage(tasks: seq<TaskEntry>, apps: seq<AppEntry>, f: Filter, like: (string, string) -> bool,
                          page: int, pageSize: int, rows: seq<TaskEntry>, total: nat)
    requires IsAnswer(tasks, apps, f, like, page, pageSize, rows, total)
    ensures rows == [] <==> Offset(page, pageSize) >= total
    ensures |rows| <= PageSize(pageSize)
    ensures var p, n := if page < 1 then 1 else page, if pageSize < 1 then 10 else pageSize;
      |rows| == if (p - 1) * n >= total then 0 else if (p - 1) * n + n <= total then n else total - (p - 1) * n
  {
    OffsetIs(page, pageSize);
    hide LeftJoin;
    hide Filtered;
    hide Offset;
    hide PageSize;
    hide IsOrdering;
    var selected := Filtered(LeftJoin(tasks, apps), f, like);
    var list :| IsOrdering(selected, list)
                && rows == Window(list, Offset(page, pageSize), PageSize(pageSize));
    OrderingLength(selected, list);
  }
}
