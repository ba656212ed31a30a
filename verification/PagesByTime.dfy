/** The app, user and strategy lists order their rows by creation time alone.  Rows created at the same
    moment may then come back in any order, and in another one for every page that is asked for. */
module PagesByTime {
  import opened Pages

  /** A row of such a list, as far as its order goes. */
  datatype Stamped = Stamped(id: nat, createdAt: int)

  predicate DistinctIds(rows: seq<Stamped>) {
    forall i, j :: 0 <= i < j < |rows| ==> rows[i].id != rows[j].id
  }

  predicate DistinctTimes(rows: seq<Stamped>) {
    forall i, j :: 0 <= i < j < |rows| ==> rows[i].createdAt != rows[j].createdAt
  }

  predicate Descending(list: seq<Stamped>) {
    forall i, j :: 0 <= i < j < |list| ==> list[i].createdAt >= list[j].createdAt
  }

  /** What ORDER BY created_at DESC may return. */
  ghost predicate IsOrderingByTime(rows: seq<Stamped>, list: seq<Stamped>) {
    multiset(list) == multiset(rows) && Descending(list)
  }

  // ---------------------------------------------------------------- one ordering of them

  function Insert(x: Stamped, list: seq<Stamped>): seq<Stamped> {
    if list == [] || x.createdAt >= list[0].createdAt then [x] + list else [list[0]] + Insert(x, list[1..])
  }

  function Sorted(rows: seq<Stamped>): seq<Stamped> {
    if rows == [] then [] else Insert(rows[0], Sorted(rows[1..]))
  }

  lemma {:induction false} InsertOrders(x: Stamped, list: seq<Stamped>)
    requires Descending(list)
    ensures Descending(Insert(x, list))
    ensures Insert(x, list) != [] && (Insert(x, list)[0] == x || (list != [] && Insert(x, list)[0] == list[0]))
  {
    if list == [] || x.createdAt >= list[0].createdAt {
      HeadFirst(x, list);
    } else {
      InsertOrders(x, list[1..]);
      HeadFirst(list[0], Insert(x, list[1..]));
    }
  }

  lemma {:induction false} InsertKeepsRows(x: Stamped, list: seq<Stamped>)
    ensures multiset(Insert(x, list)) == multiset(list) + multiset{x}
  {
    if list == [] || x.createdAt >= list[0].createdAt {
      assert multiset([x] + list) == multiset{x} + multiset(list);
    } else {
      InsertKeepsRows(x, list[1..]);
      assert list == [list[0]] + list[1..];
    }
  }

  lemma HeadFirst(head: Stamped, tail: seq<Stamped>)
    requires Descending(tail) && (tail != [] ==> head.createdAt >= tail[0].createdAt)
    ensures Descending([head] + tail)
  {
    forall i | 0 <= i < |tail| ensures head.createdAt >= tail[i].createdAt {
      assert i > 0 ==> tail[0].createdAt >= tail[i].createdAt;
    }
  }

  lemma {:induction false} SortedOrders(rows: seq<Stamped>)
    ensures IsOrderingByTime(rows, Sorted(rows))
  {
    if rows != [] {
      SortedOrders(rows[1..]);
      InsertOrders(rows[0], Sorted(rows[1..]));
      InsertKeepsRows(rows[0], Sorted(rows[1..]));
      assert rows == [rows[0]] + rows[1..];
    }
  }

  // ---------------------------------------------------------------- ties

  lemma {:induction false} IdsOnce(rows: seq<Stamped>, x: Stamped)
    requires DistinctIds(rows)
    ensures multiset(rows)[x] <= 1
  {
    if rows != [] {
      assert rows == [rows[0]] + rows[1..];
      IdsOnce(rows[1..], x);
      if x == rows[0] && x in rows[1..] {
        assert false;
      }
    }
  }

  lemma TwoPlaces(list: seq<Stamped>, i: nat, j: nat)
    requires i < j < |list| && list[i] == list[j]
    ensures multiset(list)[list[i]] >= 2
  {
    assert list == list[..j] + list[j..];
    assert list[..j][i] == list[i] && list[j..][0] == list[j];
    assert list[i] in list[..j] && list[j] in list[j..];
  }

  /** Rearranging rows keeps their ids distinct. */
  lemma DistinctStays(rows: seq<Stamped>, list: seq<Stamped>)
    requires DistinctIds(rows) && multiset(list) == multiset(rows)
    ensures DistinctIds(list) && |list| == |rows|
  {
    assert |multiset(list)| == |list| && |multiset(rows)| == |rows|;
    forall i, j | 0 <= i < j < |list| ensures list[i].id != list[j].id {
      assert list[i] in multiset(list) && list[j] in multiset(list);
      var k :| 0 <= k < |rows| && rows[k] == list[i];
      var l :| 0 <= l < |rows| && rows[l] == list[j];
      if list[i].id == list[j].id {
        assert k == l;
        TwoPlaces(list, i, j);
        IdsOnce(rows, list[i]);
        assert false;
      }
    }
  }

  function Swapped(list: seq<Stamped>, i: nat): seq<Stamped>
    requires 0 < i < |list|
  {
    list[i - 1 := list[i]][i := list[i - 1]]
  }

  /** Two neighbours with the same time may as well come the other way round. */
  lemma SwapOrders(rows: seq<Stamped>, list: seq<Stamped>, i: nat)
    requires IsOrderingByTime(rows, list) && 0 < i < |list| && list[i - 1].createdAt == list[i].createdAt
    ensures IsOrderingByTime(rows, Swapped(list, i))
  {
    var swapped := Swapped(list, i);
    assert list == list[..i - 1] + [list[i - 1]] + [list[i]] + list[i + 1..];
    assert swapped == list[..i - 1] + [list[i]] + [list[i - 1]] + list[i + 1..];
  }

  lemma TiedNeighbours(rows: seq<Stamped>, i: nat, j: nat) returns (n: nat)
    requires i < j < |rows| && rows[i].createdAt == rows[j].createdAt && DistinctIds(rows)
    ensures 0 < n < |Sorted(rows)| && Sorted(rows)[n - 1].createdAt == Sorted(rows)[n].createdAt
  {
    hide Sorted;
    var list := Sorted(rows);
    SortedOrders(rows);
    assert rows[i] in multiset(rows) && rows[j] in multiset(rows);
    assert rows[i] in multiset(list) && rows[j] in multiset(list);
    var k :| 0 <= k < |list| && list[k] == rows[i];
    var l :| 0 <= l < |list| && list[l] == rows[j];
    assert k != l;
    n := if k < l then k + 1 else l + 1;
  }

  /** Every query returns the same order if and only if no two rows were created at the same moment. */
  lemma OrderByTimeIsUniqueIff(rows: seq<Stamped>)
    requires DistinctIds(rows)
    ensures (forall a, b :: IsOrderingByTime(rows, a) && IsOrderingByTime(rows, b) ==> a == b) <==> DistinctTimes(rows)
  {
    hide Sorted;
    if DistinctTimes(rows) {
      forall a, b | IsOrderingByTime(rows, a) && IsOrderingByTime(rows, b) ensures a == b {
        StrictlyDescending(rows, a);
        StrictlyDescending(rows, b);
        StrictOrderIsUnique(a, b);
      }
    } else {
      var i, j :| 0 <= i < j < |rows| && rows[i].createdAt == rows[j].createdAt;
      var n := TiedNeighbours(rows, i, j);
      var list := Sorted(rows);
      SortedOrders(rows);
      SwapOrders(rows, list, n);
      DistinctStays(rows, list);
      assert Swapped(list, n)[n] != list[n];
    }
  }

  predicate Strict(list: seq<Stamped>) {
    forall i, j :: 0 <= i < j < |list| ==> list[i].createdAt > list[j].createdAt
  }

  lemma StrictlyDescending(rows: seq<Stamped>, list: seq<Stamped>)
    requires DistinctIds(rows) && DistinctTimes(rows) && IsOrderingByTime(rows, list)
    ensures Strict(list)
  {
    DistinctStays(rows, list);
    forall i, j | 0 <= i < j < |list| ensures list[i].createdAt != list[j].createdAt {
      assert list[i] in multiset(list) && list[j] in multiset(list);
      var k :| 0 <= k < |rows| && rows[k] == list[i];
      var l :| 0 <= l < |rows| && rows[l] == list[j];
      assert k != l;
    }
  }

  lemma {:induction false} StrictOrderIsUnique(a: seq<Stamped>, b: seq<Stamped>)
    requires Strict(a) && Strict(b) && multiset(a) == multiset(b)
    ensures a == b
    decreases |a|
  {
    if a == [] || b == [] {
      assert |multiset(a)| == |a| && |multiset(b)| == |b|;
    } else {
      HeadsAgree(a, b);
      assert a == [a[0]] + a[1..] && b == [b[0]] + b[1..];
      assert multiset(a[1..]) == multiset(a) - multiset{a[0]};
      assert multiset(b[1..]) == multiset(b) - multiset{b[0]};
      StrictOrderIsUnique(a[1..], b[1..]);
    }
  }

  lemma HeadsAgree(a: seq<Stamped>, b: seq<Stamped>)
    requires Strict(a) && Strict(b) && multiset(a) == multiset(b) && a != [] && b != []
    ensures a[0] == b[0]
  {
    assert a[0] in multiset(a) && b[0] in multiset(b);
    HeadIsLatest(a, b[0]);
    HeadIsLatest(b, a[0]);
  }

  lemma HeadIsLatest(list: seq<Stamped>, x: Stamped)
    requires Strict(list) && x in list
    ensures x == list[0] || list[0].createdAt > x.createdAt
  {
  }

  // ---------------------------------------------------------------- pages

  /** Pages that were each asked for by a query of its own. */
  ghost predicate ArePages(rows: seq<Stamped>, size: nat, pages: seq<seq<Stamped>>) {
    && |pages| * size >= |rows|
    && forall p :: 0 <= p < |pages| ==> IsPage(rows, size, p, pages[p])
  }

  /** Page p ends, and a row with the same creation time comes after it. */
  predicate TieAtPage(list: seq<Stamped>, size: nat, p: nat) {
    0 < p * size < |list| && list[p * size - 1].createdAt == list[p * size].createdAt
  }

  /** No page ends between two rows with the same creation time; how ties are sorted does not matter. */
  ghost predicate NoTieAcrossPages(rows: seq<Stamped>, size: nat) {
    forall p: nat :: !TieAtPage(Sorted(rows), size, p)
  }

  /** The rows created at time t or later. */
  function From(list: seq<Stamped>, t: int): seq<Stamped> {
    if list == [] then []
    else if list[0].createdAt >= t then [list[0]] + From(list[1..], t)
    else From(list[1..], t)
  }

  lemma {:induction false} FromCounts(list: seq<Stamped>, t: int, x: Stamped)
    ensures multiset(From(list, t))[x] == if x.createdAt >= t then multiset(list)[x] else 0
  {
    if list != [] {
      assert list == [list[0]] + list[1..];
      FromCounts(list[1..], t, x);
    }
  }

  lemma {:induction false} FromIsPrefix(list: seq<Stamped>, t: int)
    requires Descending(list)
    ensures From(list, t) <= list
    ensures forall k :: 0 < k < |list| && list[k - 1].createdAt >= t > list[k].createdAt ==> |From(list, t)| == k
  {
    if list != [] {
      FromIsPrefix(list[1..], t);
      if list[0].createdAt >= t {
        forall k | 0 < k < |list| && list[k - 1].createdAt >= t > list[k].createdAt ensures |From(list, t)| == k {
          if k == 1 {
            NothingFrom(list[1..], t);
          } else {
            assert list[1..][k - 2].createdAt >= t > list[1..][k - 1].createdAt;
          }
        }
      } else {
        NothingFrom(list, t);
      }
    }
  }

  lemma {:induction false} NothingFrom(list: seq<Stamped>, t: int)
    requires forall i :: 0 <= i < |list| ==> list[i].createdAt < t
    ensures From(list, t) == []
  {
    if list != [] {
      NothingFrom(list[1..], t);
    }
  }

  /** At a place where the time changes all orderings have had the same rows. */
  lemma SameRowsBefore(rows: seq<Stamped>, a: seq<Stamped>, b: seq<Stamped>, k: nat)
    requires IsOrderingByTime(rows, a) && IsOrderingByTime(rows, b)
    requires 0 < k < |a| && a[k - 1].createdAt != a[k].createdAt
    ensures k < |b| && multiset(a[..k]) == multiset(b[..k])
  {
    var t := a[k - 1].createdAt;
    assert a[k - 1].createdAt >= t > a[k].createdAt;
    FromIsPrefix(a, t);
    FromIsPrefix(b, t);
    FromAgrees(a, b, t);
    SameLength(a, b);
    assert From(a, t) == a[..k] && From(b, t) == b[..k];
  }

  lemma FromAgrees(a: seq<Stamped>, b: seq<Stamped>, t: int)
    requires multiset(a) == multiset(b)
    ensures multiset(From(a, t)) == multiset(From(b, t)) && |From(a, t)| == |From(b, t)|
  {
    hide From;
    forall x ensures multiset(From(a, t))[x] == multiset(From(b, t))[x] {
      FromCounts(a, t, x);
      FromCounts(b, t, x);
    }
    SameLength(From(a, t), From(b, t));
  }

  function Least(m: nat, n: nat): nat { if m < n then m else n }

  ghost predicate IsPage(rows: seq<Stamped>, size: nat, p: nat, page: seq<Stamped>) {
    exists list :: IsOrderingByTime(rows, list) && page == Window(list, p * size, size)
  }

  /** Where no page ends in a tie, the first n pages hold the first rows. */
  lemma {:induction false} PagesHold(rows: seq<Stamped>, size: nat, pages: seq<seq<Stamped>>, n: nat)
    requires n <= |pages| && NoTieAcrossPages(rows, size)
    requires forall p :: 0 <= p < |pages| ==> IsPage(rows, size, p, pages[p])
    ensures |Sorted(rows)| == |rows|
    ensures multiset(Flatten(pages[..n])) == multiset(Sorted(rows)[..Least(n * size, |rows|)])
    decreases n
  {
    hide Sorted;
    hide NoTieAcrossPages;
    hide IsOrderingByTime;
    hide Window;
    assert |Sorted(rows)| == |rows| by { SortedLength(rows); }
    if n > 0 {
      PagesHold(rows, size, pages, n - 1);
      assert IsPage(rows, size, n - 1, pages[n - 1]);
      var list :| IsOrderingByTime(rows, list) && pages[n - 1] == Window(list, (n - 1) * size, size);
      PrefixesAgree(rows, list, size, n - 1);
      PrefixesAgree(rows, list, size, n);
      WindowIsDifference(list, size, n);
      assert pages[..n][..n - 1] == pages[..n - 1];
      assert Flatten(pages[..n]) == Flatten(pages[..n - 1]) + pages[n - 1];
    } else {
      assert pages[..0] == [] && Sorted(rows)[..0] == [];
    }
  }

  lemma WindowIsDifference(list: seq<Stamped>, size: nat, n: nat)
    requires n > 0
    ensures list[..Least(n * size, |list|)] == list[..Least((n - 1) * size, |list|)] + Window(list, (n - 1) * size, size)
  {
    assert n * size == (n - 1) * size + size;
  }

  lemma SortedLength(rows: seq<Stamped>)
    ensures |Sorted(rows)| == |rows|
  {
    SortedOrders(rows);
    SameLength(rows, Sorted(rows));
  }

  lemma SameLength(rows: seq<Stamped>, list: seq<Stamped>)
    requires multiset(list) == multiset(rows)
    ensures |list| == |rows|
  {
    assert |multiset(list)| == |list| && |multiset(rows)| == |rows|;
  }

  lemma PrefixesAgree(rows: seq<Stamped>, list: seq<Stamped>, size: nat, n: nat)
    requires NoTieAcrossPages(rows, size) && IsOrderingByTime(rows, list)
    ensures |list| == |Sorted(rows)| == |rows|
    ensures multiset(list[..Least(n * size, |rows|)]) == multiset(Sorted(rows)[..Least(n * size, |rows|)])
  {
    hide Sorted;
    SortedOrders(rows);
    SameLength(rows, list);
    SameLength(rows, Sorted(rows));
    var k := n * size;
    if k >= |rows| {
      assert list[..|rows|] == list && Sorted(rows)[..|rows|] == Sorted(rows);
    } else if k > 0 {
      assert !TieAtPage(Sorted(rows), size, n);
      SameRowsBefore(rows, Sorted(rows), list, k);
    } else {
      assert list[..0] == Sorted(rows)[..0];
    }
  }

  function PagesOf(list: seq<Stamped>, size: nat, n: nat): (pages: seq<seq<Stamped>>)
    ensures |pages| == n && forall i :: 0 <= i < n ==> pages[i] == Window(list, i * size, size)
  {
    seq(n, i requires 0 <= i < n => Window(list, i * size, size))
  }

  /** The list with the row at k - 1 once more in the place of the row at k. */
  function Repeated(list: seq<Stamped>, k: nat): seq<Stamped>
    requires 0 < k < |list|
  {
    list[k := list[k - 1]]
  }

  lemma RepeatedIsAnswered(rows: seq<Stamped>, list: seq<Stamped>, size: nat, p: nat)
    requires IsOrderingByTime(rows, list) && TieAtPage(list, size, p)
    ensures ArePages(rows, size, PagesOf(Repeated(list, p * size), size, |rows|))
  {
    hide IsOrderingByTime;
    hide Swapped;
    hide Repeated;
    hide Window;
    hide PagesOf;
    var k, pages := p * size, PagesOf(Repeated(list, p * size), size, |rows|);
    SwapOrders(rows, list, k);
    EnoughPages(|rows|, size);
    forall i: nat | i < |pages| ensures IsPage(rows, size, i, pages[i]) {
      RepeatedWindow(list, size, p, i);
      assert pages[i] == Window(if i == p then Swapped(list, k) else list, i * size, size);
    }
  }

  /** A tie at the end of a page: pages that show one row twice and another never. */
  lemma TieRepeatsRow(rows: seq<Stamped>, size: nat, p: nat) returns (pages: seq<seq<Stamped>>)
    requires DistinctIds(rows) && TieAtPage(Sorted(rows), size, p)
    ensures ArePages(rows, size, pages)
    ensures var k := p * size; multiset(Flatten(pages))[Sorted(rows)[k - 1]] >= 2 && Sorted(rows)[k] !in Flatten(pages)
  {
    hide Sorted;
    hide Flatten;
    hide ArePages;
    hide PagesOf;
    var list, k := Sorted(rows), p * size;
    SortedOrders(rows);
    DistinctStays(rows, list);
    RepeatedIsAnswered(rows, list, size, p);
    pages := PagesOf(Repeated(list, k), size, |rows|);
    EnoughPages(|rows|, size);
    WindowsCover(Repeated(list, k), size, pages);
    assert Flatten(pages) == Repeated(list, k);
    RepeatedTwice(list, k);
  }

  lemma RepeatedTwice(list: seq<Stamped>, k: nat)
    requires 0 < k < |list| && DistinctIds(list)
    ensures multiset(Repeated(list, k))[list[k - 1]] >= 2 && list[k] !in Repeated(list, k)
  {
    TwoPlaces(Repeated(list, k), k - 1, k);
  }

  lemma EnoughPages(n: nat, size: nat)
    requires size >= 1
    ensures n * size >= n
  {
  }

  lemma RepeatedWindow(list: seq<Stamped>, size: nat, p: nat, i: nat)
    requires 0 < p * size < |list|
    ensures var k := p * size;
      Window(Repeated(list, k), i * size, size) == Window(if i == p then Swapped(list, k) else list, i * size, size)
  {
    if i < p {
      Monotone(i + 1, p, size);
      assert (i + 1) * size == i * size + size;
    } else if i > p {
      Monotone(p + 1, i, size);
      assert (p + 1) * size == p * size + size;
    }
  }

  lemma Monotone(m: nat, n: nat, size: nat)
    requires m <= n
    ensures m * size <= n * size
  {
  }

  /** The pages, each from a query of its own, always hold every row exactly once if and only if no page
      ends between two rows with the same creation time. */
  lemma PagesByTimePartitionIff(rows: seq<Stamped>, size: nat)
    requires DistinctIds(rows) && size >= 1
    ensures (forall pages :: ArePages(rows, size, pages) ==> multiset(Flatten(pages)) == multiset(rows))
      <==> NoTieAcrossPages(rows, size)
  {
    hide Sorted;
    hide Flatten;
    hide TieAtPage;
    if NoTieAcrossPages(rows, size) {
      forall pages | ArePages(rows, size, pages) ensures multiset(Flatten(pages)) == multiset(rows) {
        PagesHold(rows, size, pages, |pages|);
        SortedOrders(rows);
        assert pages[..|pages|] == pages && Sorted(rows)[..|rows|] == Sorted(rows);
      }
    } else {
      var p: nat :| TieAtPage(Sorted(rows), size, p);
      var pages := TieRepeatsRow(rows, size, p);
      IdsOnce(rows, TiedRow(rows, size, p));
    }
  }

  function TiedRow(rows: seq<Stamped>, size: nat, p: nat): Stamped
    requires TieAtPage(Sorted(rows), size, p)
  {
    Sorted(rows)[p * size - 1]
  }
}
