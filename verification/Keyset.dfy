/** Keyset pagination: the rows of one page, and what a client sees that follows `next`. */
module Keyset {
  import opened Options

  /** Identifiers are numbered in their sort order. */
  datatype Row<T> = Row(id: int, createdAt: int, data: T)

  datatype Position = Position(createdAt: int, id: int)

  function PositionOf<T>(r: Row<T>): Position { Position(r.createdAt, r.id) }

  /** `(created_at, id) < (p.createdAt, p.id)` */
  predicate Below<T>(r: Row<T>, p: Position) {
    r.createdAt < p.createdAt || (r.createdAt == p.createdAt && r.id < p.id)
  }

  /** `a` is listed before `b`. */
  predicate Newer<T>(a: Row<T>, b: Row<T>) { Below(b, PositionOf(a)) }

  ghost predicate DistinctIds<T(!new)>(rows: set<Row<T>>) {
    forall a, b :: a in rows && b in rows && a.id == b.id ==> a == b
  }

  predicate Descending<T>(rows: seq<Row<T>>) {
    forall i, j :: 0 <= i < j < |rows| ==> Newer(rows[i], rows[j])
  }

  // ---------------------------------------------------------------- ORDER BY created_at DESC, id DESC

  ghost predicate IsNewest<T(!new)>(rows: set<Row<T>>, r: Row<T>) {
    r in rows && forall q :: q in rows && q != r ==> Newer(r, q)
  }

  lemma {:induction false} SomeNewest<T(!new)>(rows: set<Row<T>>)
    requires rows != {} && DistinctIds(rows)
    ensures exists r :: IsNewest(rows, r)
  {
    var x :| x in rows;
    var others := rows - {x};
    if others == {} {
      assert rows == {x};
      assert IsNewest(rows, x);
    } else {
      SomeNewest(others);
      var y :| IsNewest(others, y);
      var r := if Newer(x, y) then x else y;
      forall q | q in rows && q != r ensures Newer(r, q) {
        assert q == x || q == y || q in others;
      }
      assert IsNewest(rows, r);
    }
  }

  ghost function Sort<T(!new)>(rows: set<Row<T>>): (sorted: seq<Row<T>>)
    requires DistinctIds(rows)
    ensures |sorted| == |rows|
    ensures forall r :: r in sorted <==> r in rows
    ensures Descending(sorted)
  {
    if rows == {} then []
    else
      SomeNewest(rows);
      var r :| IsNewest(rows, r);
      [r] + Sort(rows - {r})
  }

  /** The order is total, so a listing is determined by its rows. */
  lemma {:induction false} OneOrder<T(!new)>(a: seq<Row<T>>, b: seq<Row<T>>)
    requires Descending(a) && Descending(b) && forall r :: r in a <==> r in b
    ensures a == b
  {
    if a == [] {
      assert forall k :: 0 <= k < |b| ==> b[k] in b;
    } else {
      assert a[0] in a && a[0] in b;
      assert b[0] in b && b[0] in a;
      assert a[0] == b[0];
      forall r ensures r in a[1..] <==> r in b[1..] {
        if r in a[1..] { assert r in a && r != a[0]; }
        if r in b[1..] { assert r in b && r != b[0]; }
      }
      OneOrder(a[1..], b[1..]);
    }
  }

  // ---------------------------------------------------------------- one page

  ghost predicate Selected<T(!new)>(keep: Row<T> -> bool, after: Option<Position>, r: Row<T>) {
    keep(r) && (after.Some? ==> Below(r, after.value))
  }

  ghost function Matching<T(!new)>(rows: set<Row<T>>, keep: Row<T> -> bool,
                                   after: Option<Position>): (some: set<Row<T>>)
    ensures some <= rows
  {
    set r | r in rows && Selected(keep, after, r)
  }

  /** The first-page and next-page queries: filter, order, limit. */
  ghost function Fetch<T(!new)>(rows: set<Row<T>>, keep: Row<T> -> bool, after: Option<Position>,
                                limit: nat): seq<Row<T>>
    requires DistinctIds(rows)
  {
    var sorted := Sort(Matching(rows, keep, after));
    if |sorted| <= limit then sorted else sorted[..limit]
  }

  datatype Page<T> = Page(items: seq<Row<T>>, next: Option<Position>)

  function FetchSize(pageSize: nat): nat { pageSize + 1 }

  function ToKeysetPage<T>(rows: seq<Row<T>>, pageSize: nat): Page<T>
    requires pageSize >= 1
  {
    if |rows| <= pageSize then Page(rows, None)
    else
      var items := rows[..pageSize];
      Page(items, Some(PositionOf(items[|items| - 1])))
  }

  ghost function PageAt<T(!new)>(rows: set<Row<T>>, keep: Row<T> -> bool, after: Option<Position>,
                                 pageSize: nat): Page<T>
    requires DistinctIds(rows) && pageSize >= 1
  {
    ToKeysetPage(Fetch(rows, keep, after, FetchSize(pageSize)), pageSize)
  }

  /** A page is the newest matching rows, in order; it says there is more exactly when there is,
      and then it is full and what is missing is what lies below its last row. */
  lemma PageIsNewest<T(!new)>(rows: set<Row<T>>, keep: Row<T> -> bool, after: Option<Position>, pageSize: nat)
    requires DistinctIds(rows) && pageSize >= 1
    ensures var page := PageAt(rows, keep, after, pageSize);
            var all := Matching(rows, keep, after);
            && Descending(page.items)
            && (forall r :: r in page.items ==> r in all)
            && (page.next.Some? <==> |all| > pageSize)
            && (page.next.None? ==> forall r :: r in all ==> r in page.items)
            && (page.next.Some? ==>
                  && |page.items| == pageSize
                  && page.next == Some(PositionOf(page.items[pageSize - 1]))
                  && (forall r :: r in all ==> (r !in page.items <==> Below(r, page.next.value))))
  {
    hide Sort, Matching;
    var sorted := Sort(Matching(rows, keep, after));
    if |sorted| > pageSize {
      assert PageAt(rows, keep, after, pageSize).items == sorted[..pageSize];
      TopOfList(sorted, pageSize);
    }
  }

  lemma TopOfList<T(!new)>(sorted: seq<Row<T>>, n: nat)
    requires Descending(sorted) && 1 <= n <= |sorted|
    ensures forall r :: r in sorted ==> (r !in sorted[..n] <==> Below(r, PositionOf(sorted[n - 1])))
    ensures forall r :: r in sorted[..n] ==> r in sorted
  {
    forall r | r in sorted ensures r !in sorted[..n] <==> Below(r, PositionOf(sorted[n - 1])) {
      var k :| 0 <= k < |sorted| && sorted[k] == r;
      if k < n { assert sorted[..n][k] == r; }
    }
  }

  // ---------------------------------------------------------------- the walk, with rows added between pages

  /** `world(k)` is the table when page `k` is read; only finitely many rows are ever added. */
  ghost predicate Growing<T(!new)>(world: nat -> set<Row<T>>, ever: set<Row<T>>) {
    && DistinctIds(ever)
    && (forall k: nat :: world(k) <= ever)
    && (forall k: nat :: world(k) <= world(k + 1))
  }

  lemma PageShrinks<T(!new)>(world: nat -> set<Row<T>>, ever: set<Row<T>>, keep: Row<T> -> bool, k: nat,
                             after: Option<Position>, pageSize: nat)
    requires Growing(world, ever) && pageSize >= 1 && DistinctIds(world(k))
    requires PageAt(world(k), keep, after, pageSize).next.Some?
    ensures var next := PageAt(world(k), keep, after, pageSize).next;
            && (forall r :: r in Matching(ever, keep, next) ==> r in Matching(ever, keep, after))
            && |Matching(ever, keep, next)| < |Matching(ever, keep, after)|
  {
    PageIsNewest(world(k), keep, after, pageSize);
    var page := PageAt(world(k), keep, after, pageSize);
    var last := page.items[pageSize - 1];
    assert last in page.items;
    assert last in Matching(world(k), keep, after);
    var now, then_ := Matching(ever, keep, after), Matching(ever, keep, page.next);
    assert last in now && last !in then_;
    forall r | r in then_ ensures r in now {}
    SmallerSet(then_, now - {last});
  }

  lemma SmallerSet<T>(a: set<T>, b: set<T>)
    requires a <= b
    ensures |a| <= |b|
  {
    assert b == a + (b - a);
  }

  ghost function Walk<T(!new)>(world: nat -> set<Row<T>>, ever: set<Row<T>>, keep: Row<T> -> bool, k: nat,
                               after: Option<Position>, pageSize: nat): (pages: seq<Page<T>>)
    requires Growing(world, ever) && pageSize >= 1
    decreases |Matching(ever, keep, after)|
  {
    assert DistinctIds(world(k)) by { assert world(k) <= ever; }
    var page := PageAt(world(k), keep, after, pageSize);
    if page.next.None? then [page]
    else
      PageShrinks(world, ever, keep, k, after, pageSize);
      [page] + Walk(world, ever, keep, k + 1, page.next, pageSize)
  }

  function Items<T>(pages: seq<Page<T>>): seq<Row<T>> {
    if pages == [] then [] else pages[0].items + Items(pages[1..])
  }

  /** Every row that was there when the walk began is listed once, in order, and so is whatever else
      is listed; the last page, and no other, has no `next`; all others are full. */
  lemma {:induction false} WalkListsEverything<T(!new)>(world: nat -> set<Row<T>>, ever: set<Row<T>>,
                                                        keep: Row<T> -> bool, k: nat,
                                                        after: Option<Position>, pageSize: nat)
    requires Growing(world, ever) && pageSize >= 1
    ensures var pages := Walk(world, ever, keep, k, after, pageSize);
            var items := Items(pages);
            && Descending(items)
            && (forall r :: r in Matching(world(k), keep, after) ==> r in items)
            && (forall r :: r in items ==> r in Matching(ever, keep, after))
            && pages != [] && pages[|pages| - 1].next.None?
            && (forall m :: 0 <= m < |pages| - 1 ==> pages[m].next.Some? && |pages[m].items| == pageSize)
    decreases |Matching(ever, keep, after)|
  {
    hide Sort, Fetch, PageAt, Descending;
    assert world(k) <= ever;
    PageIsNewest(world(k), keep, after, pageSize);
    var page := PageAt(world(k), keep, after, pageSize);
    var pages := Walk(world, ever, keep, k, after, pageSize);
    if page.next.None? {
      assert pages == [page] && Items(pages) == page.items + Items([]);
      assert Items(pages) == page.items;
    } else {
      PageShrinks(world, ever, keep, k, after, pageSize);
      WalkListsEverything(world, ever, keep, k + 1, page.next, pageSize);
      var later := Walk(world, ever, keep, k + 1, page.next, pageSize);
      assert pages[1..] == later;
      WalkOn(world, ever, keep, k, after, pageSize, page, Items(later));
    }
  }

  lemma WalkOn<T(!new)>(world: nat -> set<Row<T>>, ever: set<Row<T>>, keep: Row<T> -> bool, k: nat,
                        after: Option<Position>, pageSize: nat, page: Page<T>, later: seq<Row<T>>)
    requires Growing(world, ever) && pageSize >= 1 && page.next.Some? && |page.items| == pageSize
    requires page.next == Some(PositionOf(page.items[pageSize - 1])) && Descending(page.items) && Descending(later)
    requires forall r :: r in page.items ==> r in Matching(world(k), keep, after)
    requires forall r :: r in Matching(world(k), keep, after) ==> (r !in page.items <==> Below(r, page.next.value))
    requires forall r :: r in Matching(world(k + 1), keep, page.next) ==> r in later
    requires forall r :: r in later ==> r in Matching(ever, keep, page.next)
    requires forall r :: r in Matching(ever, keep, page.next) ==> r in Matching(ever, keep, after)
    ensures Descending(page.items + later)
    ensures forall r :: r in Matching(world(k), keep, after) ==> r in page.items + later
    ensures forall r :: r in page.items + later ==> r in Matching(ever, keep, after)
  {
    assert world(k) <= world(k + 1) && world(k) <= ever;
    var items := page.items + later;
    forall i, j | 0 <= i < j < |items| ensures Newer(items[i], items[j]) {
      if i < pageSize <= j {
        assert items[j] in later;
        var last := page.items[pageSize - 1];
        assert Below(items[j], PositionOf(last));
        assert items[i] == last || Newer(items[i], last);
      }
    }
  }

  /** With nothing added meanwhile, the walk is the whole sorted list. */
  lemma QuietWalkIsTheList<T(!new)>(world: nat -> set<Row<T>>, rows: set<Row<T>>, keep: Row<T> -> bool, pageSize: nat)
    requires DistinctIds(rows) && pageSize >= 1 && forall k: nat :: world(k) == rows
    ensures Growing(world, rows)
    ensures Items(Walk(world, rows, keep, 0, None, pageSize)) == Sort(Matching(rows, keep, None))
  {
    hide Sort, Walk, Items;
    WalkListsEverything(world, rows, keep, 0, None, pageSize);
    OneOrder(Items(Walk(world, rows, keep, 0, None, pageSize)), Sort(Matching(rows, keep, None)));
  }

  // ---------------------------------------------------------------- paging over a loaded list

  function Filter<T>(rows: seq<Row<T>>, p: Row<T> -> bool): seq<Row<T>> {
    if rows == [] then [] else (if p(rows[0]) then [rows[0]] else []) + Filter(rows[1..], p)
  }

  lemma {:induction false} FilterSelects<T>(rows: seq<Row<T>>, p: Row<T> -> bool, r: Row<T>)
    ensures r in Filter(rows, p) <==> r in rows && p(r)
  {
    if rows != [] {
      FilterSelects(rows[1..], p, r);
      assert rows == [rows[0]] + rows[1..];
    }
  }

  lemma {:induction false} FilterKeepsOrder<T>(rows: seq<Row<T>>, p: Row<T> -> bool)
    requires Descending(rows)
    ensures Descending(Filter(rows, p))
  {
    if rows != [] {
      FilterKeepsOrder(rows[1..], p);
      var kept := Filter(rows[1..], p);
      forall m | 0 <= m < |kept| ensures Newer(rows[0], kept[m]) {
        FilterSelects(rows[1..], p, kept[m]);
        var k :| 0 <= k < |rows[1..]| && rows[1..][k] == kept[m];
        assert rows[k + 1] == kept[m];
      }
    }
  }

  /** The Benchmark Run list: all records loaded, filtered by status, sorted, cut at the cursor,
      sliced; the next position is that of the last row kept, if any is left out. */
  ghost function ListRuns<T(!new)>(runs: set<Row<T>>, keep: Row<T> -> bool, after: Option<Position>,
                                   limit: nat): Page<T>
    requires DistinctIds(runs) && limit >= 1
  {
    var matching := Filter(Sort(set r | r in runs && keep(r)),
                           (r: Row<T>) => after.None? || Below(r, after.value));
    var page := if |matching| <= limit then matching else matching[..limit];
    Page(page, if |matching| > |page| && page != [] then Some(PositionOf(page[|page| - 1])) else None)
  }

  /** It pages exactly as the database queries do. */
  lemma ListRunsIsKeysetPage<T(!new)>(runs: set<Row<T>>, keep: Row<T> -> bool, after: Option<Position>, limit: nat)
    requires DistinctIds(runs) && limit >= 1
    ensures ListRuns(runs, keep, after, limit) == PageAt(runs, keep, after, limit)
  {
    hide Sort, PositionOf, Filter;
    var kept := set r | r in runs && keep(r);
    var p := (r: Row<T>) => after.None? || Below(r, after.value);
    FilterKeepsOrder(Sort(kept), p);
    forall r
      ensures r in Filter(Sort(kept), p) <==> r in Sort(Matching(runs, keep, after))
    {
      FilterSelects(Sort(kept), p, r);
    }
    OneOrder(Filter(Sort(kept), p), Sort(Matching(runs, keep, after)));
  }
}
