/** Keyset pagination over (created_at, id), against the plain sorted read. */
module Paging {
  import opened Base

  /** A row with the columns that order it; ids are compared as the database compares them. */
  datatype Keyed<T> = Keyed(createdAt: int, id: int, value: T)

  /** A page's cursor is the position of its last row. */
  datatype Cursor = Cursor(createdAt: int, id: int)

  function Pos<T>(r: Keyed<T>): Cursor {
    Cursor(r.createdAt, r.id)
  }

  /** Row comparison (created_at, id) < (?, ?). */
  predicate Less(a: Cursor, b: Cursor) {
    a.createdAt < b.createdAt || (a.createdAt == b.createdAt && a.id < b.id)
  }

  predicate Before(asc: bool, a: Cursor, b: Cursor) {
    if asc then Less(a, b) else Less(b, a)
  }

  predicate KeysUnique<T(==)>(rows: set<Keyed<T>>) {
    forall a, b :: a in rows && b in rows && Pos(a) == Pos(b) ==> a == b
  }

  predicate IsFirst<T(==)>(rows: set<Keyed<T>>, asc: bool, m: Keyed<T>) {
    m in rows && forall r :: r in rows && r != m ==> Before(asc, Pos(m), Pos(r))
  }

  lemma {:induction false} FirstExists<T>(rows: set<Keyed<T>>, asc: bool)
    requires KeysUnique(rows) && rows != {}
    ensures exists m :: IsFirst(rows, asc, m)
    decreases |rows|
  {
    var r :| r in rows;
    var rest := rows - {r};
    if rest == {} {
      forall o | o in rows && o != r ensures o in rest {}
      assert IsFirst(rows, asc, r);
    } else {
      FirstExists(rest, asc);
      var m :| IsFirst(rest, asc, m);
      assert Pos(r) != Pos(m);
      var first := if Before(asc, Pos(r), Pos(m)) then r else m;
      forall o | o in rows && o != first ensures Before(asc, Pos(first), Pos(o)) {
        if o != r && o != m { assert Before(asc, Pos(m), Pos(o)); }
      }
      assert IsFirst(rows, asc, first);
    }
  }

  ghost predicate InOrder<T(!new)>(rows: seq<Keyed<T>>, asc: bool) {
    forall i, j :: 0 <= i < j < |rows| ==> Before(asc, Pos(rows[i]), Pos(rows[j]))
  }

  /** Oldest first or newest first, and by id among rows of one instant. */
  ghost predicate InTimeOrder<T(!new)>(rows: seq<Keyed<T>>, asc: bool) {
    forall i, j :: 0 <= i < j < |rows| ==>
      var a, b := if asc then rows[i] else rows[j], if asc then rows[j] else rows[i];
      a.createdAt < b.createdAt || (a.createdAt == b.createdAt && a.id < b.id)
  }

  lemma {:induction false} OrderIsByTime<T(!new)>(rows: seq<Keyed<T>>, asc: bool)
    requires InOrder(rows, asc)
    ensures InTimeOrder(rows, asc)
  {
    forall i, j | 0 <= i < j < |rows| ensures Before(asc, Pos(rows[i]), Pos(rows[j])) {}
  }

  /** All these rows, each once, in strict order. */
  ghost predicate Sorts<T(!new)>(rows: set<Keyed<T>>, list: seq<Keyed<T>>, asc: bool) {
    InOrder(list, asc) && (forall r :: r in list <==> r in rows)
  }

  /** ORDER BY created_at, id. */
  function Sorted<T(==, !new)>(rows: set<Keyed<T>>, asc: bool): (list: seq<Keyed<T>>)
    requires KeysUnique(rows)
    ensures |list| == |rows|
    decreases |rows|
  {
    if rows == {} then []
    else
      var m := First(rows, asc);
      [m] + Sorted(rows - {m}, asc)
  }

  lemma {:induction false} SortedSorts<T(!new)>(rows: set<Keyed<T>>, asc: bool)
    requires KeysUnique(rows)
    ensures Sorts(rows, Sorted(rows, asc), asc)
    decreases |rows|
  {
    if rows != {} {
      var m := First(rows, asc);
      SortedSorts(rows - {m}, asc);
      FirstThenRest(rows, m, Sorted(rows - {m}, asc), asc);
    }
  }

  lemma FirstThenRest<T(!new)>(rows: set<Keyed<T>>, m: Keyed<T>, rest: seq<Keyed<T>>, asc: bool)
    requires IsFirst(rows, asc, m) && Sorts(rows - {m}, rest, asc)
    ensures Sorts(rows, [m] + rest, asc)
  {
    forall i | 0 <= i < |rest| ensures Before(asc, Pos(m), Pos(rest[i])) {
      assert rest[i] in rest;
    }
  }

  function First<T(==, !new)>(rows: set<Keyed<T>>, asc: bool): (m: Keyed<T>)
    requires KeysUnique(rows) && rows != {}
    ensures IsFirst(rows, asc, m)
  {
    FirstExists(rows, asc);
    var m :| IsFirst(rows, asc, m);
    m
  }

  /** There is one way to sort rows with distinct positions. */
  lemma {:induction false} SortingIsUnique<T(!new)>(rows: set<Keyed<T>>, a: seq<Keyed<T>>, b: seq<Keyed<T>>, asc: bool)
    requires Sorts(rows, a, asc) && Sorts(rows, b, asc)
    ensures a == b
    decreases |a|
  {
    if a == [] {
      EmptyIf(b);
    } else {
      assert a[0] in rows && a[0] in b;
      assert b[0] in rows && b[0] in a;
      assert a[0] == b[0];
      RestSorts(rows, a, asc);
      RestSorts(rows, b, asc);
      SortingIsUnique(rows - {a[0]}, a[1..], b[1..], asc);
    }
  }

  lemma EmptyIf<T>(list: seq<T>)
    ensures (forall r :: r !in list) ==> list == []
  {
    if list != [] { assert list[0] in list; }
  }

  lemma PrefixHas<T>(list: seq<T>, k: nat, i: nat)
    requires k <= |list| && i < |list|
    ensures i < k ==> list[i] in list[..k]
  {
    if i < k { assert list[..k][i] == list[i]; }
  }

  lemma RestSorts<T(!new)>(rows: set<Keyed<T>>, a: seq<Keyed<T>>, asc: bool)
    requires Sorts(rows, a, asc) && a != []
    ensures Sorts(rows - {a[0]}, a[1..], asc)
  {
    forall r | r in rows - {a[0]} ensures r in a[1..] {
      assert r in a;
    }
  }

  /** The WHERE clause a cursor adds. */
  function Rest<T(==)>(rows: set<Keyed<T>>, cursor: Option<Cursor>, asc: bool): set<Keyed<T>> {
    if cursor.None? then rows else set r | r in rows && Before(asc, cursor.value, Pos(r))
  }

  datatype Page<T> = Page(items: seq<Keyed<T>>, next: Option<Cursor>)

  /** One row more than the limit is asked for, to see whether there is a next page. */
  function PageOf<T(==, !new)>(rows: set<Keyed<T>>, asc: bool, limit: nat, cursor: Option<Cursor>): Page<T>
    requires KeysUnique(rows) && limit >= 1
  {
    var found := Sorted(Rest(rows, cursor, asc), asc);
    if |found| > limit then Page(found[..limit], Some(Pos(found[limit - 1]))) else Page(found, None)
  }

  lemma SuffixSorts<T(!new)>(rows: set<Keyed<T>>, list: seq<Keyed<T>>, k: nat, asc: bool)
    requires Sorts(rows, list, asc) && 1 <= k <= |list|
    ensures Sorts(Rest(rows, Some(Pos(list[k - 1])), asc), list[k..], asc)
  {
    var rest := Rest(rows, Some(Pos(list[k - 1])), asc);
    forall r | r in rest ensures r in list[k..] {
      assert r in list;
      var i :| 0 <= i < |list| && list[i] == r;
      assert i >= k;
    }
    forall r | r in list[k..] ensures r in rest {
      var i :| k <= i < |list| && list[i] == r;
      assert r in list;
    }
  }

  /** Where the rows after the k-th begin, in the sorted read. */
  lemma SortedAfter<T(!new)>(rows: set<Keyed<T>>, asc: bool, k: nat)
    requires KeysUnique(rows) && 1 <= k <= |rows|
    ensures var list := Sorted(rows, asc); Sorted(Rest(rows, Some(Pos(list[k - 1])), asc), asc) == list[k..]
  {
    var list := Sorted(rows, asc);
    var rest := Rest(rows, Some(Pos(list[k - 1])), asc);
    SortedSorts(rows, asc);
    SuffixSorts(rows, list, k, asc);
    SortedSorts(rest, asc);
    SortingIsUnique(rest, Sorted(rest, asc), list[k..], asc);
  }

  lemma RestOfRest<T(!new)>(rows: set<Keyed<T>>, a: Option<Cursor>, b: Cursor, asc: bool)
    requires a.Some? ==> Before(asc, a.value, b)
    ensures Rest(Rest(rows, a, asc), Some(b), asc) == Rest(rows, Some(b), asc)
  {}

  lemma RestShrinks<T(!new)>(rows: set<Keyed<T>>, asc: bool, limit: nat, cursor: Option<Cursor>)
    requires KeysUnique(rows) && limit >= 1 && PageOf(rows, asc, limit, cursor).next.Some?
    ensures var page := PageOf(rows, asc, limit, cursor); var found := Sorted(Rest(rows, cursor, asc), asc);
      && Sorted(Rest(rows, page.next, asc), asc) == found[limit..]
      && |Rest(rows, page.next, asc)| == |Rest(rows, cursor, asc)| - limit
  {
    var left := Rest(rows, cursor, asc);
    var found := Sorted(left, asc);
    SortedSorts(left, asc);
    assert found[limit - 1] in found;
    SortedAfter(left, asc, limit);
    RestOfRest(rows, cursor, Pos(found[limit - 1]), asc);
  }

  /** Following the cursors: the rows of all pages, and how many pages there were. */
  function Follow<T(==, !new)>(rows: set<Keyed<T>>, asc: bool, limit: nat, cursor: Option<Cursor>): (seq<Keyed<T>>, nat)
    requires KeysUnique(rows) && limit >= 1
    decreases |Rest(rows, cursor, asc)|
  {
    var page := PageOf(rows, asc, limit, cursor);
    if page.next.None? then (page.items, 1)
    else
      RestShrinks(rows, asc, limit, cursor);
      var rest := Follow(rows, asc, limit, page.next);
      (page.items + rest.0, rest.1 + 1)
  }

  /** Pages needed for n rows. */
  function Pages(n: nat, limit: nat): nat
    requires limit >= 1
  {
    if n <= limit then 1 else Pages(n - limit, limit) + 1
  }

  /** That is one page for nothing, and otherwise the least number of pages that hold n rows. */
  lemma {:induction false} PagesAreEnough(n: nat, limit: nat)
    requires limit >= 1
    ensures var p := Pages(n, limit); if n == 0 then p == 1 else (p - 1) * limit < n <= p * limit
  {
    if n > limit {
      PagesAreEnough(n - limit, limit);
      var p := Pages(n - limit, limit);
      assert (p + 1) * limit == p * limit + limit && p * limit == (p - 1) * limit + limit;
    }
  }

  lemma {:induction false} LastPage<T(!new)>(rows: set<Keyed<T>>, asc: bool, limit: nat, cursor: Option<Cursor>)
    requires KeysUnique(rows) && limit >= 1 && PageOf(rows, asc, limit, cursor).next.None?
    ensures |Rest(rows, cursor, asc)| <= limit
    ensures Follow(rows, asc, limit, cursor) == (Sorted(Rest(rows, cursor, asc), asc), 1)
  {}

  lemma FullPage<T(!new)>(rows: set<Keyed<T>>, asc: bool, limit: nat, cursor: Option<Cursor>)
    requires KeysUnique(rows) && limit >= 1 && PageOf(rows, asc, limit, cursor).next.Some?
    ensures |Rest(rows, cursor, asc)| > limit
    ensures var found := Sorted(Rest(rows, cursor, asc), asc);
      PageOf(rows, asc, limit, cursor).items + found[limit..] == found
  {}

  lemma {:induction false} FollowOn<T(!new)>(rows: set<Keyed<T>>, asc: bool, limit: nat, cursor: Option<Cursor>)
    requires KeysUnique(rows) && limit >= 1 && PageOf(rows, asc, limit, cursor).next.Some?
    ensures var page := PageOf(rows, asc, limit, cursor);
      Follow(rows, asc, limit, cursor).0 == page.items + Follow(rows, asc, limit, page.next).0
  {}

  /** Following the cursors from here reads the sorted rest, in as many pages as it takes. */
  predicate ReadsAll<T(==, !new)>(rows: set<Keyed<T>>, asc: bool, limit: nat, cursor: Option<Cursor>)
    requires KeysUnique(rows) && limit >= 1
  {
    && Follow(rows, asc, limit, cursor).0 == Sorted(Rest(rows, cursor, asc), asc)
    && Follow(rows, asc, limit, cursor).1 == Pages(|Rest(rows, cursor, asc)|, limit)
  }

  lemma {:induction false} ReadsOn<T(!new)>(
      rows: set<Keyed<T>>, asc: bool, limit: nat, cursor: Option<Cursor>, next: Option<Cursor>)
    requires KeysUnique(rows) && limit >= 1 && PageOf(rows, asc, limit, cursor).next == next && next.Some?
    requires Follow(rows, asc, limit, next).0 == Sorted(Rest(rows, next, asc), asc)
    ensures Follow(rows, asc, limit, cursor).0 == Sorted(Rest(rows, cursor, asc), asc)
  {
    var items := PageOf(rows, asc, limit, cursor).items;
    calc {
      Follow(rows, asc, limit, cursor).0;
      { FollowOn(rows, asc, limit, cursor); }
      items + Follow(rows, asc, limit, next).0;
      { RestShrinks(rows, asc, limit, cursor); }
      items + Sorted(Rest(rows, cursor, asc), asc)[limit..];
      { FullPage(rows, asc, limit, cursor); }
      Sorted(Rest(rows, cursor, asc), asc);
    }
  }

  lemma {:induction false} CountsOn<T(!new)>(
      rows: set<Keyed<T>>, asc: bool, limit: nat, cursor: Option<Cursor>, next: Option<Cursor>)
    requires KeysUnique(rows) && limit >= 1 && PageOf(rows, asc, limit, cursor).next == next && next.Some?
    requires Follow(rows, asc, limit, next).1 == Pages(|Rest(rows, next, asc)|, limit)
    ensures Follow(rows, asc, limit, cursor).1 == Pages(|Rest(rows, cursor, asc)|, limit)
  {
    PageCount(|Rest(rows, cursor, asc)|, |Rest(rows, next, asc)|, limit);
    FullPage(rows, asc, limit, cursor);
    RestShrinks(rows, asc, limit, cursor);
    FollowCounts(rows, asc, limit, cursor);
  }

  lemma PageCount(n: nat, left: nat, limit: nat)
    requires limit >= 1
    ensures n > limit && left == n - limit ==> Pages(n, limit) == Pages(left, limit) + 1
  {}

  lemma {:induction false} FollowCounts<T(!new)>(rows: set<Keyed<T>>, asc: bool, limit: nat, cursor: Option<Cursor>)
    requires KeysUnique(rows) && limit >= 1 && PageOf(rows, asc, limit, cursor).next.Some?
    ensures Follow(rows, asc, limit, cursor).1 == Follow(rows, asc, limit, PageOf(rows, asc, limit, cursor).next).1 + 1
  {}

  /** Following the cursors reads exactly the sorted rows, each once, without a gap, in max(1, ceil(n / limit))
      pages. */
  lemma {:induction false} FollowingIsTheSortedRead<T(!new)>(
      rows: set<Keyed<T>>, asc: bool, limit: nat, cursor: Option<Cursor>)
    requires KeysUnique(rows) && limit >= 1
    ensures ReadsAll(rows, asc, limit, cursor)
    decreases |Rest(rows, cursor, asc)|
  {
    var next := PageOf(rows, asc, limit, cursor).next;
    if next.None? {
      LastPage(rows, asc, limit, cursor);
    } else {
      RestShrinks(rows, asc, limit, cursor);
      FollowingIsTheSortedRead(rows, asc, limit, next);
      ReadsOn(rows, asc, limit, cursor, next);
      CountsOn(rows, asc, limit, cursor, next);
    }
  }

  // Rows inserted, changed and removed between the pages.

  predicate AllUnique<T(==)>(tables: seq<set<Keyed<T>>>) {
    forall i :: 0 <= i < |tables| ==> KeysUnique(tables[i])
  }

  /** Rows are only ever inserted. */
  predicate Growing<T(==)>(tables: seq<set<Keyed<T>>>) {
    AllUnique(tables) && forall i, j :: 0 <= i < j < |tables| ==> tables[i] <= tables[j]
  }

  predicate HasPosition<T(==)>(rows: set<Keyed<T>>, c: Cursor) {
    exists r :: r in rows && Pos(r) == c
  }

  /** Whatever becomes of the rest of the row, there is one at this position all the time. */
  predicate StaysListed<T(==)>(tables: seq<set<Keyed<T>>>, c: Cursor) {
    forall i :: 0 <= i < |tables| ==> HasPosition(tables[i], c)
  }

  predicate Shows<T>(items: seq<Keyed<T>>, c: Cursor) {
    exists i :: 0 <= i < |items| && Pos(items[i]) == c
  }

  predicate IsAfter(c: Cursor, cursor: Option<Cursor>, asc: bool) {
    cursor.Some? ==> Before(asc, cursor.value, c)
  }

  /** The i-th page is read from the i-th table; the second part says whether the last page was reached. */
  function Walk<T(==, !new)>(
      tables: seq<set<Keyed<T>>>, asc: bool, limit: nat, cursor: Option<Cursor>): (seq<Keyed<T>>, bool)
    requires AllUnique(tables) && limit >= 1
  {
    if tables == [] then ([], false)
    else
      var page := PageOf(tables[0], asc, limit, cursor);
      if page.next.None? then (page.items, true)
      else
        var rest := Walk(tables[1..], asc, limit, page.next);
        (page.items + rest.0, rest.1)
  }

  predicate StartsAfter<T>(items: seq<Keyed<T>>, cursor: Option<Cursor>, asc: bool) {
    cursor.Some? ==> forall i :: 0 <= i < |items| ==> Before(asc, cursor.value, Pos(items[i]))
  }

  lemma InOrderAppend<T(!new)>(a: seq<Keyed<T>>, b: seq<Keyed<T>>, asc: bool)
    requires InOrder(a, asc) && InOrder(b, asc) && a != [] && StartsAfter(b, Some(Pos(a[|a| - 1])), asc)
    ensures InOrder(a + b, asc)
  {
    forall i, j | 0 <= i < |a| && 0 <= j < |b| ensures Before(asc, Pos(a[i]), Pos(b[j])) {
      assert i == |a| - 1 || Before(asc, Pos(a[i]), Pos(a[|a| - 1]));
    }
  }

  lemma PageItems<T(!new)>(rows: set<Keyed<T>>, asc: bool, limit: nat, cursor: Option<Cursor>)
    requires KeysUnique(rows) && limit >= 1
    ensures var page := PageOf(rows, asc, limit, cursor);
      && InOrder(page.items, asc) && StartsAfter(page.items, cursor, asc) && (forall r :: r in page.items ==> r in rows)
      && (page.next.Some? ==> page.items != [] && page.next == Some(Pos(page.items[|page.items| - 1])))
  {
    var found, page := Sorted(Rest(rows, cursor, asc), asc), PageOf(rows, asc, limit, cursor);
    SortedSorts(Rest(rows, cursor, asc), asc);
    forall i | 0 <= i < |page.items|
      ensures found[i] == page.items[i] && found[i] in Rest(rows, cursor, asc)
    {
      assert found[i] in found;
    }
  }

  /** What a page leaves out comes after its cursor. */
  lemma PageLeavesLater<T(!new)>(rows: set<Keyed<T>>, asc: bool, limit: nat, cursor: Option<Cursor>)
    requires KeysUnique(rows) && limit >= 1
    ensures var page := PageOf(rows, asc, limit, cursor);
      forall r :: r in Rest(rows, cursor, asc) && r !in page.items ==>
        page.next.Some? && Before(asc, page.next.value, Pos(r))
  {
    var found, page := Sorted(Rest(rows, cursor, asc), asc), PageOf(rows, asc, limit, cursor);
    SortedSorts(Rest(rows, cursor, asc), asc);
    forall r | r in Rest(rows, cursor, asc) && r !in page.items
      ensures page.next.Some? && Before(asc, page.next.value, Pos(r))
    {
      assert r in found;
      var i :| 0 <= i < |found| && found[i] == r;
      PrefixHas(found, |page.items|, i);
    }
  }

  /** What a walk has to show for the tables it went through. */
  ghost predicate WalkOk<T(!new)>(
      tables: seq<set<Keyed<T>>>, asc: bool, cursor: Option<Cursor>, w: (seq<Keyed<T>>, bool)) {
    && InOrder(w.0, asc) && StartsAfter(w.0, cursor, asc)
    && (forall r :: r in w.0 ==> exists i :: 0 <= i < |tables| && r in tables[i])
    && (w.1 ==> tables != [] && forall c :: StaysListed(tables, c) && IsAfter(c, cursor, asc) ==> Shows(w.0, c))
  }

  /** Whatever is inserted, changed or removed while a reader follows the cursors: no position is shown twice, the order
      is kept, every row shown was in the table when its page was read, and when the walk comes to its end,
      every position
      that was listed all the time has been shown. */
  lemma {:induction false} WalkMissesNoPosition<T(!new)>(
      tables: seq<set<Keyed<T>>>, asc: bool, limit: nat, cursor: Option<Cursor>)
    requires AllUnique(tables) && limit >= 1
    ensures WalkOk(tables, asc, cursor, Walk(tables, asc, limit, cursor))
  {
    if tables != [] {
      var page := PageOf(tables[0], asc, limit, cursor);
      PageItems(tables[0], asc, limit, cursor);
      if page.next.Some? {
        WalkMissesNoPosition(tables[1..], asc, limit, page.next);
        WalkStep(tables, asc, limit, cursor, Walk(tables[1..], asc, limit, page.next));
      } else {
        forall c | StaysListed(tables, c) && IsAfter(c, cursor, asc) ensures Shows(page.items, c) {
          PageShows(tables[0], asc, limit, cursor, c);
        }
      }
    }
  }

  /** A listed position that is not on the page comes after its cursor. */
  lemma {:induction false} PageShows<T(!new)>(
      rows: set<Keyed<T>>, asc: bool, limit: nat, cursor: Option<Cursor>, c: Cursor)
    requires KeysUnique(rows) && limit >= 1 && HasPosition(rows, c) && IsAfter(c, cursor, asc)
    ensures var page := PageOf(rows, asc, limit, cursor);
      Shows(page.items, c) || (page.next.Some? && Before(asc, page.next.value, c))
  {
    PageLeavesLater(rows, asc, limit, cursor);
    var r :| r in rows && Pos(r) == c;
    assert r in Rest(rows, cursor, asc);
  }

  lemma {:induction false} WalkStep<T(!new)>(
      tables: seq<set<Keyed<T>>>, asc: bool, limit: nat, cursor: Option<Cursor>, rest: (seq<Keyed<T>>, bool))
    requires AllUnique(tables) && limit >= 1 && tables != []
    requires PageOf(tables[0], asc, limit, cursor).next.Some?
    requires WalkOk(tables[1..], asc, PageOf(tables[0], asc, limit, cursor).next, rest)
    ensures WalkOk(tables, asc, cursor, (PageOf(tables[0], asc, limit, cursor).items + rest.0, rest.1))
  {
    var page := PageOf(tables[0], asc, limit, cursor);
    PageItems(tables[0], asc, limit, cursor);
    InOrderAppend(page.items, rest.0, asc);
    CursorChains(page, rest.0, cursor, asc);
    forall r | r in page.items + rest.0 ensures exists i :: 0 <= i < |tables| && r in tables[i] {
      if r in page.items {
        assert r in tables[0];
      } else {
        var i :| 0 <= i < |tables[1..]| && r in tables[1..][i];
        assert r in tables[i + 1];
      }
    }
    if rest.1 {
      forall c | StaysListed(tables, c) && IsAfter(c, cursor, asc) ensures Shows(page.items + rest.0, c) {
        PageShows(tables[0], asc, limit, cursor, c);
        ShowsEither(page.items, rest.0, c);
      }
    }
  }

  lemma {:induction false} ShowsEither<T>(a: seq<Keyed<T>>, b: seq<Keyed<T>>, c: Cursor)
    ensures Shows(a, c) || Shows(b, c) ==> Shows(a + b, c)
  {
    if i :| 0 <= i < |a| && Pos(a[i]) == c {
      assert Pos((a + b)[i]) == c;
    } else if i :| 0 <= i < |b| && Pos(b[i]) == c {
      assert Pos((a + b)[|a| + i]) == c;
    }
  }

  /** Where rows are only inserted, every row that was there from the start is shown as it is. */
  lemma {:induction false} WalkMissesNothing<T(!new)>(
      tables: seq<set<Keyed<T>>>, asc: bool, limit: nat, cursor: Option<Cursor>)
    requires Growing(tables) && limit >= 1
    ensures var w := Walk(tables, asc, limit, cursor);
      && InOrder(w.0, asc) && StartsAfter(w.0, cursor, asc)
      && (w.1 ==> tables != [] && forall r :: r in Rest(tables[0], cursor, asc) ==> r in w.0)
  {
    var w := Walk(tables, asc, limit, cursor);
    WalkMissesNoPosition(tables, asc, limit, cursor);
    if w.1 {
      forall r | r in Rest(tables[0], cursor, asc) ensures r in w.0 {
        StaysThere(tables, r);
        var i :| 0 <= i < |w.0| && Pos(w.0[i]) == Pos(r);
        assert w.0[i] in w.0;
        var j :| 0 <= j < |tables| && w.0[i] in tables[j];
        assert r in tables[j];
      }
    }
  }

  lemma {:induction false} StaysThere<T(!new)>(tables: seq<set<Keyed<T>>>, r: Keyed<T>)
    requires Growing(tables) && tables != [] && r in tables[0]
    ensures StaysListed(tables, Pos(r))
    ensures forall j :: 0 <= j < |tables| ==> r in tables[j]
  {
    forall j | 0 <= j < |tables| ensures r in tables[j] && HasPosition(tables[j], Pos(r)) {
      if j > 0 { assert tables[0] <= tables[j]; }
    }
  }

  lemma CursorChains<T(!new)>(page: Page<T>, items: seq<Keyed<T>>, cursor: Option<Cursor>, asc: bool)
    requires page.next.Some? && page.items != [] && page.next == Some(Pos(page.items[|page.items| - 1]))
    requires StartsAfter(page.items, cursor, asc) && StartsAfter(items, page.next, asc)
    ensures StartsAfter(page.items + items, cursor, asc)
  {
    if cursor.Some? {
      assert Before(asc, cursor.value, Pos(page.items[|page.items| - 1]));
      forall i | 0 <= i < |items| ensures Before(asc, cursor.value, Pos(items[i])) {}
    }
  }
}
