/** The order and dispute event stores and the product listing, as they page through their tables. */
module EventSink {
  import opened Base
  import opened Paging
  import Catalog

  /** An order or dispute event; `subject` is the order or the dispute. */
  datatype EventData = EventData(subject: Id, kind: string)

  type Event = Keyed<EventData>

  /** An empty set of subjects or kinds does not filter. */
  datatype EventQuery = EventQuery(
    subjects: set<Id>,
    kinds: set<string>,
    timeFrom: Option<int>,
    timeTo: Option<int>,
    asc: bool,
    limit: int)

  predicate Selects(q: EventQuery, r: Event) {
    && (q.subjects != {} ==> r.value.subject in q.subjects)
    && (q.kinds != {} ==> r.value.kind in q.kinds)
    && (q.timeFrom.Some? ==> r.createdAt >= q.timeFrom.value)
    && (q.timeTo.Some? ==> r.createdAt < q.timeTo.value)
  }

  function Selected(rows: set<Event>, q: EventQuery): set<Event> {
    set r | r in rows && Selects(q, r)
  }

  function Clamp(limit: int): (n: nat)
    ensures 1 <= n <= 1000 && (1 <= limit <= 1000 ==> n == limit)
    ensures (limit <= 0 ==> n == 10) && (limit > 1000 ==> n == 1000)
  {
    if limit <= 0 then 10 else if limit > 1000 then 1000 else limit
  }

  predicate IdsUnique<T(==)>(rows: set<Keyed<T>>) {
    forall a, b :: a in rows && b in rows && a.id == b.id ==> a == b
  }

  lemma {:induction false} TakeMore<T>(list: seq<T>, limit: nat)
    ensures var got := if |list| <= limit + 1 then list else list[..limit + 1];
      (|got| > limit <==> |list| > limit)
      && (|got| > limit ==> got[..limit] == list[..limit])
      && (|got| <= limit ==> got == list)
  {}

  class Sink {
    var rows: set<Event>

    ghost predicate Valid()
      reads this
    {
      IdsUnique(rows)
    }

    constructor ()
      ensures Valid() && rows == {}
    {
      rows := {};
    }

    /** INSERT; the primary key refuses a second event with the same id. */
    method CreateEvent(event: Event) returns (stored: bool)
      requires Valid()
      modifies this
      ensures Valid() && rows == if stored then old(rows) + {event} else old(rows)
      ensures stored <==> forall r :: r in old(rows) ==> r.id != event.id
    {
      stored := forall r :: r in rows ==> r.id != event.id;
      if stored { rows := rows + {event}; }
    }

    /** ORDER BY and LIMIT n of the rows the WHERE clause leaves. */
    method Query(q: EventQuery, cursor: Option<Cursor>, n: nat) returns (found: seq<Event>)
      requires Valid()
      ensures var all := Sorted(Rest(Selected(rows, q), cursor, q.asc), q.asc);
        found == if |all| <= n then all else all[..n]
    {
      var all := Sorted(Rest(Selected(rows, q), cursor, q.asc), q.asc);
      found := if |all| <= n then all else all[..n];
    }

    /** One page of the sorted read of the selected events. */
    method GetEvents(query: EventQuery, cursor: Option<Cursor>) returns (page: Page<EventData>, hasMore: bool)
      requires Valid()
      ensures page == PageOf(Selected(rows, query), query.asc, Clamp(query.limit), cursor)
      ensures hasMore <==> page.next.Some?
    {
      var limit := query.limit;
      if limit <= 0 { limit := 10; }
      if limit > 1000 { limit := 1000; }
      var found := Query(query, cursor, limit + 1);
      page, hasMore := CutPage(found, limit, Sorted(Rest(Selected(rows, query), cursor, query.asc), query.asc));
    }

    /** Collects the rows of the answer and cuts off the one that only shows that there are more. */
    method CutPage(found: seq<Event>, limit: nat, ghost all: seq<Event>) returns (page: Page<EventData>, hasMore: bool)
      requires limit >= 1 && found == if |all| <= limit + 1 then all else all[..limit + 1]
      ensures page == if |all| > limit then Page(all[..limit], Some(Pos(all[limit - 1]))) else Page(all, None)
      ensures hasMore <==> page.next.Some?
    {
      var items := [];
      for i := 0 to |found|
        invariant items == found[..i]
      {
        items := items + [found[i]];
      }
      TakeMore(all, limit);
      hasMore := |items| > limit;
      if hasMore { items := items[..limit]; }
      var next := None;
      if hasMore && |items| > 0 { next := Some(Pos(items[|items| - 1])); }
      page := Page(items, next);
    }
  }

  /** For any filters, either direction and any limit: following the cursors of a table from the start gives exactly
      the selected events in (created_at, id) order. */
  lemma {:induction false} EventPagesReadEverything(rows: set<Event>, q: EventQuery)
    requires IdsUnique(rows)
    ensures var all := Selected(rows, q); var read := Follow(all, q.asc, Clamp(q.limit), None);
      && Sorts(all, read.0, q.asc) && read.0 == Sorted(all, q.asc) && InTimeOrder(read.0, q.asc)
      && read.1 == Pages(|all|, Clamp(q.limit))
  {
    var all := Selected(rows, q);
    FollowingIsTheSortedRead(all, q.asc, Clamp(q.limit), None);
    SortedSorts(all, q.asc);
    OrderIsByTime(Sorted(all, q.asc), q.asc);
    assert Rest(all, None, q.asc) == all;
  }

  /** What the filters mean: none gives every event, a subject or a kind gives the events that have it, and time windows
      that touch share no event and leave none out. */
  lemma FiltersMean(rows: set<Event>, q: EventQuery, x: Id, kind: string, a: int, b: int, c: int)
    requires a <= b <= c
    ensures Selected(rows, EventQuery({}, {}, None, None, q.asc, q.limit)) == rows
    ensures Selected(rows, q.(subjects := {x}))
         == set r | r in Selected(rows, q.(subjects := {})) && r.value.subject == x
    ensures Selected(rows, q.(kinds := {kind})) == set r | r in Selected(rows, q.(kinds := {})) && r.value.kind == kind
    ensures var first := Selected(rows, q.(timeFrom := Some(a), timeTo := Some(b)));
      var second := Selected(rows, q.(timeFrom := Some(b), timeTo := Some(c)));
      && first !! second && first + second == Selected(rows, q.(timeFrom := Some(a), timeTo := Some(c)))
      && (forall r :: r in first ==> a <= r.createdAt < b) && forall r :: r in second ==> b <= r.createdAt < c
  {}

  // The product listing: newest first, at most a hundred at a time.

  type Listed = Keyed<Catalog.Product>

  datatype Listing = Listing(page: Page<Catalog.Product>) | LimitTooLarge

  function Offered(rows: set<Listed>, merchant: string, archived: Option<bool>): set<Listed> {
    set r | r in rows && r.value.merchantId == merchant && (archived.Some? ==> r.value.archived == archived.value)
  }

  method List(rows: set<Listed>, merchant: string, archived: Option<bool>, limit: int, cursor: Option<Cursor>)
    returns (l: Listing)
    requires IdsUnique(rows)
    ensures l == if limit > 100 then LimitTooLarge
                 else Listing(PageOf(Offered(rows, merchant, archived), false,
                                     if limit <= 0 then 20 else limit, cursor))
  {
    var n := limit;
    if n <= 0 { n := 20; }
    if n > 100 { return LimitTooLarge; }
    var all := Sorted(Rest(Offered(rows, merchant, archived), cursor, false), false);
    var found := if |all| <= n + 1 then all else all[..n + 1];
    var products := [];
    for i := 0 to |found|
      invariant products == found[..i]
    {
      products := products + [found[i]];
    }
    TakeMore(all, n);
    var next := None;
    if |products| > n {
      next := Some(Pos(products[n - 1]));
      products := products[..n];
    }
    return Listing(Page(products, next));
  }

  /** A merchant is offered its own products: the archived and the active ones, or both. */
  lemma ListingsMean(rows: set<Listed>, merchant: string)
    ensures Offered(rows, merchant, Some(true)) + Offered(rows, merchant, Some(false)) == Offered(rows, merchant, None)
    ensures Offered(rows, merchant, None) == set r | r in rows && r.value.merchantId == merchant
    ensures forall archived, r :: r in Offered(rows, merchant, Some(archived)) ==> r.value.archived == archived
  {}

  /** Products are created, edited, archived, unarchived and marked as purchased while a listing is followed to its end:
      each product that is offered all the time appears exactly once, as it was when its page was read, newest first. */
  lemma {:induction false} ListingMissesNothing(
      tables: seq<set<Listed>>, merchant: string, archived: Option<bool>, limit: nat)
    requires 1 <= limit <= 100 && forall i :: 0 <= i < |tables| ==> IdsUnique(tables[i])
    ensures var offers := seq(|tables|, i requires 0 <= i < |tables| => Offered(tables[i], merchant, archived));
      && AllUnique(offers) && WalkOk(offers, false, None, Walk(offers, false, limit, None))
      && InTimeOrder(Walk(offers, false, limit, None).0, false)
  {
    var offers := seq(|tables|, i requires 0 <= i < |tables| => Offered(tables[i], merchant, archived));
    WalkMissesNoPosition(offers, false, limit, None);
    OrderIsByTime(Walk(offers, false, limit, None).0, false);
  }
}
