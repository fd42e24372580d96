/**
 * The in-memory event store: a map from id to event, kept together with the order in
 * which ids were first inserted (the iteration order of a JavaScript Map), and a query
 * engine that filters conjunctively, sorts stably by start time and slices out a page.
 */
module EventStoreService {
  import opened Wrappers
  import opened Text
  import opened EventModel

  /** The fields a caller supplies to create an event; id and last-modified time are assigned by the store. */
  datatype EventData = EventData(
    title: string,
    startAt: Instant,
    endAt: Instant,
    location: string,
    status: Status,
    internalNotes: Option<string>,
    createdBy: Option<string>)

  /**
   * A partial update as the PATCH route builds it: both keys are always present, and a
   * None value overwrites the field with `undefined`.
   */
  datatype EventUpdate = EventUpdate(status: Option<Status>, internalNotes: Option<string>)

  /**
   * Query criteria. A date bound that is absent or empty imposes nothing; a location or
   * status list that is absent or empty imposes nothing. Status entries are raw strings,
   * as the list route passes them on unchecked. `page` and `limit` are None when absent or
   * not a number.
   */
  datatype EventQuery = EventQuery(
    dateFrom: Option<string>,
    dateTo: Option<string>,
    locations: Option<seq<string>>,
    status: Option<seq<string>>,
    page: Option<int>,
    limit: Option<int>)

  datatype Pagination = Pagination(page: int, limit: int, total: nat, totalPages: int)

  datatype Page<T> = Page(data: seq<T>, pagination: Pagination)

  const DEFAULT_LIMIT := 20
  const MAX_LIMIT := 100

  /** The calendar-date part of the start time: its text before the first `T`. */
  function DatePart(e: Event): string {
    Split(e.startAt.text, 'T')[0]
  }

  datatype Criterion = DateRange | Locations | Statuses | All

  predicate InDateRange(e: Event, q: EventQuery) {
    && (Truthy(q.dateFrom) ==> !LexLess(DatePart(e), q.dateFrom.value))
    && (Truthy(q.dateTo) ==> !LexLess(q.dateTo.value, DatePart(e)))
  }

  predicate AtListedLocation(e: Event, q: EventQuery) {
    q.locations.None? || |q.locations.value| == 0 || e.location in q.locations.value
  }

  predicate HasListedStatus(e: Event, q: EventQuery) {
    q.status.None? || |q.status.value| == 0 || (e.status.Some? && StatusName(e.status.value) in q.status.value)
  }

  predicate Satisfies(e: Event, q: EventQuery, c: Criterion) {
    match c
    case DateRange => InDateRange(e, q)
    case Locations => AtListedLocation(e, q)
    case Statuses => HasListedStatus(e, q)
    case All => InDateRange(e, q) && AtListedLocation(e, q) && HasListedStatus(e, q)
  }

  /** `Array.prototype.filter` with one criterion: the satisfying events, in their original order. */
  function Keep(s: seq<Event>, q: EventQuery, c: Criterion): (r: seq<Event>)
    ensures |r| <= |s|
  {
    if s == [] then [] else (if Satisfies(s[0], q, c) then [s[0]] else []) + Keep(s[1..], q, c)
  }

  /** Filtering keeps an event iff it is in the input and satisfies the criterion. */
  lemma {:induction false} KeepMembers(s: seq<Event>, q: EventQuery, c: Criterion, x: Event)
    ensures x in Keep(s, q, c) <==> x in s && Satisfies(x, q, c)
  {
    if s != [] {
      KeepMembers(s[1..], q, c, x);
      assert s == [s[0]] + s[1..];
    }
  }

  /** Filtering by every criterion at once keeps each event with the same multiplicity. */
  lemma {:induction false} KeepMultiset(s: seq<Event>, q: EventQuery, c: Criterion)
    ensures multiset(Keep(s, q, c)) <= multiset(s)
  {
    if s != [] {
      KeepMultiset(s[1..], q, c);
      assert s == [s[0]] + s[1..];
      var head := if Satisfies(s[0], q, c) then [s[0]] else [];
      assert multiset(Keep(s, q, c)) == multiset(head) + multiset(Keep(s[1..], q, c));
      assert multiset(s) == multiset([s[0]]) + multiset(s[1..]);
    }
  }

  lemma {:induction false} KeepAppend(a: seq<Event>, b: seq<Event>, q: EventQuery, c: Criterion)
    ensures Keep(a + b, q, c) == Keep(a, q, c) + Keep(b, q, c)
  {
    if a == [] {
      assert a + b == b;
    } else {
      assert (a + b)[1..] == a[1..] + b;
      KeepAppend(a[1..], b, q, c);
    }
  }

  /** Whether the source applies the criterion's filter at all: a date bound, or a non-empty list, is given. */
  predicate Active(q: EventQuery, c: Criterion) {
    match c
    case DateRange => Truthy(q.dateFrom) || Truthy(q.dateTo)
    case Locations => q.locations.Some? && |q.locations.value| > 0
    case Statuses => q.status.Some? && |q.status.value| > 0
    case All => true
  }

  /** One filter stage of the query: applied only when its criterion is active. */
  function Stage(s: seq<Event>, q: EventQuery, c: Criterion): seq<Event> {
    if Active(q, c) then Keep(s, q, c) else s
  }

  /** The three guarded filter stages of the query are one conjunctive filter. */
  lemma {:induction false} StagesCompose(s: seq<Event>, q: EventQuery)
    ensures Stage(Stage(Stage(s, q, DateRange), q, Locations), q, Statuses) == Keep(s, q, All)
  {
    if s != [] {
      StagesCompose(s[1..], q);
      var x := s[0];
      assert s == [x] + s[1..];
      var d, l, st := DateRange, Locations, Statuses;
      KeepAppend([x], s[1..], q, d);
      var s1 := Stage(s, q, d);
      assert s1 == Stage([x], q, d) + Stage(s[1..], q, d);
      KeepAppend(Stage([x], q, d), Stage(s[1..], q, d), q, l);
      var s2 := Stage(s1, q, l);
      assert s2 == Stage(Stage([x], q, d), q, l) + Stage(Stage(s[1..], q, d), q, l);
      KeepAppend(Stage(Stage([x], q, d), q, l), Stage(Stage(s[1..], q, d), q, l), q, st);
      assert Keep([x], q, d) == (if InDateRange(x, q) then [x] else []);
      assert Keep([x], q, l) == (if AtListedLocation(x, q) then [x] else []);
      assert Keep([x], q, st) == (if HasListedStatus(x, q) then [x] else []);
      assert Keep([], q, l) == [] && Keep([], q, st) == [];
    }
  }

  /** The sort key: `new Date(startAt).getTime()`. */
  function StartKey(e: Event): int {
    e.startAt.millis
  }

  /** Inserts `x` before the first element whose start is not earlier, so that equal keys keep `x` first. */
  function Insert(x: Event, s: seq<Event>): seq<Event> {
    if s == [] || StartKey(x) <= StartKey(s[0]) then [x] + s else [s[0]] + Insert(x, s[1..])
  }

  /** The stable ascending sort by start time that `Array.prototype.sort` performs with `a - b`. */
  function SortByStart(s: seq<Event>): seq<Event> {
    if s == [] then [] else Insert(s[0], SortByStart(s[1..]))
  }

  predicate SortedByStart(s: seq<Event>) {
    forall i, j :: 0 <= i < j < |s| ==> StartKey(s[i]) <= StartKey(s[j])
  }

  /** The events of `s` that start at `k`, in their order in `s`. */
  function StartingAt(s: seq<Event>, k: int): seq<Event> {
    if s == [] then [] else (if StartKey(s[0]) == k then [s[0]] else []) + StartingAt(s[1..], k)
  }

  lemma {:induction false} InsertMultiset(x: Event, s: seq<Event>)
    ensures multiset(Insert(x, s)) == multiset(s) + multiset{x}
  {
    if s != [] && StartKey(x) > StartKey(s[0]) {
      InsertMultiset(x, s[1..]);
      assert s == [s[0]] + s[1..];
    }
  }

  lemma {:induction false} InsertSorted(x: Event, s: seq<Event>)
    requires SortedByStart(s)
    ensures SortedByStart(Insert(x, s))
  {
    if s != [] && StartKey(x) > StartKey(s[0]) {
      InsertSorted(x, s[1..]);
      InsertMultiset(x, s[1..]);
      var t := Insert(x, s[1..]);
      forall i | 0 <= i < |t| ensures StartKey(s[0]) <= StartKey(t[i]) {
        assert t[i] in multiset(t);
        assert t[i] == x || t[i] in s[1..];
      }
    }
  }

  lemma {:induction false} InsertStartingAt(x: Event, s: seq<Event>, k: int)
    ensures StartingAt(Insert(x, s), k) == (if StartKey(x) == k then [x] else []) + StartingAt(s, k)
  {
    var mine: seq<Event> := if StartKey(x) == k then [x] else [];
    if s != [] && StartKey(x) > StartKey(s[0]) {
      var t := Insert(x, s[1..]);
      var first: seq<Event> := if StartKey(s[0]) == k then [s[0]] else [];
      var rest := StartingAt(s[1..], k);
      InsertStartingAt(x, s[1..], k);
      assert ([s[0]] + t)[0] == s[0] && ([s[0]] + t)[1..] == t;
      assert StartingAt(Insert(x, s), k) == first + (mine + rest);
      assert StartingAt(s, k) == first + rest;
      assert first == [] || mine == [];
      assert first + (mine + rest) == mine + (first + rest);
    } else {
      assert ([x] + s)[0] == x && ([x] + s)[1..] == s;
      assert StartingAt(Insert(x, s), k) == mine + StartingAt(s, k);
    }
  }

  /**
   * The sort orders by start time, is a permutation, and is stable: the events sharing a
   * start time come out in the order they went in.
   */
  lemma {:induction false} SortFacts(s: seq<Event>)
    ensures SortedByStart(SortByStart(s))
    ensures multiset(SortByStart(s)) == multiset(s)
    ensures forall k :: StartingAt(SortByStart(s), k) == StartingAt(s, k)
  {
    if s != [] {
      SortFacts(s[1..]);
      InsertSorted(s[0], SortByStart(s[1..]));
      InsertMultiset(s[0], SortByStart(s[1..]));
      forall k ensures StartingAt(SortByStart(s), k) == StartingAt(s, k) {
        InsertStartingAt(s[0], SortByStart(s[1..]), k);
      }
      assert s == [s[0]] + s[1..];
    }
  }

  /** JavaScript's relative index for `slice`: negative counts from the end, then clamped to [0, n]. */
  function SliceIndex(i: int, n: nat): (r: nat)
    ensures r <= n
  {
    if i < 0 then (if n + i < 0 then 0 else n + i) else if i > n then n else i
  }

  /** `Array.prototype.slice(start, end)`. */
  function JsSlice<T>(s: seq<T>, start: int, end: int): seq<T> {
    var from, to := SliceIndex(start, |s|), SliceIndex(end, |s|);
    if from < to then s[from..to] else []
  }

  /** `query.page || 1`. */
  function PageNumber(q: EventQuery): int {
    if q.page.None? || q.page.value == 0 then 1 else q.page.value
  }

  /** `Math.min(query.limit || 20, 100)`. */
  function PageLimit(q: EventQuery): (l: int)
    ensures l != 0 && l <= MAX_LIMIT
  {
    var asked := if q.limit.None? || q.limit.value == 0 then DEFAULT_LIMIT else q.limit.value;
    if asked < MAX_LIMIT then asked else MAX_LIMIT
  }

  function Paginate<T>(matches: seq<T>, page: int, limit: int): Page<T>
    requires limit != 0
  {
    var startIndex := (page - 1) * limit;
    Page(JsSlice(matches, startIndex, startIndex + limit),
         Pagination(page, limit, |matches|, CeilDiv(|matches|, limit)))
  }

  /** The matching events in result order, before slicing. */
  function Matching(records: seq<Event>, q: EventQuery): seq<Event> {
    SortByStart(Keep(records, q, All))
  }

  /** What `query` returns over the stored events taken in insertion order. */
  function QueryResult(records: seq<Event>, q: EventQuery): Page<Event> {
    Paginate(Matching(records, q), PageNumber(q), PageLimit(q))
  }

  /**
   * A stored event matches iff it satisfies every criterion; the matches are ordered by
   * start time, with events sharing a start time in insertion order.
   */
  lemma QueryMatches(records: seq<Event>, q: EventQuery)
    ensures forall x :: x in Matching(records, q) <==> x in records && Satisfies(x, q, All)
    ensures multiset(Matching(records, q)) <= multiset(records)
    ensures SortedByStart(Matching(records, q))
    ensures forall k :: StartingAt(Matching(records, q), k) == StartingAt(Keep(records, q, All), k)
  {
    var kept := Keep(records, q, All);
    SortFacts(kept);
    KeepMultiset(records, q, All);
    forall x ensures x in Matching(records, q) <==> x in records && Satisfies(x, q, All) {
      KeepMembers(records, q, All, x);
      assert x in Matching(records, q) <==> x in multiset(Matching(records, q));
    }
  }

  /**
   * For a positive page and limit the data is the window [(page-1)*limit, page*limit) of
   * the matches, clipped at the end, at most `limit` long and empty once the window starts
   * past the end.
   */
  lemma PaginateWindow<T>(m: seq<T>, page: int, limit: int)
    requires page >= 1 && limit >= 1
    ensures var from := (page - 1) * limit;
      var data := Paginate(m, page, limit).data;
      && from >= 0
      && (from < |m| ==> data == m[from..if from + limit < |m| then from + limit else |m|])
      && (from >= |m| ==> data == [])
      && |data| <= limit
  {
    var n: nat := page - 1;
    var from := n * limit;
    SliceWindow(m, from, limit);
  }

  lemma SliceWindow<T>(m: seq<T>, from: nat, limit: nat)
    ensures from < |m| ==> JsSlice(m, from, from + limit) == m[from..if from + limit < |m| then from + limit else |m|]
    ensures from >= |m| ==> JsSlice(m, from, from + limit) == []
    ensures |JsSlice(m, from, from + limit)| <= limit
  {
  }

  /**
   * Pagination metadata: page defaults to 1, limit to 20 capped at 100, total counts every
   * match and totalPages = ceil(total / limit); the data is the page's window of the matches.
   */
  lemma QueryPagination(records: seq<Event>, q: EventQuery)
    ensures var r := QueryResult(records, q);
      && r.pagination.page == (if q.page.None? || q.page.value == 0 then 1 else q.page.value)
      && r.pagination.limit == (if q.limit.None? || q.limit.value == 0 then DEFAULT_LIMIT
                               else if q.limit.value < MAX_LIMIT then q.limit.value else MAX_LIMIT)
      && r.pagination.total == |Matching(records, q)|
      && r.pagination.totalPages == CeilDiv(r.pagination.total, r.pagination.limit)
      && r == Paginate(Matching(records, q), r.pagination.page, r.pagination.limit)
  {
  }

  /** The status filter `queryPublic` imposes. */
  const PUBLIC_STATUSES: seq<string> := ["PUBLISHED", "CANCELLED"]

  function PublicQuery(q: EventQuery): EventQuery {
    q.(status := Some(PUBLIC_STATUSES))
  }

  /** Projects each event, dropping the ones without a public projection. */
  function Project(s: seq<Event>, now: int): (r: seq<PublicEvent>)
    ensures |r| <= |s|
  {
    if s == [] then []
    else match ToPublicEvent(s[0], now)
      case None => Project(s[1..], now)
      case Some(p) => [p] + Project(s[1..], now)
  }

  /** What `queryPublic` returns. */
  function PublicQueryResult(records: seq<Event>, q: EventQuery, now: int): Page<PublicEvent> {
    var r := QueryResult(records, PublicQuery(q));
    Page(Project(r.data, now), r.pagination)
  }

  /** Projection drops nothing from a sequence of public events and keeps each one's fields. */
  lemma {:induction false} ProjectPublic(s: seq<Event>, now: int)
    requires forall i :: 0 <= i < |s| ==> IsPublicStatus(s[i].status)
    ensures |Project(s, now)| == |s|
    ensures forall i :: 0 <= i < |s| ==> ToPublicEvent(s[i], now) == Some(Project(s, now)[i])
  {
    if s != [] {
      ProjectPublic(s[1..], now);
    }
  }

  /**
   * `queryPublic` ignores any status the caller gives, returns only PUBLISHED or CANCELLED
   * events, projects every one of the page's events, and copies the pagination unchanged.
   */
  lemma PublicQueryFacts(records: seq<Event>, q: EventQuery, now: int)
    ensures var pub := PublicQueryResult(records, q, now);
      var priv := QueryResult(records, PublicQuery(q));
      && pub.pagination == priv.pagination
      && |pub.data| == |priv.data|
      && (forall i :: 0 <= i < |pub.data| ==> ToPublicEvent(priv.data[i], now) == Some(pub.data[i]))
      && (forall i :: 0 <= i < |pub.data| ==> pub.data[i].status != DRAFT)
    ensures forall st :: PublicQueryResult(records, q.(status := st), now) == PublicQueryResult(records, q, now)
  {
    var priv := QueryResult(records, PublicQuery(q));
    var m := Matching(records, PublicQuery(q));
    QueryMatches(records, PublicQuery(q));
    forall i | 0 <= i < |priv.data| ensures IsPublicStatus(priv.data[i].status) {
      var x := priv.data[i];
      assert x in m by {
        var p, l := priv.pagination.page, priv.pagination.limit;
        var n := |m|;
        var from, to := SliceIndex((p - 1) * l, n), SliceIndex((p - 1) * l + l, n);
        assert priv.data == m[from..to];
        assert x == m[from + i];
      }
      assert Satisfies(x, PublicQuery(q), Statuses);
    }
    ProjectPublic(priv.data, now);
    forall st ensures PublicQuery(q.(status := st)) == PublicQuery(q) {
    }
  }

  /** The stored events in insertion order. */
  function RecordsOf(m: map<string, Event>, ids: seq<string>): seq<Event> {
    if ids == [] then [] else (if ids[0] in m then [m[ids[0]]] else []) + RecordsOf(m, ids[1..])
  }

  lemma {:induction false} RecordsOfAppend(m: map<string, Event>, ids: seq<string>, id: string)
    requires id in m
    ensures RecordsOf(m, ids + [id]) == RecordsOf(m, ids) + [m[id]]
  {
    if ids != [] {
      assert (ids + [id])[1..] == ids[1..] + [id];
      RecordsOfAppend(m, ids[1..], id);
    } else {
      assert RecordsOf(m, [id]) == [m[id]] + RecordsOf(m, []);
    }
  }

  lemma {:induction false} RecordsOfFresh(m: map<string, Event>, ids: seq<string>, id: string, e: Event)
    requires id !in ids
    ensures RecordsOf(m[id := e], ids) == RecordsOf(m, ids)
  {
    if ids != [] {
      RecordsOfFresh(m, ids[1..], id, e);
    }
  }

  class EventStore {
    var events: map<string, Event>
    /** Ids in first-insertion order, the iteration order of the source's Map. */
    var order: seq<string>

    ghost predicate Valid()
      reads this
    {
      && (forall i :: 0 <= i < |order| ==> order[i] in events)
      && (forall id :: id in events ==> id in order)
      && (forall i, j :: 0 <= i < j < |order| ==> order[i] != order[j])
      && (forall id :: id in events ==> events[id].id == id)
    }

    /** The stored events in insertion order: `Array.from(this.events.values())`. */
    function Records(): seq<Event>
      reads this
    {
      RecordsOf(events, order)
    }

    constructor ()
      ensures Valid() && events == map[] && order == []
    {
      events := map[];
      order := [];
    }

    /**
     * Stores a new event under `id` (the fresh identifier the source draws from uuid),
     * stamped with `updatedAt`. A reused id overwrites in place, as `Map.set` does.
     */
    method Create(data: EventData, id: string, updatedAt: string) returns (e: Event)
      requires Valid()
      modifies this
      ensures Valid()
      ensures e == Event(id, data.title, data.startAt, data.endAt, data.location, Some(data.status),
                         data.internalNotes, data.createdBy, updatedAt)
      ensures events == old(events)[id := e]
      ensures id !in old(events) ==> order == old(order) + [id] && Records() == old(Records()) + [e]
      ensures id in old(events) ==> order == old(order)
    {
      e := Event(id, data.title, data.startAt, data.endAt, data.location, Some(data.status),
                 data.internalNotes, data.createdBy, updatedAt);
      if id !in events {
        RecordsOfFresh(events, order, id, e);
        RecordsOfAppend(events[id := e], order, id);
        order := order + [id];
      }
      events := events[id := e];
    }

    method FindById(id: string) returns (r: Option<Event>)
      ensures r.Some? <==> id in events
      ensures r.Some? ==> r.value == events[id]
    {
      if id in events {
        r := Some(events[id]);
      } else {
        r := None;
      }
    }

    /**
     * Overwrites the status and notes of the event under `id` with the update's values
     * (None included), keeps its id, and restamps it; an unknown id changes nothing.
     */
    method Update(id: string, u: EventUpdate, updatedAt: string) returns (r: Option<Event>)
      requires Valid()
      modifies this
      ensures Valid() && order == old(order)
      ensures id !in old(events) ==> r.None? && events == old(events)
      ensures id in old(events) ==>
        && r == Some(old(events)[id].(status := u.status, internalNotes := u.internalNotes, updatedAt := updatedAt))
        && events == old(events)[id := r.value]
    {
      if id !in events {
        return None;
      }
      var updated := events[id].(status := u.status, internalNotes := u.internalNotes, updatedAt := updatedAt);
      events := events[id := updated];
      r := Some(updated);
    }

    /** Filters, sorts and pages the stored events without changing them. */
    method Query(q: EventQuery) returns (r: Page<Event>)
      requires Valid()
      ensures r == QueryResult(Records(), q)
    {
      var all := Records();
      var filtered := all;
      if Truthy(q.dateFrom) || Truthy(q.dateTo) {
        filtered := Keep(filtered, q, DateRange);
      }
      if q.locations.Some? && |q.locations.value| > 0 {
        filtered := Keep(filtered, q, Locations);
      }
      if q.status.Some? && |q.status.value| > 0 {
        filtered := Keep(filtered, q, Statuses);
      }
      assert filtered == Stage(Stage(Stage(all, q, DateRange), q, Locations), q, Statuses);
      StagesCompose(all, q);

      var sorted := SortByStart(filtered);
      assert sorted == Matching(Records(), q);
      var page := PageNumber(q);
      var limit := PageLimit(q);
      var total := |sorted|;
      var totalPages := CeilDiv(total, limit);
      var startIndex := (page - 1) * limit;
      var endIndex := startIndex + limit;
      r := Page(JsSlice(sorted, startIndex, endIndex), Pagination(page, limit, total, totalPages));
    }

    /** Queries with the status filter forced to PUBLISHED or CANCELLED and projects each result. */
    method QueryPublic(q: EventQuery, now: int) returns (r: Page<PublicEvent>)
      requires Valid()
      ensures r == PublicQueryResult(Records(), q, now)
    {
      var result := Query(PublicQuery(q));
      var projected: seq<PublicEvent> := [];
      var i := 0;
      while i < |result.data|
        invariant 0 <= i <= |result.data|
        invariant projected == Project(result.data[..i], now)
      {
        ProjectAppend(result.data[..i], result.data[i], now);
        assert result.data[..i + 1] == result.data[..i] + [result.data[i]];
        match ToPublicEvent(result.data[i], now) {
          case Some(p) => projected := projected + [p];
          case None =>
        }
        i := i + 1;
      }
      assert result.data[..i] == result.data;
      r := Page(projected, result.pagination);
    }

    method Clear()
      modifies this
      ensures Valid() && events == map[] && order == [] && Records() == []
    {
      events := map[];
      order := [];
    }
  }

  lemma {:induction false} ProjectAppend(s: seq<Event>, x: Event, now: int)
    ensures Project(s + [x], now) == Project(s, now) + (match ToPublicEvent(x, now) case Some(p) => [p] case None => [])
  {
    if s == [] {
      assert [x][1..] == [];
    } else {
      assert (s + [x])[1..] == s[1..] + [x];
      ProjectAppend(s[1..], x, now);
    }
  }
}
