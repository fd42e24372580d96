/**
 * The admin routes of the in-memory server (behind the bearer-token guard): create an
 * event, change its status or notes, and list events with filters.
 */
module EventRoutes {
  import opened Wrappers
  import opened Text
  import opened EventModel
  import opened EventStoreService
  import opened SummaryCacheService
  import opened ApiErrors
  import opened ServerHttp

  /** The status a created event gets: the requested one when given, DRAFT otherwise. */
  function InitialStatus(status: Option<string>): (s: Status)
    requires Truthy(status) ==> StatusFromText(status.value).Some?
    ensures Truthy(status) ==> StatusName(s) == status.value
    ensures !Truthy(status) ==> s == DRAFT
  {
    if Truthy(status) then StatusFromText(status.value).value else DRAFT
  }

  /** The record a valid create request asks the store to keep. */
  function CreatedData(input: CreateEventInput, parse: string -> Option<int>, now: int): (data: EventData)
    requires ValidateCreateEvent(input, parse, now) == []
    ensures data.title == input.title && data.location == input.location
    ensures data.startAt.text == input.startAt && Some(data.startAt.millis) == parse(input.startAt)
    ensures data.endAt.text == input.endAt && Some(data.endAt.millis) == parse(input.endAt)
    ensures data.startAt.millis < data.endAt.millis && now <= data.startAt.millis
    ensures data.internalNotes == input.internalNotes && data.createdBy == input.createdBy
  {
    CreateRule(input, parse, now);
    DatesRule(input.startAt, input.endAt, parse, now);
    EventData(input.title, Instant(input.startAt, parse(input.startAt).value), Instant(input.endAt, parse(input.endAt).value),
              input.location, InitialStatus(input.status), input.internalNotes, input.createdBy)
  }

  /**
   * `POST /events`. A request with any validation error gets 400 and creates nothing; a valid
   * one is stored under the fresh `id` with `updatedAt` and returned with 201.
   */
  method CreateEvent(store: EventStore, input: CreateEventInput, parse: string -> Option<int>, now: int,
                     id: string, updatedAt: string)
    returns (resp: Response)
    requires store.Valid()
    modifies store
    ensures store.Valid()
    ensures var errors := ValidateCreateEvent(input, parse, now);
      errors != [] ==>
        && resp == Json(400, ErrorBody(ValidationError(errors)))
        && store.events == old(store.events) && store.order == old(store.order)
    ensures var errors := ValidateCreateEvent(input, parse, now);
      errors == [] ==>
        var data := CreatedData(input, parse, now);
        var e := Event(id, data.title, data.startAt, data.endAt, data.location, Some(data.status),
                       data.internalNotes, data.createdBy, updatedAt);
        && resp == Json(201, EventBody(e))
        && store.events == old(store.events)[id := e]
        && (id !in old(store.events) ==> store.order == old(store.order) + [id])
        && (id in old(store.events) ==> store.order == old(store.order))
  {
    var errors := ValidateCreateEvent(input, parse, now);
    if |errors| > 0 {
      return Json(400, ErrorBody(ValidationError(errors)));
    }
    var event := store.Create(CreatedData(input, parse, now), id, updatedAt);
    resp := Json(201, EventBody(event));
  }

  /** The raw PATCH body: both keys are read, each None when absent. */
  datatype PatchBody = PatchBody(status: Option<string>, internalNotes: Option<string>)

  /**
   * The errors a PATCH gets: none unless a status is given; then the membership check, and
   * only when that passes, the transition check against the stored status.
   */
  function PatchErrors(current: Option<Status>, requested: Option<string>): (errors: seq<string>)
    ensures !Truthy(requested) ==> errors == []
    ensures Truthy(requested) && StatusFromText(requested.value).None? ==> errors == [STATUS_INVALID]
    ensures Truthy(requested) && StatusFromText(requested.value).Some? ==>
      errors == ValidateStatusTransition(current, StatusFromText(requested.value).value)
  {
    if !Truthy(requested) then []
    else
      var statusErrors := ValidateStatus(requested.value);
      statusErrors + (if statusErrors == [] then ValidateStatusTransition(current, StatusFromText(requested.value).value) else [])
  }

  /** The update a PATCH applies: both keys, the status parsed (it has passed the check). */
  function PatchUpdate(body: PatchBody): (u: EventUpdate)
    ensures u.internalNotes == body.internalNotes
    ensures u.status.Some? <==> Truthy(body.status) && StatusFromText(body.status.value).Some?
    ensures u.status.Some? ==> StatusName(u.status.value) == body.status.value
  {
    EventUpdate(if Truthy(body.status) then StatusFromText(body.status.value) else None, body.internalNotes)
  }

  /**
   * A PATCH without a status is never checked, and its update leaves the status undefined;
   * from an undefined status every transition passes. So a CANCELLED event, which no status
   * PATCH may leave, can be reopened by a notes-only PATCH followed by any status PATCH.
   */
  lemma CancelledEscape(notes: Option<string>, target: Status)
    ensures PatchErrors(Some(CANCELLED), None) == []
    ensures PatchUpdate(PatchBody(None, notes)).status == None
    ensures PatchErrors(None, Some(StatusName(target))) == []
    ensures PatchUpdate(PatchBody(Some(StatusName(target)), notes)).status == Some(target)
    ensures PatchErrors(Some(CANCELLED), Some(StatusName(target))) != []
  {
    StatusNameRoundTrip(target);
    TransitionFromUndefined(target);
    TransitionWhitelist(CANCELLED, target);
  }

  /** The projection the PATCH route builds to invalidate the summary cache. */
  function InvalidationKeyEvent(e: Event, now: int): (p: PublicEvent)
    ensures p.title == e.title && p.location == e.location && p.startAt == e.startAt && p.endAt == e.endAt
  {
    PublicEvent(e.id, e.title, e.startAt, e.endAt, e.location, e.status.GetOr(PUBLISHED), IsUpcoming(e.startAt, now))
  }

  /** Whether the PATCH invalidates the cache: a status was given and it differs from the stored one. */
  predicate Invalidates(existing: Event, body: PatchBody) {
    Truthy(body.status) && (existing.status.None? || body.status.value != StatusName(existing.status.value))
  }

  /**
   * `PATCH /events/:id`. Unknown id: 404 before any check. Any error: 400, nothing changes.
   * Otherwise status and notes are overwritten, the record restamped, and the cache entry of
   * the event dropped iff the status changed.
   */
  method UpdateEvent(store: EventStore, cache: SummaryCache, id: string, body: PatchBody, now: int, updatedAt: string)
    returns (resp: Response)
    requires store.Valid()
    modifies store, cache
    ensures store.Valid() && store.order == old(store.order)
    ensures id !in old(store.events) ==>
      && resp == UnknownEventReply(id)
      && store.events == old(store.events) && cache.cache == old(cache.cache)
    ensures id in old(store.events) && PatchErrors(old(store.events)[id].status, body.status) != [] ==>
      && resp == Json(400, ErrorBody(ValidationError(PatchErrors(old(store.events)[id].status, body.status))))
      && store.events == old(store.events) && cache.cache == old(cache.cache)
    ensures id in old(store.events) && PatchErrors(old(store.events)[id].status, body.status) == [] ==>
      var existing := old(store.events)[id];
      var u := PatchUpdate(body);
      var updated := existing.(status := u.status, internalNotes := u.internalNotes, updatedAt := updatedAt);
      && resp == Json(200, EventBody(updated))
      && store.events == old(store.events)[id := updated]
      && (Invalidates(existing, body) ==>
            cache.cache == old(cache.cache) - {CacheKey(InvalidationKeyEvent(updated, now), cache.sha256)})
      && (!Invalidates(existing, body) ==> cache.cache == old(cache.cache))
  {
    var existing := store.FindById(id);
    if existing.None? {
      return UnknownEventReply(id);
    }
    var errors := PatchErrors(existing.value.status, body.status);
    if |errors| > 0 {
      return Json(400, ErrorBody(ValidationError(errors)));
    }
    var updated := store.Update(id, PatchUpdate(body), updatedAt);
    var event := updated.value;
    if Invalidates(existing.value, body) {
      cache.Invalidate(InvalidationKeyEvent(event, now));
    }
    resp := Json(200, EventBody(event));
  }

  /** The query `GET /events` hands to `query`. */
  function ListQuery(params: QueryParams, parseInt: string -> Option<int>): (q: EventQuery)
    ensures q.dateFrom == params.dateFrom && q.dateTo == params.dateTo
    ensures q.locations == ListParam(params.locations) && q.status == ListParam(params.status)
    ensures q.page == Some(IntParam(params.page, parseInt, 1))
    ensures q.limit == Some(IntParam(params.limit, parseInt, DEFAULT_LIMIT))
  {
    EventQuery(params.dateFrom, params.dateTo, ListParam(params.locations), ListParam(params.status),
               Some(IntParam(params.page, parseInt, 1)), Some(IntParam(params.limit, parseInt, DEFAULT_LIMIT)))
  }

  /** `GET /events`. */
  method ListEvents(store: EventStore, params: QueryParams, parseInt: string -> Option<int>) returns (resp: Response)
    requires store.Valid()
    ensures resp == Json(200, EventPage(QueryResult(store.Records(), ListQuery(params, parseInt))))
  {
    var result := store.Query(ListQuery(params, parseInt));
    resp := Json(200, EventPage(result));
  }
}
