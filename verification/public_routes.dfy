/**
 * The public routes of the in-memory server: the list of public events, and the summary
 * endpoint that serves a cached summary or streams a freshly generated one as Server-Sent
 * Events and caches it afterwards.
 */
module PublicRoutes {
  import opened Wrappers
  import opened Text
  import opened EventModel
  import opened EventStoreService
  import opened SummaryGenerator
  import opened SummaryCacheService
  import opened ApiErrors
  import opened ServerHttp

  /** The query `GET /public/events` hands to `queryPublic`; a status parameter is not read. */
  function PublicListQuery(params: QueryParams, parseInt: string -> Option<int>): (q: EventQuery)
    ensures q.dateFrom == params.dateFrom && q.dateTo == params.dateTo
    ensures q.locations == ListParam(params.locations) && q.status.None?
    ensures q.page == Some(IntParam(params.page, parseInt, 1))
    ensures q.limit == Some(IntParam(params.limit, parseInt, DEFAULT_LIMIT))
  {
    EventQuery(params.dateFrom, params.dateTo, ListParam(params.locations), None,
               Some(IntParam(params.page, parseInt, 1)), Some(IntParam(params.limit, parseInt, DEFAULT_LIMIT)))
  }

  /**
   * The page the list route reports: page = parseInt(page) or 1, limit = parseInt(limit)
   * or 20, capped at 100; only PUBLISHED and CANCELLED events are listed.
   */
  lemma PublicListPaging(records: seq<Event>, params: QueryParams, parseInt: string -> Option<int>, now: int)
    ensures var r := PublicQueryResult(records, PublicListQuery(params, parseInt), now);
      var l := IntParam(params.limit, parseInt, DEFAULT_LIMIT);
      && r.pagination.page == IntParam(params.page, parseInt, 1)
      && r.pagination.limit == (if l < MAX_LIMIT then l else MAX_LIMIT)
      && forall i :: 0 <= i < |r.data| ==> r.data[i].status != DRAFT
  {
    var q := PublicListQuery(params, parseInt);
    QueryPagination(records, PublicQuery(q));
    PublicQueryFacts(records, q, now);
  }

  /** `GET /public/events`. */
  method ListPublicEvents(store: EventStore, params: QueryParams, parseInt: string -> Option<int>, now: int)
    returns (resp: Response)
    requires store.Valid()
    ensures resp == Json(200, PublicPage(PublicQueryResult(store.Records(), PublicListQuery(params, parseInt), now)))
  {
    var q := PublicListQuery(params, parseInt);
    var result := store.QueryPublic(q, now);
    resp := Json(200, PublicPage(result));
  }

  /** The Server-Sent Events headers, ending with the cache verdict. */
  function SseHeaders(hit: bool): seq<Header> {
    STREAM_HEADERS + [Header("X-Summary-Cache", if hit then "HIT" else "MISS")]
  }

  const STREAM_HEADERS := [Header("Content-Type", "text/event-stream"),
                           Header("Cache-Control", "no-cache, no-transform"),
                           Header("Connection", "keep-alive")]

  /** A `data:` event carrying `text`. */
  function DataEvent(text: string): string {
    "data: " + text + "\n\n"
  }

  /** A named event: its `event:` line followed by a `data:` event. */
  function NamedEvent(name: string, data: string): string {
    "event: " + name + "\n" + DataEvent(data)
  }

  const DONE_EVENT := NamedEvent("done", "")
  const ERROR_EVENT := NamedEvent("error", "Failed to generate summary")

  /** The write for each streamed chunk: its text followed by a space. */
  function ChunkEvents(chunks: seq<string>): (writes: seq<string>)
    ensures |writes| == |chunks|
    ensures forall k :: 0 <= k < |chunks| ==> writes[k] == DataEvent(chunks[k] + " ")
  {
    if chunks == [] then [] else [DataEvent(chunks[0] + " ")] + ChunkEvents(chunks[1..])
  }

  /** `fullSummary` after the chunks: each chunk followed by a space. */
  function Accumulated(chunks: seq<string>): string {
    if chunks == [] then "" else Accumulated(chunks[..|chunks| - 1]) + chunks[|chunks| - 1] + " "
  }

  /** The accumulated text is the chunks joined by spaces, plus one trailing space. */
  lemma {:induction false} AccumulatedJoin(chunks: seq<string>)
    requires |chunks| >= 1
    ensures Accumulated(chunks) == Join(chunks, ' ') + " "
  {
    var n := |chunks|;
    if n > 1 {
      var init := chunks[..n - 1];
      AccumulatedJoin(init);
      assert chunks == init + [chunks[n - 1]];
      JoinAppend(init, [chunks[n - 1]], ' ');
    }
  }

  /**
   * What the summary endpoint caches after streaming every chunk: the trimmed join of the
   * chunks, which is the trimmed generated summary.
   */
  lemma CachedSummaryText(summary: string)
    ensures Trim(Accumulated(Chunking(summary))) == Trim(summary)
  {
    ChunkingNonEmpty(summary);
    AccumulatedJoin(Chunking(summary));
    ChunkingRejoins(summary);
    TrimTrailingBlank(summary);
  }

  /** Whether the generator fails, given that it fails after `failAt` chunks if that many exist. */
  predicate GenerationFails(chunks: seq<string>, failAt: Option<nat>) {
    failAt.Some? && failAt.value <= |chunks|
  }

  /**
   * The MISS loop: writes one event per chunk the generator yields and accumulates the
   * text; a failure after `failAt` chunks ends the loop with no text to cache.
   */
  method RelayChunks(fragments: seq<Fragment>, failAt: Option<nat>) returns (writes: seq<string>, fullSummary: Option<string>)
    ensures var chunks := Texts(fragments);
      && (GenerationFails(chunks, failAt) ==> writes == ChunkEvents(chunks[..failAt.value]) && fullSummary.None?)
      && (!GenerationFails(chunks, failAt) ==> writes == ChunkEvents(chunks) && fullSummary == Some(Accumulated(chunks)))
  {
    ghost var chunks := Texts(fragments);
    var stop := if failAt.Some? && failAt.value <= |fragments| then failAt.value else |fragments|;
    var text := "";
    writes := [];
    var k := 0;
    while k < stop
      invariant 0 <= k <= stop
      invariant text == Accumulated(chunks[..k])
      invariant writes == ChunkEvents(chunks[..k])
    {
      var chunk := fragments[k].text;
      RelayStep(chunks, k);
      text := text + chunk + " ";
      writes := writes + [DataEvent(chunk + " ")];
      k := k + 1;
    }
    if failAt.Some? && failAt.value <= |fragments| {
      fullSummary := None;
    } else {
      assert chunks[..k] == chunks;
      fullSummary := Some(text);
    }
  }

  /** One more chunk adds its write and its text. */
  lemma RelayStep(chunks: seq<string>, k: nat)
    requires k < |chunks|
    ensures Accumulated(chunks[..k + 1]) == Accumulated(chunks[..k]) + chunks[k] + " "
    ensures ChunkEvents(chunks[..k + 1]) == ChunkEvents(chunks[..k]) + [DataEvent(chunks[k] + " ")]
  {
    assert chunks[..k + 1][..k] == chunks[..k];
    var before, after := ChunkEvents(chunks[..k]), ChunkEvents(chunks[..k + 1]);
    assert forall i :: 0 <= i < k + 1 ==> after[i] == (before + [DataEvent(chunks[k] + " ")])[i];
  }

  /** The texts of the streamed fragments. */
  function Texts(fragments: seq<Fragment>): (texts: seq<string>)
    ensures |texts| == |fragments| && forall k :: 0 <= k < |fragments| ==> texts[k] == fragments[k].text
  {
    if fragments == [] then [] else [fragments[0].text] + Texts(fragments[1..])
  }

  /**
   * The MISS path of the summary endpoint: generate, relay each chunk as it comes, and
   * cache the trimmed text only when the generator got to the end.
   */
  method StreamMiss(cache: SummaryCache, event: PublicEvent, fmt: Formatters, failAt: Option<nat>, doneAt: int)
    returns (resp: Response)
    modifies cache
    ensures var chunks := Chunking(SummaryText(event, fmt));
      && resp.Stream? && resp.headers == SseHeaders(false)
      && (GenerationFails(chunks, failAt) ==>
            resp.writes == ChunkEvents(chunks[..failAt.value]) + [ERROR_EVENT] && cache.cache == old(cache.cache))
      && (!GenerationFails(chunks, failAt) ==>
            && resp.writes == ChunkEvents(chunks) + [DONE_EVENT]
            && cache.cache == old(cache.cache)[CacheKey(event, cache.sha256) := CachedSummary(Trim(SummaryText(event, fmt)), doneAt)])
  {
    var fragments := StreamSummary(event, fmt);
    ghost var summary := SummaryText(event, fmt);
    assert Texts(fragments) == Chunking(summary);
    var writes, fullSummary := RelayChunks(fragments, failAt);
    if fullSummary.None? {
      resp := Stream(SseHeaders(false), writes + [ERROR_EVENT]);
    } else {
      CachedSummaryText(summary);
      cache.Set(event, Trim(fullSummary.value), doneAt);
      resp := Stream(SseHeaders(false), writes + [DONE_EVENT]);
    }
  }

  /**
   * `GET /public/events/:id/summary`. `now` is the time of the request, `doneAt` the time of
   * the cache write after streaming; a failure of the generator after `failAt` chunks is
   * an input, since nothing in the generator itself fails.
   */
  method StreamEventSummary(store: EventStore, cache: SummaryCache, id: string, now: int, fmt: Formatters,
                            failAt: Option<nat>, doneAt: int)
    returns (resp: Response)
    requires store.Valid()
    modifies cache
    ensures id !in store.events ==>
      && resp == UnknownEventReply(id)
      && cache.cache == old(cache.cache)
    ensures id in store.events && ToPublicEvent(store.events[id], now).None? ==>
      && resp == NOT_PUBLIC_REPLY
      && cache.cache == old(cache.cache)
    ensures id in store.events && ToPublicEvent(store.events[id], now).Some? ==>
      var event := ToPublicEvent(store.events[id], now).value;
      var key := CacheKey(event, cache.sha256);
      var cached := Lookup(old(cache.cache), key, now);
      var afterGet := AfterLookup(old(cache.cache), key, now);
      var chunks := Chunking(SummaryText(event, fmt));
      && resp.Stream?
      && resp.headers == SseHeaders(cached.Some?)
      && (cached.Some? ==> resp.writes == [DataEvent(cached.value), DONE_EVENT] && cache.cache == afterGet)
      && (cached.None? && GenerationFails(chunks, failAt) ==>
            resp.writes == ChunkEvents(chunks[..failAt.value]) + [ERROR_EVENT] && cache.cache == afterGet)
      && (cached.None? && !GenerationFails(chunks, failAt) ==>
            && resp.writes == ChunkEvents(chunks) + [DONE_EVENT]
            && cache.cache == afterGet[key := CachedSummary(Trim(SummaryText(event, fmt)), doneAt)])
  {
    var found := store.FindById(id);
    if found.None? {
      return UnknownEventReply(id);
    }
    var publicEvent := ToPublicEvent(found.value, now);
    if publicEvent.None? {
      return NOT_PUBLIC_REPLY;
    }
    var event := publicEvent.value;
    var cachedSummary := cache.Get(event, now);
    if cachedSummary.Some? {
      return Stream(SseHeaders(true), [DataEvent(cachedSummary.value), DONE_EVENT]);
    }

    resp := StreamMiss(cache, event, fmt, failAt, doneAt);
  }
}
