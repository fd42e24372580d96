/**
 * The backend's public controller: parameter handling of the list and search routes, the
 * projection of search results, and the summary endpoint, which caches a generated summary
 * before it streams it three words at a time on a timer.
 */
module PublicController {
  import opened Wrappers
  import opened Text
  import opened EventModel
  import opened EventStoreService
  import opened ServerHttp
  import opened CacheKeys
  import opened BackendCache

  /** An event as the backend's store returns it; the instants carry their JSON (ISO) text. */
  datatype StoredEvent = StoredEvent(
    id: string,
    title: string,
    startAt: Instant,
    endAt: Instant,
    location: string,
    status: Status)

  /** A query-string value: one string, or several for a repeated parameter. */
  datatype QueryValue = Single(text: string) | Repeated(items: seq<string>)

  /** `parseInt` applied to a query value; an array is first turned into its comma-joined text. */
  function ParseQueryInt(v: Option<QueryValue>, parseInt: string -> Option<int>): (n: Option<int>)
    ensures v.None? ==> n.None?
    ensures v.Some? && v.value.Single? ==> n == parseInt(v.value.text)
  {
    match v
    case None => None
    case Some(Single(t)) => parseInt(t)
    case Some(Repeated(items)) => parseInt(Join(items, ','))
  }

  /** The value of a query key, None when absent. */
  function QueryGet(query: map<string, QueryValue>, key: string): (v: Option<QueryValue>)
    ensures v.Some? <==> key in query
    ensures v.Some? ==> v.value == query[key]
  {
    if key in query then Some(query[key]) else None
  }

  /** `parseInt(page) || 1`. */
  function PageNumberParam(query: map<string, QueryValue>, parseInt: string -> Option<int>): (page: int)
    ensures var n := ParseQueryInt(QueryGet(query, "page"), parseInt);
      page == (if n.Some? && n.value != 0 then n.value else 1)
    ensures page != 0
  {
    var n := ParseQueryInt(QueryGet(query, "page"), parseInt);
    if n.Some? && n.value != 0 then n.value else 1
  }

  /** `Math.min(parseInt(limit) || 20, 100)`: at most 100, and never 0. */
  function PageLimitParam(query: map<string, QueryValue>, parseInt: string -> Option<int>): (limit: int)
    ensures var n := ParseQueryInt(QueryGet(query, "limit"), parseInt);
      var asked := if n.Some? && n.value != 0 then n.value else 20;
      limit == (if asked < 100 then asked else 100)
    ensures limit <= 100 && limit != 0
  {
    var n := ParseQueryInt(QueryGet(query, "limit"), parseInt);
    var asked := if n.Some? && n.value != 0 then n.value else 20;
    if asked < 100 then asked else 100
  }

  /** The call a handler makes to the event service, or the reply it sends itself. */
  datatype Delegation =
    | FindPublic(filters: map<string, QueryValue>, page: int, limit: int)
    | SearchEvents(q: string, filters: map<string, QueryValue>, page: int, limit: int)
    | Reject(status: int, code: string, message: string)

  /** `getPublicEvents`: every key but `page` and `limit` is passed on as a filter. */
  function ListPublic(query: map<string, QueryValue>, parseInt: string -> Option<int>): (d: Delegation)
    ensures d.FindPublic?
    ensures forall k :: k in d.filters <==> k in query && k != "page" && k != "limit"
    ensures forall k :: k in d.filters ==> d.filters[k] == query[k]
    ensures d.page == PageNumberParam(query, parseInt) && d.limit == PageLimitParam(query, parseInt)
  {
    FindPublic(query - {"page", "limit"}, PageNumberParam(query, parseInt), PageLimitParam(query, parseInt))
  }

  const PUBLIC_STATUS_FILTER := "PUBLISHED,CANCELLED"

  /**
   * `searchPublicEvents`: a missing, empty or repeated `q` is a 400 MISSING_QUERY; otherwise
   * the remaining keys are passed on with the status filter forced to the public statuses.
   */
  function SearchPublic(query: map<string, QueryValue>, parseInt: string -> Option<int>): (d: Delegation)
    ensures d.Reject? <==> "q" !in query || !query["q"].Single? || query["q"].text == ""
    ensures d.Reject? ==> d == Reject(400, "MISSING_QUERY", "Search query parameter \"q\" is required")
    ensures d.SearchEvents? ==>
      && d.q == query["q"].text
      && "status" in d.filters && d.filters["status"] == Single(PUBLIC_STATUS_FILTER)
      && (forall k :: k in d.filters <==> k == "status" || (k in query && k !in {"q", "page", "limit"}))
      && (forall k :: k in d.filters && k != "status" ==> d.filters[k] == query[k])
      && d.page == PageNumberParam(query, parseInt) && d.limit == PageLimitParam(query, parseInt)
  {
    if "q" !in query || !query["q"].Single? || query["q"].text == "" then
      Reject(400, "MISSING_QUERY", "Search query parameter \"q\" is required")
    else
      var filters := (query - {"q", "page", "limit"})["status" := Single(PUBLIC_STATUS_FILTER)];
      SearchEvents(query["q"].text, filters, PageNumberParam(query, parseInt), PageLimitParam(query, parseInt))
  }

  /** One search result in the public format; the status is copied whatever it is. */
  function PublicFormat(e: StoredEvent, now: int): (p: PublicEvent)
    ensures p.id == e.id && p.title == e.title && p.startAt == e.startAt && p.endAt == e.endAt
    ensures p.location == e.location && p.status == e.status
    ensures p.isUpcoming <==> e.startAt.millis > now
  {
    PublicEvent(e.id, e.title, e.startAt, e.endAt, e.location, e.status, e.startAt.millis > now)
  }

  /** The search body: the results under the key `events`, with the service's pagination. */
  datatype SearchResult = SearchResult(events: seq<PublicEvent>, pagination: Pagination)

  /** The search response: every result mapped, in order, with the service's pagination. */
  function SearchResponse(events: seq<StoredEvent>, pagination: Pagination, now: int): (r: SearchResult)
    ensures r.pagination == pagination && |r.events| == |events|
    ensures forall k :: 0 <= k < |events| ==> r.events[k] == PublicFormat(events[k], now)
  {
    SearchResult(seq(|events|, k requires 0 <= k < |events| => PublicFormat(events[k], now)), pagination)
  }

  /** The entries hashed for the summary key, in the order the handler lists them. */
  function KeyEntries(e: StoredEvent): seq<(string, string)> {
    [("id", e.id), ("title", e.title), ("location", e.location), ("startAt", e.startAt.text), ("endAt", e.endAt.text)]
  }

  /** The summary's cache key: id, title, location, start and end, canonicalised and hashed. */
  function SummaryKey(e: StoredEvent, sha256: string -> string, stringify: seq<(string, string)> -> string): string {
    GenerateCacheKey(KeyEntries(e), sha256, stringify)
  }

  /** The key follows its fields: events equal on id, title, location, start and end share it, whatever their status. */
  lemma SummaryKeyFields(a: StoredEvent, b: StoredEvent, sha256: string -> string,
                         stringify: seq<(string, string)> -> string)
    requires a.id == b.id && a.title == b.title && a.location == b.location
    requires a.startAt.text == b.startAt.text && a.endAt.text == b.endAt.text
    ensures SummaryKey(a, sha256, stringify) == SummaryKey(b, sha256, stringify)
  {
  }

  /** The five key names start with five different letters. */
  lemma KeyNamesDistinct(e: StoredEvent)
    ensures DistinctKeys(KeyEntries(e))
  {
    var k := KeyEntries(e);
    assert k[0].0[0] == 'i' && k[1].0[0] == 't' && k[2].0[0] == 'l' && k[3].0[0] == 's' && k[4].0[0] == 'e';
  }

  /** Listing the five fields in the opposite order gives the same key. */
  lemma SummaryKeyOrder(e: StoredEvent, sha256: string -> string, stringify: seq<(string, string)> -> string)
    ensures var k := KeyEntries(e);
      GenerateCacheKey([k[4], k[3], k[2], k[1], k[0]], sha256, stringify) == SummaryKey(e, sha256, stringify)
  {
    var k := KeyEntries(e);
    var r := [k[4], k[3], k[2], k[1], k[0]];
    KeyNamesDistinct(e);
    assert DistinctKeys(r) by {
      forall i, j | 0 <= i < j < |r| ensures r[i].0 != r[j].0 {
        assert r[i] == k[4 - i] && r[j] == k[4 - j];
      }
    }
    assert multiset(r) == multiset(k) by {
      assert k == [k[0], k[1], k[2], k[3], k[4]];
    }
    KeyOrderIndependent(r, k, sha256, stringify);
  }

  /** The backend's template: "cancelled" and a regret for CANCELLED, "exciting" and an invitation otherwise. */
  function BackendSummary(e: StoredEvent, formatDate: int -> string): string {
    SummaryLead(e) + (StatusWord(e.status) + SummaryTail(e, formatDate))
  }

  /** What follows the status word: the dates, the call to action and the closing line. */
  function SummaryTail(e: StoredEvent, formatDate: int -> string): string {
    SummaryDates(e, formatDate) + SummaryAction(e.status) + CLOSING_LINE
  }

  function SummaryLead(e: StoredEvent): string {
    "Join us for \"" + e.title + "\" at " + e.location + "! This "
  }

  function StatusWord(s: Status): string {
    if s == CANCELLED then "cancelled" else "exciting"
  }

  /** The dates, each formatted by `formatDate` (`toLocaleDateString`). */
  function SummaryDates(e: StoredEvent, formatDate: int -> string): string {
    " event runs from " + formatDate(e.startAt.millis) + " to " + formatDate(e.endAt.millis) + ". "
  }

  function SummaryAction(s: Status): string {
    if s == CANCELLED then CANCELLED_ACTION else INVITATION
  }

  const CANCELLED_ACTION := "Unfortunately, this event has been cancelled."
  const INVITATION := "Reserve your spot today and be part of something special!"
  const CLOSING_LINE := " Don't miss out on this incredible opportunity to connect, learn, and grow with fellow enthusiasts."

  /**
   * The key leaves out the status the text depends on: once a PUBLISHED event's summary is
   * cached, cancelling the event keeps its key, so the stale invitation is served.
   */
  lemma StaleSummaryAfterCancel(e: StoredEvent, sha256: string -> string, stringify: seq<(string, string)> -> string,
                                formatDate: int -> string)
    requires e.status == PUBLISHED
    ensures var c := e.(status := CANCELLED);
      SummaryKey(c, sha256, stringify) == SummaryKey(e, sha256, stringify)
      && BackendSummary(c, formatDate) != BackendSummary(e, formatDate)
  {
    var c := e.(status := CANCELLED);
    assert KeyEntries(c) == KeyEntries(e);
    SummaryStatusLetter(c, formatDate);
    SummaryStatusLetter(e, formatDate);
  }

  /** The letter after the lead is the first of the status word. */
  lemma SummaryStatusLetter(e: StoredEvent, formatDate: int -> string)
    ensures |SummaryLead(e)| < |BackendSummary(e, formatDate)|
    ensures BackendSummary(e, formatDate)[|SummaryLead(e)|] == (if e.status == CANCELLED then 'c' else 'e')
  {
    var lead, word, rest := SummaryLead(e), StatusWord(e.status), SummaryTail(e, formatDate);
    assert word[0] == (if e.status == CANCELLED then 'c' else 'e');
    assert (lead + (word + rest))[|lead|] == (word + rest)[0] == word[0];
  }

  /** At most three words from index `i`, joined by spaces. */
  function WordGroup(words: seq<string>, i: nat): string
    requires i < |words|
  {
    Join(words[i..if i + 3 < |words| then i + 3 else |words|], ' ')
  }

  /** The chunks from word `i` on: groups of three words, each followed by a space. */
  function ChunkTexts(words: seq<string>, i: nat): seq<string>
    decreases |words| - i
  {
    if i >= |words| then [] else [WordGroup(words, i) + " "] + ChunkTexts(words, i + 3)
  }

  /**
   * Chunk `k` holds words `i + 3k` to `i + 3k + 2` (fewer at the end), and there are just
   * enough chunks to cover the words.
   */
  lemma {:induction false} ChunkTextsLayout(words: seq<string>, i: nat)
    ensures var texts := ChunkTexts(words, i);
      && (i < |words| ==> 3 * (|texts| - 1) < |words| - i <= 3 * |texts|)
      && (i >= |words| ==> texts == [])
      && forall k :: 0 <= k < |texts| ==> i + 3 * k < |words| && texts[k] == WordGroup(words, i + 3 * k) + " "
    decreases |words| - i
  {
    if i < |words| {
      ChunkTextsLayout(words, i + 3);
      var texts := ChunkTexts(words, i);
      var rest := ChunkTexts(words, i + 3);
      assert texts == [WordGroup(words, i) + " "] + rest;
      forall k | 0 < k < |texts| ensures i + 3 * k < |words| && texts[k] == WordGroup(words, i + 3 * k) + " " {
        assert texts[k] == rest[k - 1];
        assert i + 3 + 3 * (k - 1) == i + 3 * k;
      }
    }
  }

  /** The texts joined end to end. */
  function Concat(texts: seq<string>): string {
    if texts == [] then "" else texts[0] + Concat(texts[1..])
  }

  lemma {:induction false} ChunkTextsRejoin(words: seq<string>, i: nat)
    requires i < |words|
    ensures Concat(ChunkTexts(words, i)) == Join(words[i..], ' ') + " "
    decreases |words| - i
  {
    var texts := ChunkTexts(words, i);
    assert texts[1..] == ChunkTexts(words, i + 3);
    if i + 3 < |words| {
      ChunkTextsRejoin(words, i + 3);
      assert words[i..] == words[i..i + 3] + words[i + 3..];
      JoinAppend(words[i..i + 3], words[i + 3..], ' ');
    } else {
      assert ChunkTexts(words, i + 3) == [];
      assert texts == [WordGroup(words, i) + " "];
      assert words[i..if i + 3 < |words| then i + 3 else |words|] == words[i..];
      assert Concat(texts) == texts[0] + Concat([]);
    }
  }

  /** The streamed chunks, end to end, are the summary followed by one space. */
  lemma ChunksRejoinSummary(summary: string)
    ensures Concat(ChunkTexts(Split(summary, ' '), 0)) == summary + " "
  {
    var words := Split(summary, ' ');
    ChunkTextsRejoin(words, 0);
    assert words[0..] == words;
    JoinSplit(summary, ' ');
  }

  /** The write carrying one chunk; `chunkJson` stands for `JSON.stringify({ chunk })`. */
  function ChunkWrite(text: string, chunkJson: string -> string): string {
    "data: " + chunkJson(text) + "\n\n"
  }

  const DONE_WRITE := "data: {\"done\":true}\n\n"

  /** Every write of an uninterrupted stream: one per chunk, then the done message. */
  function StreamPlan(summary: string, chunkJson: string -> string): seq<string> {
    var texts := ChunkTexts(Split(summary, ' '), 0);
    seq(|texts|, k requires 0 <= k < |texts| => ChunkWrite(texts[k], chunkJson)) + [DONE_WRITE]
  }

  /** The plan writes each chunk's JSON, in order, and ends with the done message. */
  lemma StreamPlanShape(summary: string, chunkJson: string -> string)
    ensures var texts := ChunkTexts(Split(summary, ' '), 0);
      var plan := StreamPlan(summary, chunkJson);
      && |plan| == |texts| + 1 && plan[|texts|] == DONE_WRITE
      && forall k :: 0 <= k < |texts| ==> plan[k] == ChunkWrite(texts[k], chunkJson)
  {
  }

  /** How many timer ticks run before the client closes: all of them when it never does. */
  function TicksRun(closeAfter: Option<nat>, planned: nat): (t: nat)
    ensures t <= planned
    ensures closeAfter.None? ==> t == planned
    ensures closeAfter.Some? ==> t == (if closeAfter.value < planned then closeAfter.value else planned)
  {
    if closeAfter.Some? && closeAfter.value < planned then closeAfter.value else planned
  }

  /**
   * The timer: each tick writes the next three words, or the done message and ends the
   * response once the words are used up. A client that closes after `closeAfter` ticks
   * stops the timer, so what was written is a prefix of the plan and the response is not ended.
   */
  method StreamWords(summary: string, chunkJson: string -> string, closeAfter: Option<nat>)
    returns (writes: seq<string>, ended: bool)
    ensures var plan := StreamPlan(summary, chunkJson);
      && writes == plan[..TicksRun(closeAfter, |plan|)]
      && (ended <==> |writes| == |plan|)
  {
    var words := Split(summary, ' ');
    ghost var texts := ChunkTexts(words, 0);
    ghost var plan := StreamPlan(summary, chunkJson);
    StreamPlanShape(summary, chunkJson);
    var index := 0;
    var ticks := 0;
    writes := [];
    ended := false;
    while !ended && (closeAfter.None? || ticks < closeAfter.value)
      invariant ticks <= |plan| && writes == plan[..ticks]
      invariant closeAfter.Some? ==> ticks <= closeAfter.value
      invariant ended <==> ticks == |plan|
      invariant !ended ==> ticks <= |texts| && ChunkTexts(words, index) == texts[ticks..]
      decreases |plan| - ticks
    {
      if index >= |words| {
        assert texts[ticks..] == [];
        PrefixStep(plan, ticks, writes);
        writes := writes + [DONE_WRITE];
        ended := true;
      } else {
        var chunk := WordGroup(words, index) + " ";
        ChunkTextsStep(words, texts, ticks, index);
        PrefixStep(plan, ticks, writes);
        writes := writes + [ChunkWrite(chunk, chunkJson)];
        index := index + 3;
      }
      ticks := ticks + 1;
    }
  }

  /** One more tick of the timer consumes the next three words. */
  lemma ChunkTextsStep(words: seq<string>, texts: seq<string>, ticks: nat, index: nat)
    requires index < |words| && ticks <= |texts| && ChunkTexts(words, index) == texts[ticks..]
    ensures ticks < |texts| && texts[ticks] == WordGroup(words, index) + " "
    ensures texts[ticks + 1..] == ChunkTexts(words, index + 3)
  {
    assert ChunkTexts(words, index) == [WordGroup(words, index) + " "] + ChunkTexts(words, index + 3);
    assert texts[ticks..][1..] == texts[ticks + 1..];
  }

  /** Writing the next planned element extends the written prefix by one. */
  lemma PrefixStep(plan: seq<string>, ticks: nat, writes: seq<string>)
    requires ticks < |plan| && writes == plan[..ticks]
    ensures writes + [plan[ticks]] == plan[..ticks + 1]
  {
  }

  /** The summary endpoint's reply: a 404, or a Server-Sent Events stream. */
  datatype SummaryReply =
    | Refused(status: int, code: string, message: string)
    | EventStream(headers: seq<Header>, writes: seq<string>, ended: bool)

  function BackendSseHeaders(hit: bool): seq<Header> {
    [Header("Content-Type", "text/event-stream"),
     Header("Cache-Control", "no-cache"),
     Header("Connection", "keep-alive"),
     Header("X-Summary-Cache", if hit then "HIT" else "MISS")]
  }

  /** The text the summary endpoint streams: the cached one on a HIT, a generated one otherwise. */
  function ServedSummary(stored: Option<string>, e: StoredEvent, formatDate: int -> string): (s: string)
    ensures stored.Some? ==> s == stored.value
    ensures stored.None? ==> s == BackendSummary(e, formatDate)
  {
    if stored.Some? then stored.value else BackendSummary(e, formatDate)
  }

  /**
   * `getEventSummary`. A missing or DRAFT event is a 404. Otherwise a truthy cached value is
   * a HIT; on a MISS the summary is generated and cached at once, before the first tick, so
   * the cache is written even if the client closes before anything is streamed.
   */
  method GetEventSummary(cache: CacheService, event: Option<StoredEvent>, sha256: string -> string,
                         stringify: seq<(string, string)> -> string, formatDate: int -> string,
                         chunkJson: string -> string, closeAfter: Option<nat>)
    returns (reply: SummaryReply)
    modifies cache
    ensures event.None? || event.value.status == DRAFT ==>
      reply == Refused(404, "NOT_FOUND", "Event not found") && cache.cache == old(cache.cache)
    ensures event.Some? && event.value.status != DRAFT ==>
      var key := SummaryKey(event.value, sha256, stringify);
      var stored := Read(old(cache.cache), key);
      var plan := StreamPlan(ServedSummary(stored, event.value, formatDate), chunkJson);
      && reply.EventStream?
      && reply.headers == BackendSseHeaders(stored.Some?)
      && reply.writes == plan[..TicksRun(closeAfter, |plan|)]
      && (reply.ended <==> |reply.writes| == |plan|)
      && (stored.Some? ==> cache.cache == old(cache.cache))
      && (stored.None? ==> cache.cache == old(cache.cache)[key := BackendSummary(event.value, formatDate)])
  {
    if event.None? || (event.value.status != PUBLISHED && event.value.status != CANCELLED) {
      return Refused(404, "NOT_FOUND", "Event not found");
    }
    var e := event.value;
    var key := SummaryKey(e, sha256, stringify);
    var stored := cache.Get(key);
    var text := ServedSummary(stored, e, formatDate);
    if stored.None? {
      cache.Set(key, text);
    }
    var writes, ended := StreamWords(text, chunkJson, closeAfter);
    reply := EventStream(BackendSseHeaders(stored.Some?), writes, ended);
  }
}
