/**
 * The in-memory cache of generated summaries, keyed by a hash of four public fields of an
 * event, with a one-hour lifetime checked lazily on read.
 */
module SummaryCacheService {
  import opened Wrappers
  import opened Text
  import opened EventModel
  import opened SummaryGenerator

  datatype CachedSummary = CachedSummary(summary: string, timestamp: int)

  /** One hour, in milliseconds. */
  const TTL := 3600000

  /** The text that is hashed: title, location, start and end joined by `|`. */
  function KeyText(e: PublicEvent): string {
    Join([e.title, e.location, e.startAt.text, e.endAt.text], '|')
  }

  /** `generateCacheKey`: the hex SHA-256 digest, `sha256`, of the key text. */
  function CacheKey(e: PublicEvent, sha256: string -> string): string {
    sha256(KeyText(e))
  }

  /**
   * The key depends on the four fields alone: projections that agree on title, location,
   * start and end share a key whatever their id, status or upcomingness.
   */
  lemma KeyFields(a: PublicEvent, b: PublicEvent, sha256: string -> string)
    requires a.title == b.title && a.location == b.location
    requires a.startAt.text == b.startAt.text && a.endAt.text == b.endAt.text
    ensures CacheKey(a, sha256) == CacheKey(b, sha256)
  {
  }

  /** When no field contains `|`, the key text can be split back into the four fields. */
  lemma KeyTextSplits(e: PublicEvent)
    requires '|' !in e.title && '|' !in e.location && '|' !in e.startAt.text && '|' !in e.endAt.text
    ensures Split(KeyText(e), '|') == [e.title, e.location, e.startAt.text, e.endAt.text]
  {
    var parts := [e.title, e.location, e.startAt.text, e.endAt.text];
    assert forall k :: 0 <= k < |parts| ==> '|' !in parts[k];
    SplitJoin(parts, '|');
  }

  /** The `|` join is not injective: a `|` inside a field can move across the boundary. */
  lemma KeyTextCollides(a: PublicEvent, sha256: string -> string)
    requires a.title == "a|b" && a.location == "c"
    ensures var b := a.(title := "a", location := "b|c");
      b.title != a.title && KeyText(b) == KeyText(a) && CacheKey(b, sha256) == CacheKey(a, sha256)
  {
    var b := a.(title := "a", location := "b|c");
    assert "a|b" + "|" + "c" == "a" + "|" + "b|c";
    var s, t := a.startAt.text, a.endAt.text;
    var tail := Join([s, t], '|');
    assert [s, t][1..] == [t];
    assert ["c", s, t][1..] == [s, t] && ["b|c", s, t][1..] == [s, t];
    assert ["a|b", "c", s, t][1..] == ["c", s, t] && ["a", "b|c", s, t][1..] == ["b|c", s, t];
    assert Join(["c", s, t], '|') == "c" + "|" + tail;
    assert Join(["b|c", s, t], '|') == "b|c" + "|" + tail;
    assert KeyText(a) == "a|b" + "|" + ("c" + "|" + tail);
    assert KeyText(b) == "a" + "|" + ("b|c" + "|" + tail);
  }

  /**
   * The key ignores fields the generated text depends on: a CANCELLED event and the same
   * event PUBLISHED and upcoming share a key but not a summary, so whichever is cached
   * first is served for both.
   */
  lemma StaleSummaryShared(a: PublicEvent, sha256: string -> string, fmt: Formatters)
    requires a.status == CANCELLED
    ensures var b := a.(status := PUBLISHED, isUpcoming := true);
      CacheKey(a, sha256) == CacheKey(b, sha256) && SummaryText(a, fmt) != SummaryText(b, fmt)
  {
    var b := a.(status := PUBLISHED, isUpcoming := true);
    SummaryReflectsStatus(a, b, fmt);
  }

  /** An entry is still fresh at `now` unless its age exceeds the TTL strictly. */
  predicate Fresh(entry: CachedSummary, now: int) {
    now - entry.timestamp <= TTL
  }

  /** What `get` returns for a key at `now`. */
  function Lookup(cache: map<string, CachedSummary>, key: string, now: int): (r: Option<string>)
    ensures r.Some? <==> key in cache && Fresh(cache[key], now)
    ensures r.Some? ==> r.value == cache[key].summary
  {
    if key in cache && Fresh(cache[key], now) then Some(cache[key].summary) else None
  }

  /** The cache after `get`: an expired entry under the key is deleted, nothing else changes. */
  function AfterLookup(cache: map<string, CachedSummary>, key: string, now: int): (c: map<string, CachedSummary>)
    ensures c.Keys <= cache.Keys && forall k :: k in c ==> c[k] == cache[k]
    ensures forall k :: k in cache && k != key ==> k in c
    ensures key in c <==> key in cache && Fresh(cache[key], now)
  {
    if key in cache && !Fresh(cache[key], now) then cache - {key} else cache
  }

  /** A summary set at time `t` is read back at any `now` from `t` to `t + TTL` inclusive, and not after. */
  lemma SetThenGet(cache: map<string, CachedSummary>, key: string, summary: string, t: int, now: int)
    ensures Lookup(cache[key := CachedSummary(summary, t)], key, now) == (if now - t <= TTL then Some(summary) else None)
  {
  }

  /** After `get` has dropped an expired entry, a second `get` misses too. */
  lemma ExpiredStaysGone(cache: map<string, CachedSummary>, key: string, now: int, later: int)
    requires Lookup(cache, key, now).None?
    ensures Lookup(AfterLookup(cache, key, now), key, later).None?
  {
  }

  class SummaryCache {
    var cache: map<string, CachedSummary>
    /** The SHA-256 hex digest of a string. */
    const sha256: string -> string

    constructor (sha256: string -> string)
      ensures this.sha256 == sha256 && cache == map[]
    {
      this.sha256 := sha256;
      cache := map[];
    }

    /** Reads the summary for the event's key, deleting it first if it has expired. */
    method Get(e: PublicEvent, now: int) returns (r: Option<string>)
      modifies this
      ensures r == Lookup(old(cache), CacheKey(e, sha256), now)
      ensures cache == AfterLookup(old(cache), CacheKey(e, sha256), now)
    {
      var key := CacheKey(e, sha256);
      if key !in cache {
        return None;
      }
      var cached := cache[key];
      if now - cached.timestamp > TTL {
        cache := cache - {key};
        return None;
      }
      r := Some(cached.summary);
    }

    /** Stores (or overwrites) the summary under the event's key, stamped with `now`. */
    method Set(e: PublicEvent, summary: string, now: int)
      modifies this
      ensures cache == old(cache)[CacheKey(e, sha256) := CachedSummary(summary, now)]
    {
      var key := CacheKey(e, sha256);
      cache := cache[key := CachedSummary(summary, now)];
    }

    /** Removes the event's key only. */
    method Invalidate(e: PublicEvent)
      modifies this
      ensures cache == old(cache) - {CacheKey(e, sha256)}
    {
      var key := CacheKey(e, sha256);
      cache := cache - {key};
    }

    method Clear()
      modifies this
      ensures cache == map[]
    {
      cache := map[];
    }

    /** The number of entries and their keys. */
    method GetStats() returns (size: nat, keys: set<string>)
      ensures size == |cache| && keys == cache.Keys
      ensures size == |keys|
    {
      size := |cache|;
      keys := cache.Keys;
    }
  }
}
