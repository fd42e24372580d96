/**
 * The backend's summary cache: a string-to-string map with no expiry, read with `|| null`
 * and cleared by substring pattern. Its keys come from `CacheKeys.GenerateCacheKey`.
 */
module BackendCache {
  import opened Wrappers
  import opened Text

  /** What `get` returns: the stored value, or None when it is absent or the empty string. */
  function Read(cache: map<string, string>, key: string): (r: Option<string>)
    ensures r.Some? <==> key in cache && cache[key] != ""
    ensures r.Some? ==> r.value == cache[key]
  {
    if key in cache && cache[key] != "" then Some(cache[key]) else None
  }

  /** The cache without the keys that contain `pattern`. */
  function WithoutPattern(cache: map<string, string>, pattern: string): (c: map<string, string>)
    ensures forall k :: k in c <==> k in cache && !Contains(k, pattern)
    ensures forall k :: k in c ==> c[k] == cache[k]
  {
    map k | k in cache && !Contains(k, pattern) :: cache[k]
  }

  /** A value set is read back until overwritten, except that an empty string reads as null. */
  lemma SetThenRead(cache: map<string, string>, key: string, value: string, other: string)
    ensures Read(cache[key := value], key) == (if value == "" then None else Some(value))
    ensures other != key ==> Read(cache[key := value], other) == Read(cache, other)
  {
  }

  /** The empty pattern occurs in every key, so it clears the cache. */
  lemma EmptyPatternClears(cache: map<string, string>)
    ensures WithoutPattern(cache, "") == map[]
  {
    forall k | k in cache ensures Contains(k, "") {
      ContainsIffOccurrence(k, "");
    }
  }

  class CacheService {
    var cache: map<string, string>

    constructor ()
      ensures cache == map[]
    {
      cache := map[];
    }

    method Get(key: string) returns (r: Option<string>)
      ensures r == Read(cache, key)
    {
      if key in cache && cache[key] != "" {
        r := Some(cache[key]);
      } else {
        r := None;
      }
    }

    /** Stores or overwrites; entries never expire. */
    method Set(key: string, value: string)
      modifies this
      ensures cache == old(cache)[key := value]
    {
      cache := cache[key := value];
    }

    method Delete(key: string)
      modifies this
      ensures cache == old(cache) - {key}
    {
      cache := cache - {key};
    }

    /** Deletes, key by key, every key that contains `pattern`, and keeps every other entry. */
    method InvalidatePattern(pattern: string)
      modifies this
      ensures cache == WithoutPattern(old(cache), pattern)
    {
      ghost var initial := cache;
      var pending := cache.Keys;
      while pending != {}
        invariant pending <= initial.Keys
        invariant cache == map k | k in initial && (k in pending || !Contains(k, pattern)) :: initial[k]
        decreases pending
      {
        var key :| key in pending;
        if Contains(key, pattern) {
          cache := cache - {key};
        }
        pending := pending - {key};
      }
    }
  }
}
