/**
 * The backend's cache key: the input object is rebuilt with its keys in ascending order,
 * serialised and hashed. An object is its list of entries in insertion order; the hash and
 * the serialiser are parameters.
 */
module CacheKeys {
  import opened Text

  /** Whether no two entries share a key, as in any object. */
  predicate DistinctKeys<V>(entries: seq<(string, V)>) {
    forall i, j :: 0 <= i < j < |entries| ==> entries[i].0 != entries[j].0
  }

  /** Whether the keys are in strictly ascending order. */
  predicate KeysAscending<V>(entries: seq<(string, V)>) {
    forall i, j :: 0 <= i < j < |entries| ==> LexLess(entries[i].0, entries[j].0)
  }

  /** Puts `e` before the first entry whose key is not below its own. */
  function InsertByKey<V>(e: (string, V), sorted: seq<(string, V)>): (r: seq<(string, V)>)
    ensures |r| == |sorted| + 1
  {
    if sorted == [] || !LexLess(sorted[0].0, e.0) then [e] + sorted
    else [sorted[0]] + InsertByKey(e, sorted[1..])
  }

  /** `Object.keys(data).sort()` followed by the rebuild: the entries ordered by key. */
  function SortByKey<V>(entries: seq<(string, V)>): (r: seq<(string, V)>)
    ensures |r| == |entries|
  {
    if entries == [] then [] else InsertByKey(entries[0], SortByKey(entries[1..]))
  }

  lemma {:induction false} InsertByKeyMultiset<V>(e: (string, V), sorted: seq<(string, V)>)
    ensures multiset(InsertByKey(e, sorted)) == multiset(sorted) + multiset{e}
  {
    if sorted != [] && LexLess(sorted[0].0, e.0) {
      InsertByKeyMultiset(e, sorted[1..]);
      assert sorted == [sorted[0]] + sorted[1..];
    }
  }

  lemma {:induction false} InsertByKeyAscending<V>(e: (string, V), sorted: seq<(string, V)>)
    requires KeysAscending(sorted)
    requires forall k :: 0 <= k < |sorted| ==> sorted[k].0 != e.0
    ensures KeysAscending(InsertByKey(e, sorted))
  {
    if sorted == [] {
    } else if !LexLess(sorted[0].0, e.0) {
      LexLessTotal(e.0, sorted[0].0);
      var r := [e] + sorted;
      forall x, y | 0 <= x < y < |r|
        ensures LexLess(r[x].0, r[y].0)
      {
        assert r[y] == sorted[y - 1];
        if x > 0 {
          assert r[x] == sorted[x - 1];
        } else if y > 1 {
          LexLessTransitive(e.0, sorted[0].0, sorted[y - 1].0);
        }
      }
    } else {
      var rest := InsertByKey(e, sorted[1..]);
      InsertByKeyAscending(e, sorted[1..]);
      InsertByKeyMultiset(e, sorted[1..]);
      forall j | 0 <= j < |rest|
        ensures LexLess(sorted[0].0, rest[j].0)
      {
        assert rest[j] in multiset(rest);
        assert rest[j] in multiset(sorted[1..]) + multiset{e};
        if rest[j] != e {
          var k :| 0 <= k < |sorted[1..]| && sorted[1..][k] == rest[j];
          assert sorted[k + 1] == rest[j];
        }
      }
    }
  }

  /** The canonical entries hold exactly the input's entries, with keys in ascending order. */
  lemma {:induction false} SortByKeyFacts<V>(entries: seq<(string, V)>)
    requires DistinctKeys(entries)
    ensures multiset(SortByKey(entries)) == multiset(entries)
    ensures KeysAscending(SortByKey(entries))
  {
    if entries != [] {
      var tail := entries[1..];
      assert DistinctKeys(tail) by {
        forall i, j | 0 <= i < j < |tail| ensures tail[i].0 != tail[j].0 {
          assert tail[i] == entries[i + 1] && tail[j] == entries[j + 1];
        }
      }
      SortByKeyFacts(tail);
      var sorted := SortByKey(tail);
      InsertByKeyMultiset(entries[0], sorted);
      assert entries == [entries[0]] + tail;
      forall k | 0 <= k < |sorted| ensures sorted[k].0 != entries[0].0 {
        assert sorted[k] in multiset(tail);
        var m :| 0 <= m < |tail| && tail[m] == sorted[k];
        assert entries[m + 1] == sorted[k];
      }
      InsertByKeyAscending(entries[0], sorted);
    }
  }

  /** Dropping the first entry keeps the keys ascending. */
  lemma TailAscending<V>(a: seq<(string, V)>)
    requires a != [] && KeysAscending(a)
    ensures KeysAscending(a[1..])
  {
    forall x, y | 0 <= x < y < |a[1..]| ensures LexLess(a[1..][x].0, a[1..][y].0) {
      assert a[1..][x] == a[x + 1] && a[1..][y] == a[y + 1];
    }
  }

  /** Two key-ascending lists of the same entries start with the same entry, the least key. */
  lemma HeadsAgree<V>(a: seq<(string, V)>, b: seq<(string, V)>)
    requires a != [] && KeysAscending(a) && KeysAscending(b)
    requires multiset(a) == multiset(b)
    ensures b != [] && a[0] == b[0]
  {
    assert a[0] in multiset(b);
    var j :| 0 <= j < |b| && b[j] == a[0];
    assert b[0] in multiset(a);
    var i :| 0 <= i < |a| && a[i] == b[0];
    if j > 0 {
      assert LexLess(b[0].0, b[j].0);
      if i > 0 {
        LexLessAsymmetric(a[0].0, a[i].0);
      } else {
        LexLessIrreflexive(b[0].0);
      }
      assert false;
    }
  }

  /** Two key-ascending lists of the same entries are the same list. */
  lemma {:induction false} AscendingUnique<V>(a: seq<(string, V)>, b: seq<(string, V)>)
    requires KeysAscending(a) && KeysAscending(b)
    requires multiset(a) == multiset(b)
    ensures a == b
  {
    if a == [] {
      assert |b| == |multiset(b)| == 0;
    } else {
      HeadsAgree(a, b);
      assert a == [a[0]] + a[1..] && b == [b[0]] + b[1..];
      assert multiset(a[1..]) == multiset(a) - multiset{a[0]};
      assert multiset(b[1..]) == multiset(b) - multiset{b[0]};
      TailAscending(a);
      TailAscending(b);
      AscendingUnique(a[1..], b[1..]);
    }
  }

  /** `generateCacheKey`: the hash of the serialised canonical object. */
  function GenerateCacheKey<V>(data: seq<(string, V)>, sha256: string -> string,
                               stringify: seq<(string, V)> -> string): string {
    sha256(stringify(SortByKey(data)))
  }

  /**
   * The key does not depend on insertion order: objects with the same key/value pairs get
   * the same canonical form, and so the same key.
   */
  lemma KeyOrderIndependent<V>(a: seq<(string, V)>, b: seq<(string, V)>, sha256: string -> string,
                               stringify: seq<(string, V)> -> string)
    requires DistinctKeys(a) && DistinctKeys(b)
    requires multiset(a) == multiset(b)
    ensures SortByKey(a) == SortByKey(b)
    ensures GenerateCacheKey(a, sha256, stringify) == GenerateCacheKey(b, sha256, stringify)
  {
    SortByKeyFacts(a);
    SortByKeyFacts(b);
    AscendingUnique(SortByKey(a), SortByKey(b));
  }
}
