/** The response cache of caching_proxy.js and secure_proxy.js: a map from
    `METHOD:URL` to a captured 200 response, plus the delete timers that the
    stores have armed and that have not fired yet. Lookup does no time check:
    an entry disappears only when one of its key's timers fires. */
module ResponseCache {
  import opened Http

  /** Delay of the delete timer armed by each store, in milliseconds. The
      model has no clock: the delay is abstracted into the `Expire` step,
      which stands for one armed timer firing. */
  const CACHE_TTL: int := 20 * 1000

  datatype Entry = Entry(statusCode: int, headers: Headers, body: Bytes)

  /** `entries` is the `cache` map; `armed` holds one key per pending
      `setTimeout(() => cache.delete(key), CACHE_TTL)`. */
  datatype Cache = Cache(entries: map<string, Entry>, armed: multiset<string>)

  const Empty: Cache := Cache(map[], multiset{})

  /** Every cached entry has a delete timer pending for its key. */
  ghost predicate TimersCover(c: Cache)
  {
    forall key :: key in c.entries ==> key in c.armed
  }

  /** The request fingerprint: the method, a colon, then the URL (path and
      query string as the client sent them). */
  function CacheKey(verb: string, url: string): (key: string)
    ensures |key| == |verb| + 1 + |url|
    ensures key[..|verb|] == verb && key[|verb|] == ':' && key[|verb| + 1..] == url
  {
    verb + ":" + url
  }

  /** Requests with different methods or URLs have different keys, as long as
      the method has no colon in it (an HTTP method is a token, and a token
      never holds one). */
  lemma CacheKeyInjective(m1: string, u1: string, m2: string, u2: string)
    requires ':' !in m1 && ':' !in m2
    ensures CacheKey(m1, u1) == CacheKey(m2, u2) <==> m1 == m2 && u1 == u2
  {
    var k1, k2 := CacheKey(m1, u1), CacheKey(m2, u2);
    if k1 == k2 {
      if |m1| != |m2| {
        // the colon after the shorter method would sit inside the longer one
        assert false;
      }
      assert m1 == k1[..|m1|] == k2[..|m2|] == m2;
      assert u1 == k1[|m1| + 1..] == k2[|m2| + 1..] == u2;
    }
  }

  /** Without that restriction the key would not tell requests apart. */
  lemma CacheKeyNeedsColonFreeMethod()
    ensures CacheKey("GET:", "x") == CacheKey("GET", ":x")
  {
  }

  /** The cached entry for a key, if any. */
  function Lookup(c: Cache, key: string): (r: Option<Entry>)
    ensures r.Some? <==> key in c.entries
    ensures r.Some? ==> r.value == c.entries[key]
  {
    if key in c.entries then Some(c.entries[key]) else None
  }

  /** The headers replayed on a hit: the stored ones, with `x-cache`
      forced to `HIT`. */
  function HitHeaders(stored: Headers): (h: Headers)
    ensures "x-cache" in h && h["x-cache"] == "HIT"
    ensures forall name :: name != "x-cache" ==> (name in h <==> name in stored)
    ensures forall name :: name != "x-cache" && name in stored ==> h[name] == stored[name]
  {
    stored["x-cache" := "HIT"]
  }

  /** The 'end' handler's cache step: a 200 response is saved under the key,
      replacing any earlier entry, with the concatenated body chunks, and a
      delete timer is armed for the key; any other status leaves the cache
      as it was. */
  function Store(c: Cache, key: string, statusCode: int, headers: Headers, chunks: seq<Bytes>): (r: Cache)
    ensures forall k :: k != key ==> (k in r.entries <==> k in c.entries)
    ensures key in r.entries <==> key in c.entries || statusCode == 200
  {
    if statusCode == 200 then
      Cache(c.entries[key := Entry(statusCode, headers, Flatten(chunks))], c.armed + multiset{key})
    else c
  }

  /** One of the key's delete timers fires: the key's entry, whichever store
      wrote it, is removed. */
  function Expire(c: Cache, key: string): (r: Cache)
    requires key in c.armed
    ensures r.entries.Keys == c.entries.Keys - {key}
    ensures forall k :: k in r.entries ==> r.entries[k] == c.entries[k]
    ensures r.armed == c.armed - multiset{key} && |r.armed| + 1 == |c.armed|
  {
    Cache(c.entries - {key}, c.armed - multiset{key})
  }

  /** A non-200 response never enters the cache. */
  lemma StoreIgnoresNonOk(c: Cache, key: string, statusCode: int, headers: Headers, chunks: seq<Bytes>)
    requires statusCode != 200
    ensures Store(c, key, statusCode, headers, chunks) == c
  {
  }

  /** A 200 response replaces whatever the key held, with the concatenation
      of exactly the chunks received; every other key keeps its entry. */
  lemma StoreOk(c: Cache, key: string, headers: Headers, chunks: seq<Bytes>)
    ensures var r := Store(c, key, 200, headers, chunks);
            && r.entries.Keys == c.entries.Keys + {key}
            && r.entries[key] == Entry(200, headers, Flatten(chunks))
            && (forall k :: k in c.entries && k != key ==> r.entries[k] == c.entries[k])
            && r.armed == c.armed + multiset{key}
  {
  }

  /** After a timer fires for a key, the key is gone (the next request for it
      is a miss) and every other key is untouched. */
  lemma ExpireRemoves(c: Cache, key: string)
    requires key in c.armed
    ensures Lookup(Expire(c, key), key) == None
    ensures forall k :: k != key ==> Lookup(Expire(c, key), k) == Lookup(c, k)
  {
  }

  /** Storing and expiring both keep a pending timer behind every entry. */
  lemma TimersCoverPreserved(c: Cache, key: string, statusCode: int, headers: Headers, chunks: seq<Bytes>)
    requires TimersCover(c)
    ensures TimersCover(Store(c, key, statusCode, headers, chunks))
    ensures key in c.armed ==> TimersCover(Expire(c, key))
  {
    if key in c.armed {
      var r := Expire(c, key);
      forall k | k in r.entries
        ensures k in r.armed
      {
        assert k != key && k in c.entries;
        assert r.armed[k] == c.armed[k];
      }
    }
  }

  /** The cost of one timer per store: when two misses for the same key both
      store, the first store's timer deletes the second entry although that
      entry's own timer is still pending, so it lives less than CACHE_TTL. */
  lemma {:induction false} EarlierTimerDeletesLaterEntry(c: Cache, key: string, h1: Headers, b1: seq<Bytes>, h2: Headers, b2: seq<Bytes>)
    ensures var second := Store(Store(c, key, 200, h1, b1), key, 200, h2, b2);
            && Lookup(second, key) == Some(Entry(200, h2, Flatten(b2)))
            && key in second.armed
            && Lookup(Expire(second, key), key) == None
            && key in Expire(second, key).armed
  {
    var first := Store(c, key, 200, h1, b1);
    var second := Store(first, key, 200, h2, b2);
    assert second.armed[key] == c.armed[key] + 2;
    assert Expire(second, key).armed[key] == c.armed[key] + 1;
  }
}
