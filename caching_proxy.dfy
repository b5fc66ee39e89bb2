/** caching_proxy.js: a round-robin proxy that answers repeated requests from
    an in-memory cache of 200 responses, each entry deleted by a timer armed
    when it was stored. */
module CachingProxy {
  import opened Http
  import RoundRobin
  import opened ResponseCache

  /** What the synchronous part of the request handler did. */
  datatype Decision = Served | Forward(target: Server, key: string)

  /** What the client receives for a forwarded request. */
  datatype Delivered = Delivered(statusCode: int, headers: Headers, body: Bytes)

  /** The miss path as caching_proxy.js writes it: the 'data' handler writes
      chunks without any `writeHead`, so the head goes out implicitly with
      Node's default status 200 and without the backend's headers. */
  function MissDeliveryAsWritten(reply: BackendReply): Delivered
    requires reply.Reply?
  {
    Delivered(200, map[], Flatten(reply.chunks))
  }

  /** The miss path as intended (and as secure_proxy.js and loadbalancer.js
      do it): the backend's status and headers, then its body. */
  function MissDelivery(reply: BackendReply): (d: Delivered)
    requires reply.Reply?
  {
    Delivered(reply.statusCode, reply.headers, Flatten(reply.chunks))
  }

  /** As written, the client sees what the backend sent only when the
      backend itself answered 200 with no headers at all. */
  lemma AsWrittenFaithfulOnlyForBare200(reply: BackendReply)
    requires reply.Reply?
    ensures MissDeliveryAsWritten(reply) == MissDelivery(reply)
        <==> reply.statusCode == 200 && reply.headers == map[]
  {
  }

  /** As written, a backend 404 reaches the client as a 200 without its
      content type, and a later hit for a cached 200 carries headers the miss
      never showed. */
  lemma AsWrittenHidesBackendStatus()
    ensures var reply := Reply(404, map["content-type" := "text/plain"], [Text("Not Found")]);
            MissDeliveryAsWritten(reply).statusCode == 200 != reply.statusCode
    ensures var reply := Reply(200, map["content-type" := "text/plain"], [Text("ok")]);
            var hit := Lookup(Store(Empty, "GET:/", 200, reply.headers, reply.chunks), "GET:/");
            && hit.Some?
            && "content-type" in HitHeaders(hit.value.headers)
            && "content-type" !in MissDeliveryAsWritten(reply).headers
  {
  }

  /** Corrected, a hit replays the miss that filled the cache: the same
      status, the same bytes and the same headers, plus `x-cache: HIT`. */
  lemma HitReplaysMiss(c: Cache, key: string, reply: BackendReply)
    requires reply.Reply? && reply.statusCode == 200
    ensures var miss := MissDelivery(reply);
            var hit := Lookup(Store(c, key, 200, reply.headers, reply.chunks), key);
            && hit.Some?
            && hit.value.statusCode == miss.statusCode
            && hit.value.body == miss.body
            && HitHeaders(hit.value.headers) == miss.headers["x-cache" := "HIT"]
  {
  }

  class Proxy {
    /** The static `servers` configuration. */
    const servers: seq<Server>
    /** The global `currentServerIndex`. */
    var currentServerIndex: nat
    /** The global `cache` map. */
    var cache: map<string, Entry>
    /** The keys of the delete timers armed and not yet fired. */
    var timers: multiset<string>

    function Contents(): Cache
      reads this
    {
      Cache(cache, timers)
    }

    ghost predicate Valid()
      reads this
    {
      |servers| > 0 && currentServerIndex < |servers| && TimersCover(Contents())
    }

    constructor (servers: seq<Server>)
      requires |servers| > 0
      ensures Valid() && this.servers == servers
      ensures currentServerIndex == 0 && Contents() == Empty
    {
      this.servers := servers;
      currentServerIndex, cache, timers := 0, map[], multiset{};
    }

    /** The synchronous part of the request handler. On a hit the stored
        status, headers (with `x-cache: HIT`) and body are sent and nothing
        else happens; on a miss the round-robin target is chosen and the
        index moves on. The cache itself is only read. */
    method HandleRequest(verb: string, url: string, res: ClientResponse) returns (d: Decision)
      requires Valid() && res.Untouched()
      modifies this`currentServerIndex, res
      ensures Valid()
      ensures var key := CacheKey(verb, url);
              key in cache ==>
                && d == Served && currentServerIndex == old(currentServerIndex)
                && res.finished && res.statusCode == cache[key].statusCode
                && res.headers == HitHeaders(cache[key].headers) && res.Body() == cache[key].body
      ensures var key := CacheKey(verb, url);
              key !in cache ==>
                && d == Forward(servers[old(currentServerIndex)], key)
                && currentServerIndex == RoundRobin.Advance(old(currentServerIndex), |servers|)
                && res.Untouched()
    {
      var cacheKey := CacheKey(verb, url);
      if cacheKey in cache {
        var cachedResponse := cache[cacheKey];
        res.WriteHead(cachedResponse.statusCode, HitHeaders(cachedResponse.headers));
        res.End(cachedResponse.body);
        return Served;
      }
      var target := servers[currentServerIndex];
      currentServerIndex := (currentServerIndex + 1) % |servers|;
      d := Forward(target, cacheKey);
    }

    /** The backend's answer to a forwarded request, with the head written
        first as intended: every chunk is streamed to the client and kept, and
        on 'end' a 200 response is stored under the key with the concatenated
        chunks and a delete timer is armed. A failed request gets a 502. */
    method OnBackendReply(key: string, reply: BackendReply, res: ClientResponse)
      requires Valid() && res.Untouched()
      modifies this`cache, this`timers, res
      ensures Valid()
      ensures Contents() == if reply.Reply?
                            then Store(old(Contents()), key, reply.statusCode, reply.headers, reply.chunks)
                            else old(Contents())
      ensures res.finished
      ensures reply.Unreachable? ==>
                res.statusCode == 502 && res.headers == map[] && res.Body() == Text("Bad Gateway")
      ensures reply.Reply? ==>
                && Delivered(res.statusCode, res.headers, res.Body()) == MissDelivery(reply)
                && res.written == reply.chunks
      ensures reply.Reply? && reply.statusCode == 200 ==> cache[key].body == res.Body()
    {
      match reply {
        case Unreachable =>
          res.WriteHead(502, map[]);
          res.End(Text("Bad Gateway"));
        case Reply(status, hs, chunks) =>
          res.WriteHead(status, hs);
          assert res.headers == hs;
          var bodyChunks := Tee(chunks, res);
          res.End([]);
          assert res.written == chunks;
          Save(key, status, hs, bodyChunks);
          assert res.Body() == Flatten(chunks);
      }
    }

    /** The same step as caching_proxy.js writes it, without `writeHead`. */
    method OnBackendReplyAsWritten(key: string, reply: BackendReply, res: ClientResponse)
      requires Valid() && res.Untouched()
      modifies this`cache, this`timers, res
      ensures Valid()
      ensures Contents() == if reply.Reply?
                            then Store(old(Contents()), key, reply.statusCode, reply.headers, reply.chunks)
                            else old(Contents())
      ensures res.finished
      ensures reply.Unreachable? ==>
                res.statusCode == 502 && res.headers == map[] && res.Body() == Text("Bad Gateway")
      ensures reply.Reply? ==>
                Delivered(res.statusCode, res.headers, res.Body()) == MissDeliveryAsWritten(reply)
    {
      match reply {
        case Unreachable =>
          res.WriteHead(502, map[]);
          res.End(Text("Bad Gateway"));
        case Reply(status, hs, chunks) =>
          var bodyChunks := Tee(chunks, res);
          res.End([]);
          assert res.written == chunks;
          Save(key, status, hs, bodyChunks);
          assert res.Body() == Flatten(chunks);
      }
    }

    /** The 'end' handler's cache step: only a 200 is stored, and each store
        arms its own delete timer. */
    method Save(key: string, status: int, hs: Headers, bodyChunks: seq<Bytes>)
      requires Valid()
      modifies this`cache, this`timers
      ensures Valid()
      ensures Contents() == Store(old(Contents()), key, status, hs, bodyChunks)
    {
      if status == 200 {
        var fullBody := Flatten(bodyChunks);
        cache := cache[key := Entry(status, hs, fullBody)];
        timers := timers + multiset{key};
      }
    }

    /** One delete timer for the key fires, CACHE_TTL after the store that
        armed it. */
    method Expire(key: string)
      requires Valid() && key in timers
      modifies this`cache, this`timers
      ensures Valid()
      ensures Contents() == ResponseCache.Expire(old(Contents()), key)
    {
      TimersCoverPreserved(Contents(), key, 0, map[], []);
      cache := cache - {key};
      timers := timers - multiset{key};
    }
  }
}
