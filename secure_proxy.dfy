/** secure_proxy.js: the caching round-robin proxy behind a per-client
    fixed-window rate limiter, adding security headers to what it serves. */
module SecureProxy {
  import opened Http
  import RoundRobin
  import RateLimit
  import opened ResponseCache

  const TOO_MANY_REQUESTS: string := "Too Many Requests! Please wait a moment."

  /** How the request handler disposed of one request: refused by the rate
      limiter, answered from the cache, or forwarded to `servers[serverIndex]`
      with the cache key under which the reply will be stored. */
  datatype Outcome = Reject429 | Hit(entry: Entry) | Forward(serverIndex: nat, key: string)

  /** The rate-limit table and router index after one request, and its outcome. */
  datatype Step = Step(rateLimits: RateLimit.Table, currentServerIndex: nat, outcome: Outcome)

  /** The pipeline for one request, in the handler's order: the rate limiter
      counts the request and may refuse it; an admitted request is answered
      from the cache if its key is there; otherwise the round-robin target is
      taken and the index moves on. */
  function Decide(rateLimits: RateLimit.Table, cache: map<string, Entry>, index: nat, serverCount: nat,
                  clientIP: string, verb: string, url: string, now: int): (s: Step)
    requires serverCount > 0
    ensures !s.outcome.Forward? ==> s.currentServerIndex == index
    ensures s.outcome.Forward? ==> s.outcome.serverIndex == index && s.outcome.key == CacheKey(verb, url)
    ensures s.outcome.Hit? ==> CacheKey(verb, url) in cache && s.outcome.entry == cache[CacheKey(verb, url)]
  {
    var admission := RateLimit.Admit(rateLimits, clientIP, now);
    if !admission.admitted then Step(admission.records, index, Reject429)
    else
      var key := CacheKey(verb, url);
      if key in cache then Step(admission.records, index, Hit(cache[key]))
      else Step(admission.records, RoundRobin.Advance(index, serverCount), Forward(index, key))
  }

  /** Every request is counted by the rate limiter, whatever happens to it
      next; the cache is consulted only for admitted requests, and the router
      only on a miss. */
  lemma PipelineOrder(rateLimits: RateLimit.Table, cache: map<string, Entry>, index: nat, serverCount: nat,
                      clientIP: string, verb: string, url: string, now: int)
    requires serverCount > 0
    ensures var s := Decide(rateLimits, cache, index, serverCount, clientIP, verb, url, now);
            var admission := RateLimit.Admit(rateLimits, clientIP, now);
            && s.rateLimits == admission.records
            && (s.outcome.Reject429? <==> !admission.admitted)
            && (s.outcome.Hit? <==> admission.admitted && CacheKey(verb, url) in cache)
            && (s.outcome.Forward? <==> admission.admitted && CacheKey(verb, url) !in cache)
  {
  }

  /** A refused request leaves the router index alone and changes no other
      client's record. */
  lemma RejectedChangesOnlyItsRecord(rateLimits: RateLimit.Table, cache: map<string, Entry>, index: nat,
                                     serverCount: nat, clientIP: string, verb: string, url: string, now: int)
    requires serverCount > 0
    requires Decide(rateLimits, cache, index, serverCount, clientIP, verb, url, now).outcome.Reject429?
    ensures var s := Decide(rateLimits, cache, index, serverCount, clientIP, verb, url, now);
            && s.currentServerIndex == index
            && s.rateLimits.Keys == rateLimits.Keys
            && forall ip :: ip in rateLimits && ip != clientIP ==> s.rateLimits[ip] == rateLimits[ip]
  {
  }

  /** A hit serves the stored entry for the request's key and selects no
      backend. */
  lemma HitServesStoredEntry(rateLimits: RateLimit.Table, cache: map<string, Entry>, index: nat,
                             serverCount: nat, clientIP: string, verb: string, url: string, now: int)
    requires serverCount > 0
    requires Decide(rateLimits, cache, index, serverCount, clientIP, verb, url, now).outcome.Hit?
    ensures var s := Decide(rateLimits, cache, index, serverCount, clientIP, verb, url, now);
            && CacheKey(verb, url) in cache
            && s.outcome.entry == cache[CacheKey(verb, url)]
            && s.currentServerIndex == index
  {
  }

  /** A miss goes to the server at the current index, and the index moves on
      within [0, serverCount). */
  lemma MissAdvancesIndex(rateLimits: RateLimit.Table, cache: map<string, Entry>, index: nat,
                          serverCount: nat, clientIP: string, verb: string, url: string, now: int)
    requires index < serverCount
    requires Decide(rateLimits, cache, index, serverCount, clientIP, verb, url, now).outcome.Forward?
    ensures var s := Decide(rateLimits, cache, index, serverCount, clientIP, verb, url, now);
            && s.outcome.serverIndex == index
            && s.currentServerIndex == (index + 1) % serverCount
            && s.currentServerIndex < serverCount
  {
  }

  /** Once a key's delete timer has fired, the next admitted request for it
      is a miss that selects a backend. */
  lemma ExpiredKeyIsForwarded(rateLimits: RateLimit.Table, c: Cache, index: nat, serverCount: nat,
                              clientIP: string, verb: string, url: string, now: int)
    requires serverCount > 0 && CacheKey(verb, url) in c.armed
    requires RateLimit.Admit(rateLimits, clientIP, now).admitted
    ensures Decide(rateLimits, Expire(c, CacheKey(verb, url)).entries, index, serverCount,
                   clientIP, verb, url, now).outcome == Forward(index, CacheKey(verb, url))
  {
    ExpireRemoves(c, CacheKey(verb, url));
  }

  /** The headers `addSecurityHeaders` sets. */
  function SecurityHeaders(): Headers
  {
    map["x-powered-by" := "SecureProxy v1.0",
        "x-content-type-options" := "nosniff",
        "x-frame-options" := "DENY"]
  }

  /** The headers of a served response: the security headers, then the
      headers given to `writeHead`, which win on a shared name. */
  function ServedHeaders(given: Headers): (h: Headers)
    ensures h.Keys == SecurityHeaders().Keys + given.Keys
    ensures forall name :: name in given ==> h[name] == given[name]
    ensures forall name :: name in SecurityHeaders() && name !in given ==> h[name] == SecurityHeaders()[name]
  {
    SecurityHeaders() + given
  }

  /** A backend that names itself in `x-powered-by` is not hidden: its value
      replaces the proxy's, on a miss and on every hit replaying it. */
  lemma BackendHeaderWins(stored: Headers)
    requires "x-powered-by" in stored
    ensures ServedHeaders(stored)["x-powered-by"] == stored["x-powered-by"]
    ensures ServedHeaders(HitHeaders(stored))["x-powered-by"] == stored["x-powered-by"]
    ensures ServedHeaders(HitHeaders(stored))["x-cache"] == "HIT"
  {
  }

  /** `addSecurityHeaders(res)`: three `setHeader` calls on the response. */
  method AddSecurityHeaders(res: ClientResponse)
    requires !res.headSent
    modifies res`headers
    ensures res.headers == old(res.headers) + SecurityHeaders()
  {
    res.SetHeader("x-powered-by", "SecureProxy v1.0");
    res.SetHeader("x-content-type-options", "nosniff");
    res.SetHeader("x-frame-options", "DENY");
  }

  class Proxy {
    /** The static `servers` configuration. */
    const servers: seq<Server>
    /** The global `currentServerIndex`. */
    var currentServerIndex: nat
    /** The global `rateLimits` map. */
    var rateLimits: RateLimit.Table
    /** The global `cache` map. */
    var cache: map<string, Entry>
    /** The keys of the delete timers armed and not yet fired. */
    var timers: multiset<string>

    function Contents(): Cache
      reads this
    {
      Cache(cache, timers)
    }

    ghost predicate Valid()
      reads this
    {
      && |servers| > 0 && currentServerIndex < |servers|
      && RateLimit.WellFormed(rateLimits) && TimersCover(Contents())
    }

    constructor (servers: seq<Server>)
      requires |servers| > 0
      ensures Valid() && this.servers == servers
      ensures currentServerIndex == 0 && rateLimits == map[] && Contents() == Empty
    {
      this.servers := servers;
      currentServerIndex, rateLimits, cache, timers := 0, map[], map[], multiset{};
    }

    /** The synchronous part of the request handler: rate limit (refusing
        with 429 and nothing else), then cache (serving a hit with security
        headers and `x-cache: HIT`), then the round-robin step. */
    method HandleRequest(clientIP: string, verb: string, url: string, now: int, res: ClientResponse)
      returns (outcome: Outcome)
      requires Valid() && res.Untouched()
      modifies this`rateLimits, this`currentServerIndex, res
      ensures Valid()
      ensures Step(rateLimits, currentServerIndex, outcome)
           == Decide(old(rateLimits), cache, old(currentServerIndex), |servers|, clientIP, verb, url, now)
      ensures outcome.Reject429? ==>
                && res.finished && res.statusCode == 429
                && res.headers == map["content-type" := "text/plain"]
                && res.Body() == Text(TOO_MANY_REQUESTS)
      ensures outcome.Hit? ==>
                && res.finished && res.statusCode == outcome.entry.statusCode
                && res.headers == ServedHeaders(HitHeaders(outcome.entry.headers))
                && res.Body() == outcome.entry.body
      ensures outcome.Forward? ==> res.Untouched() && outcome.key == CacheKey(verb, url)
    {
      var admitted := CountRequest(clientIP, now);
      if !admitted {
        res.WriteHead(429, map["content-type" := "text/plain"]);
        res.End(Text(TOO_MANY_REQUESTS));
        return Reject429;
      }

      var cacheKey := CacheKey(verb, url);
      if cacheKey in cache {
        var cachedResponse := cache[cacheKey];
        ServeHit(cachedResponse, res);
        return Hit(cachedResponse);
      }

      var target := currentServerIndex;
      currentServerIndex := (currentServerIndex + 1) % |servers|;
      outcome := Forward(target, cacheKey);
    }

    /** The hit path: security headers, then the stored head with
        `x-cache: HIT`, then the stored body. */
    static method ServeHit(cachedResponse: Entry, res: ClientResponse)
      requires res.Untouched()
      modifies res
      ensures res.finished && res.statusCode == cachedResponse.statusCode
      ensures res.headers == ServedHeaders(HitHeaders(cachedResponse.headers))
      ensures res.Body() == cachedResponse.body
    {
      AddSecurityHeaders(res);
      res.WriteHead(cachedResponse.statusCode, HitHeaders(cachedResponse.headers));
      res.End(cachedResponse.body);
    }

    /** The rate-limit block: the client's record is created, reset or
        counted in place, and the request is refused once the count exceeds
        the maximum. */
    method CountRequest(clientIP: string, now: int) returns (admitted: bool)
      requires RateLimit.WellFormed(rateLimits)
      modifies this`rateLimits
      ensures RateLimit.WellFormed(rateLimits)
      ensures RateLimit.Admission(rateLimits, admitted) == RateLimit.Admit(old(rateLimits), clientIP, now)
    {
      if clientIP !in rateLimits {
        rateLimits := rateLimits[clientIP := RateLimit.Record(1, now)];
        return true;
      }
      var userData := rateLimits[clientIP];
      var currentTime := now;
      if currentTime - userData.startTime > RateLimit.RATE_LIMIT_WINDOW {
        userData := RateLimit.Record(1, currentTime);
        rateLimits := rateLimits[clientIP := userData];
        return true;
      }
      userData := userData.(count := userData.count + 1);
      rateLimits := rateLimits[clientIP := userData];
      admitted := userData.count <= RateLimit.MAX_REQUESTS_PER_WINDOW;
    }

    /** The backend's answer to a forwarded request: security headers and the
        backend's head, every chunk streamed to the client and kept, and on
        'end' a 200 response stored under the key with a delete timer armed.
        A failed request gets a bare 502. */
    method OnBackendReply(key: string, reply: BackendReply, res: ClientResponse)
      requires Valid() && res.Untouched()
      modifies this`cache, this`timers, res
      ensures Valid()
      ensures Contents() == if reply.Reply?
                            then Store(old(Contents()), key, reply.statusCode, reply.headers, reply.chunks)
                            else old(Contents())
      ensures res.finished
      ensures reply.Unreachable? ==>
                res.statusCode == 502 && res.headers == map[] && res.Body() == Text("Bad Gateway")
      ensures reply.Reply? ==>
                && res.statusCode == reply.statusCode && res.headers == ServedHeaders(reply.headers)
                && res.written == reply.chunks
      ensures reply.Reply? && reply.statusCode == 200 ==> cache[key].body == res.Body()
    {
      match reply {
        case Unreachable =>
          res.WriteHead(502, map[]);
          res.End(Text("Bad Gateway"));
        case Reply(status, hs, chunks) =>
          var bodyChunks := StreamReply(status, hs, chunks, res);
          Save(key, status, hs, bodyChunks);
          assert res.Body() == Flatten(chunks);
      }
    }

    /** The response callback up to 'end': security headers and the
        backend's head, then every chunk written to the client and kept. */
    static method StreamReply(status: int, hs: Headers, chunks: seq<Bytes>, res: ClientResponse)
      returns (bodyChunks: seq<Bytes>)
      requires res.Untouched()
      modifies res
      ensures res.finished && res.statusCode == status && res.headers == ServedHeaders(hs)
      ensures res.written == chunks && bodyChunks == chunks
    {
      AddSecurityHeaders(res);
      res.WriteHead(status, hs);
      bodyChunks := Tee(chunks, res);
      res.End([]);
      assert res.written == chunks;
    }

    /** The 'end' handler's cache step: only a 200 is stored, and each store
        arms its own delete timer. */
    method Save(key: string, status: int, hs: Headers, bodyChunks: seq<Bytes>)
      requires Valid()
      modifies this`cache, this`timers
      ensures Valid()
      ensures Contents() == Store(old(Contents()), key, status, hs, bodyChunks)
    {
      if status == 200 {
        var fullBody := Flatten(bodyChunks);
        cache := cache[key := Entry(status, hs, fullBody)];
        timers := timers + multiset{key};
      }
    }

    /** One delete timer for the key fires. */
    method Expire(key: string)
      requires Valid() && key in timers
      modifies this`cache, this`timers
      ensures Valid()
      ensures Contents() == ResponseCache.Expire(old(Contents()), key)
    {
      TimersCoverPreserved(Contents(), key, 0, map[], []);
      cache := cache - {key};
      timers := timers - multiset{key};
    }
  }
}
