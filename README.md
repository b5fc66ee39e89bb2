# Node.js reverse proxy: a Dafny model

The repository is a small HTTP reverse proxy for Node.js, built up in steps.
This model covers four of those steps:

- `loadbalancer.js`: a round-robin balancer over a fixed list of three
  backends. A request goes to the server at the current index, and the index
  then wraps on to the next server.
- `loadbalancer_v2.js`: the same balancer with health checks. Every server
  carries an `isUp` flag that a periodic `GET /` probe sets and clears.
  Requests go round robin over the servers that are up. When none is up the
  client gets a 500.
- `caching_proxy.js`: a round-robin proxy with an in-memory response cache.
  The key is `METHOD:URL`. A 200 response is stored when it ends, and a
  timer deletes the entry 20 seconds later. A hit is replayed with
  `X-Cache: HIT`.
- `secure_proxy.js`: the caching proxy behind a per-client fixed-window rate
  limiter (5 requests per 10 000 ms). It also adds three security headers to
  every response it serves from the cache or from a backend.

Modules:

- `Http` (`http.dfy`): the client response object shared by the proxies. It
  is a class with Node's `setHeader`, `writeHead`, `write` and `end`
  semantics. The module also holds the `pipe` and tee loops, and `Relay`,
  the plain pass-through used by both balancers.
- `RateLimit` (`rate_limit.dfy`): the limiter as a function on the table of
  client records, with lemmas about runs of requests.
- `ResponseCache` (`response_cache.dfy`): the cache as a value. It holds the
  entries and the multiset of delete timers that are armed and have not yet
  fired.
- `RoundRobin` (`round_robin.dfy`): the wrapping index and the "every server
  exactly once per cycle" theorems.
- `Health` (`health.dfy`): the pool with its health flags, probes, the
  filter of active servers and the health-aware router.
- One class per proxy. The fields of each class are the globals of its file:
  - `LoadBalancer.Balancer`
  - `SmartLoadBalancer.Balancer`
  - `CachingProxy.Proxy`
  - `SecureProxy.Proxy`

  Each request handler and each backend callback is a method. Its
  postcondition ties the new state to the pure functions above, and the
  properties are proved about those functions.

Time is not read from a clock: the caller supplies `now`, in milliseconds.
A backend's behaviour is a `BackendReply` parameter: either the status,
headers and body chunks it sends, or `Unreachable` when the request fails.
Each health probe outcome is a `Probe` parameter. A timer firing is a call
to `Expire`. Header names are stored in lower case, as Node.js does.

Four behaviours of the code worth stating:

- The cache does no expiry check when it is read. An entry lives until one
  of its key's timers fires.
- A probe answered with a status other than 200 leaves a server's flag as it
  was. It does not mark the server down.
- A 429 or 502 response gets none of the security headers.
- Any 200 response is cached, whatever its size.

## Model

| member | source | states |
|---|---|---|
| Http.Flatten | secure_proxy.js:111 | `Buffer.concat` of one chunk is that chunk; of no chunks, the empty body |
| Http.FlattenAppend | caching_proxy.js:81 | concatenating two batches of chunks is concatenating their two bodies |
| Http.FlattenLength | caching_proxy.js:81 | the full body's length is the sum of the chunk lengths |
| Http.ClientResponse.constructor | caching_proxy.js:20 | a fresh response has Node's default status 200, no headers, nothing sent or written, and is not finished |
| Http.ClientResponse.SetHeader | secure_proxy.js:135-137 | before the head is sent, sets one header and changes nothing else |
| Http.ClientResponse.WriteHead | secure_proxy.js:99 | sets the status; the given headers are merged over the ones set before and win on a shared name; the head is sent |
| Http.ClientResponse.Write | caching_proxy.js:70 | appends the chunk to the body and sends the head implicitly if it was not sent yet |
| Http.ClientResponse.End | caching_proxy.js:74 | appends the optional final data and finishes the response |
| Http.Pipe | loadbalancer.js:36 | the client body is exactly the backend's chunks, in order, and the response is finished |
| Http.Tee | caching_proxy.js:68-71 | every chunk is both kept and written to the client, in arrival order; the kept copy equals what the client got |
| Http.Relay | loadbalancer_v2.js:84-93 | a reached backend's status, headers and chunks pass through unchanged; a failed one yields a 502 with the given text |
| RateLimit.Admit | secure_proxy.js:36-60 | the client gets a record and only that record changes; the request is admitted iff its record's count is at most 5 after counting; every record keeps a count of at least 1 |
| RateLimit.FirstRequest | secure_proxy.js:36-37 | an unseen client gets the record (1, now) and is admitted |
| RateLimit.WithinWindow | secure_proxy.js:47-52 | inside the window the count rises by one, the start stays, and the request passes iff the new count is at most 5 |
| RateLimit.ResetOnlyAfterWindow | secure_proxy.js:43-46 | a known client's window restarts iff more than 10 000 ms have passed since its start (strictly more) |
| RateLimit.AdmitAll | secure_proxy.js:36-60 | a run of requests gives one verdict per request and leaves a record for the client |
| RateLimit.WindowRun | secure_proxy.js:47-58 | inside one window, refused requests count too: the record ends `n` higher, and request j passes iff count + j + 1 <= 5 |
| RateLimit.SixthRequestRejected | secure_proxy.js:36-58 | a run that opens a window and stays inside it admits exactly its first five requests |
| RateLimit.RejectionPersists | secure_proxy.js:49-58 | once refused, every later request inside the same window is refused |
| RateLimit.BurstAcrossBoundary | secure_proxy.js:43-46 | five requests late in one window and five early in the next are all admitted |
| RateLimit.AdmitAllSplit | secure_proxy.js:36-60 | two batches of requests in a row act exactly like their concatenation |
| ResponseCache.CacheKey | secure_proxy.js:64 | the key is the method, one colon, then the URL |
| ResponseCache.CacheKeyInjective | caching_proxy.js:22-25 | for colon-free methods, two requests share a key iff they have the same method and URL |
| ResponseCache.CacheKeyNeedsColonFreeMethod | caching_proxy.js:25 | without the colon-free method, two different requests share a key |
| ResponseCache.Lookup | caching_proxy.js:32-34 | a hit iff the key is in the map, and the hit is the stored entry |
| ResponseCache.HitHeaders | caching_proxy.js:37-40 | the replayed headers are the stored ones plus `x-cache: HIT`, and nothing else changes |
| ResponseCache.Store | caching_proxy.js:80-94 | no key other than the stored one gains or loses an entry, and the key has an entry afterwards iff it had one or the status is 200; StoreOk and StoreIgnoresNonOk give the new entry and timers |
| ResponseCache.Expire | caching_proxy.js:91-94 | the fired key loses its entry, every other entry keeps its value, and exactly one of the fired key's own pending timers is used up |
| ResponseCache.StoreIgnoresNonOk | caching_proxy.js:80 | a non-200 response leaves the cache and its timers unchanged |
| ResponseCache.StoreOk | caching_proxy.js:80-94 | a 200 replaces the key's entry with the concatenated chunks, keeps every other key and arms exactly one more timer, for the key, leaving the other keys' timers as they were |
| ResponseCache.ExpireRemoves | caching_proxy.js:91-94 | after a timer fires its key is a miss, and every other key looks up as before |
| ResponseCache.TimersCoverPreserved | caching_proxy.js:80-94 | storing and expiring both keep a pending timer behind every entry |
| ResponseCache.EarlierTimerDeletesLaterEntry | caching_proxy.js:83-94 | after two stores for one key, the first timer deletes the second entry while that entry's own timer is still pending |
| RoundRobin.Advance | loadbalancer.js:18-21 | the next index is in range: one more, or 0 after the last server |
| RoundRobin.Schedule | loadbalancer.js:20-21 | k requests give k picks |
| RoundRobin.After | loadbalancer.js:21 | the index after k requests stays in range; AfterIs gives its value |
| RoundRobin.ScheduleAt | loadbalancer.js:20-21 | the j-th pick from index `start` is (start + j) mod n |
| RoundRobin.AfterIs | loadbalancer.js:21 | the index after k requests is (start + k) mod n |
| RoundRobin.ScheduleFair | loadbalancer.js:18-21 | n consecutive requests visit each of the n servers exactly once |
| RoundRobin.ScheduleFromZero | loadbalancer.js:11-21 | from the initial index 0, the first n requests go to servers 0, 1, ..., n-1 |
| RoundRobin.ScheduleSplit | loadbalancer.js:20-21 | a second batch of requests continues from where the first left the index |
| RoundRobin.ScheduleRepeats | loadbalancer.js:20-21 | after a full cycle the picks repeat identically |
| Health.Configure | loadbalancer_v2.js:5-9 | every configured server starts up, with its host and port |
| Health.NextIsUp | loadbalancer_v2.js:28-44 | the flag transition of one probe; ProbeTransitions states its three cases |
| Health.ApplyProbe | loadbalancer_v2.js:27-44 | a probe changes only its own server's flag |
| Health.ProbeTransitions | loadbalancer_v2.js:28-44 | a 200 marks the server up, an error or a timeout marks it down, and any other status changes nothing |
| Health.ProbeIdempotent | loadbalancer_v2.js:28-44 | the same outcome twice has the effect of once |
| Health.ProbesCommute | loadbalancer_v2.js:20-45 | probes of different servers may end in either order |
| Health.Active | loadbalancer_v2.js:59 | the filter keeps exactly the servers that are up |
| Health.UpIndices | loadbalancer_v2.js:59 | the positions of the up servers, strictly increasing and complete |
| Health.ActiveInConfigurationOrder | loadbalancer_v2.js:59 | the active list is the up servers in configuration order |
| Health.ActiveDistinct | loadbalancer_v2.js:59 | distinct configured servers stay distinct in the active list |
| Health.Route | loadbalancer_v2.js:59-71 | all-down iff no server is up; otherwise the pick is an up server of the pool |
| Health.RouteSelectsUpServer | loadbalancer_v2.js:68-71 | the pick is the (counter mod k)-th of the k up servers, in configuration order |
| Health.Picks | loadbalancer_v2.js:70-71 | k requests against an unchanged pool give k routing decisions |
| Health.PicksAt | loadbalancer_v2.js:70-71 | with an unchanged pool the j-th request goes to active[(counter + j) mod k] |
| Health.PicksDistinct | loadbalancer_v2.js:68-71 | k consecutive requests never pick the same up server twice |
| Health.PicksCover | loadbalancer_v2.js:68-71 | k consecutive requests pick every up server |
| Health.ProbeMovesServer | loadbalancer_v2.js:35-44 | a failed probe takes a server out of rotation, and a 200 brings it back |
| LoadBalancer.Balancer.constructor | loadbalancer.js:4-11 | the configured servers, with the index at 0 |
| LoadBalancer.Balancer.HandleRequest | loadbalancer.js:20-21 | the target is the server at the current index; the index advances and wraps, whatever the server's health |
| LoadBalancer.Balancer.OnBackendReply | loadbalancer.js:34-44 | the backend's answer passes through, or a bare 502 with no headers and "Bad Gateway: Backend server is down."; the index is not rolled back |
| SmartLoadBalancer.Balancer.constructor | loadbalancer_v2.js:5-12 | every server is up, and the counter is at 0 |
| SmartLoadBalancer.Balancer.OnProbe | loadbalancer_v2.js:27-44 | the pool becomes `ApplyProbe` of the old pool |
| SmartLoadBalancer.Balancer.CheckServerHealth | loadbalancer_v2.js:17-46 | one round applies each server's own outcome to that server's flag |
| SmartLoadBalancer.Balancer.HandleRequest | loadbalancer_v2.js:59-71 | the decision is `Route` of the pool and the counter; when all are down, a bare 500 and the counter stays; otherwise the counter grows by one |
| SmartLoadBalancer.Balancer.OnBackendReply | loadbalancer_v2.js:84-93 | the backend's answer passes through, or a bare 502 "Bad Gateway" |
| CachingProxy.MissDeliveryAsWritten | caching_proxy.js:62-74 | as written, a miss reaches the client with status 200 and no backend headers; AsWrittenFaithfulOnlyForBare200 compares it with the intended delivery |
| CachingProxy.MissDelivery | caching_proxy.js:62-74 | the intended miss delivery: the backend's status, headers and flattened body; HitReplaysMiss relates it to the cache |
| CachingProxy.AsWrittenFaithfulOnlyForBare200 | caching_proxy.js:62-74 | as written, the client sees what the backend sent iff the backend answered 200 with no headers |
| CachingProxy.AsWrittenHidesBackendStatus | caching_proxy.js:62-74 | as written, a backend 404 is delivered as a 200, and a hit shows a content type that the miss did not |
| CachingProxy.HitReplaysMiss | caching_proxy.js:32-43 | with the corrected miss path, a hit replays the miss's status, body and headers, plus `x-cache: HIT` |
| CachingProxy.Proxy.constructor | caching_proxy.js:3-18 | index 0, an empty cache and no timers |
| CachingProxy.Proxy.HandleRequest | caching_proxy.js:25-52 | a hit replays the stored entry and leaves the index alone; a miss forwards to the current server and advances the index |
| CachingProxy.Proxy.OnBackendReply | caching_proxy.js:62-102 | corrected: the client gets the backend's status, headers and chunks; a 200 is cached with exactly the body the client got; a failure gets a 502 |
| CachingProxy.Proxy.OnBackendReplyAsWritten | caching_proxy.js:62-102 | as written: the same cache effect, but the client gets the implicit 200 with no backend headers |
| CachingProxy.Proxy.Save | caching_proxy.js:80-94 | the cache becomes `Store` of the old cache, and every entry keeps a pending timer |
| CachingProxy.Proxy.Expire | caching_proxy.js:91-94 | a timer firing removes its key, and every entry keeps a pending timer |
| SecureProxy.Decide | secure_proxy.js:36-84 | the pipeline for one request; only a forward moves the index, a forward goes to the current server under the request's cache key, and a hit carries the entry stored under that key |
| SecureProxy.PipelineOrder | secure_proxy.js:36-84 | every request is counted; only admitted requests reach the cache, and only misses reach the router |
| SecureProxy.RejectedChangesOnlyItsRecord | secure_proxy.js:47-57 | a refused request leaves the router index and every other client's record as they were |
| SecureProxy.HitServesStoredEntry | secure_proxy.js:68-79 | a hit serves the stored entry for the key and selects no backend |
| SecureProxy.MissAdvancesIndex | secure_proxy.js:83-84 | a miss goes to the current server, and the index moves on within range |
| SecureProxy.ExpiredKeyIsForwarded | secure_proxy.js:117 | after a key's timer fires, an admitted request for it is forwarded |
| SecureProxy.SecurityHeaders | secure_proxy.js:135-137 | the three headers with their values: `x-powered-by: SecureProxy v1.0`, `x-content-type-options: nosniff`, `x-frame-options: DENY` |
| SecureProxy.ServedHeaders | secure_proxy.js:72-76 | the served headers are the three security headers plus the given ones, and the given ones win on a shared name |
| SecureProxy.BackendHeaderWins | secure_proxy.js:72-76 | a backend's own `x-powered-by` replaces the proxy's, on a miss and on every hit |
| SecureProxy.AddSecurityHeaders | secure_proxy.js:133-138 | sets `x-powered-by`, `x-content-type-options` and `x-frame-options` on the response |
| SecureProxy.Proxy.constructor | secure_proxy.js:10-22 | index 0, no rate-limit records, an empty cache and no timers |
| SecureProxy.Proxy.HandleRequest | secure_proxy.js:25-84 | the new limiter table, index and outcome are `Decide` of the old state; a refusal is a 429 text/plain; a hit is served with the security headers and `x-cache: HIT`; a forward carries the request's cache key |
| SecureProxy.Proxy.ServeHit | secure_proxy.js:68-79 | the stored status and body, with the security headers merged under the stored headers plus `x-cache: HIT` |
| SecureProxy.Proxy.CountRequest | secure_proxy.js:36-60 | updating the client's record in place has the effect of `Admit` |
| SecureProxy.Proxy.OnBackendReply | secure_proxy.js:94-125 | the client gets the backend's status, its headers over the security headers, and its chunks; a 200 is cached with exactly that body; a failure gets a bare 502 |
| SecureProxy.Proxy.StreamReply | secure_proxy.js:94-108 | security headers, then the backend's head, then every chunk written and kept |
| SecureProxy.Proxy.Save | secure_proxy.js:109-118 | the cache becomes `Store` of the old cache, and every entry keeps a pending timer |
| SecureProxy.Proxy.Expire | secure_proxy.js:117 | a timer firing removes its key, and every entry keeps a pending timer |

## Left out

- `proxy.js` and `backend.js` are not part of this model. The first is the single-backend forerunner of `loadbalancer.js`, and the second is the sample backend.
- Sockets, listening, forwarding the request line, headers and body to the backend (`clientReq.pipe(proxyReq)`), and console logging are left out. A backend's behaviour is a parameter.
- `Date.now()` and the timers are left out. Time is the `now` parameter, a delete timer firing is a call to `Expire`, and a probe outcome is a parameter.
- The probe's 2000 ms timeout and the 10 s `setInterval` schedule are left out; only the outcome of each probe is modelled.
- The backend reply's callbacks are folded into one step: `OnBackendReply` of each proxy and `Http.Relay` run the 'response' callback, every 'data' callback and the 'end' callback together, so another request, probe or timer cannot run between two chunks. Nothing is lost by this: only the 'end' callback touches shared state (`cache.set` and the delete timer), and the 'response' and 'data' callbacks write only to their own client response. A request, probe or timer that runs between two chunks therefore acts the same as one placed before the whole reply.
- A backend error after its response has started is not modelled. `BackendReply` either answers completely or fails before answering.
- Node's default response headers (`Date`, `Connection`, `Transfer-Encoding`) are left out. Header names are compared in lower case only, and duplicate or multi-valued headers are not modelled.
- SmartLoadBalancer.Balancer.HandleRequest: the counter is an unbounded natural. JavaScript numbers lose precision beyond 2^53 requests, which is not modelled.
- SmartLoadBalancer.Balancer.CheckServerHealth: models a round in which every probe has ended, each outcome applied in configuration order. Probes of one round that end in another order give the same pool, by `Health.ProbesCommute`.
- Http.Text: the messages the proxy writes itself are ASCII, so each character is taken as one byte.

## Findings

| source | as written | input that shows it | evidently intended | confidence | as-written member | corrected member |
|---|---|---|---|---|---|---|
| caching_proxy.js:62-74 | the response callback writes chunks without calling `writeHead`, so the head goes out implicitly with status 200 and none of the backend's headers | a backend answering 404 with `content-type: text/plain` and body "Not Found": the client gets a 200 with no content type | pass the backend's status and headers to the client before the body, as `secure_proxy.js` and both balancers do | high (not executed) | CachingProxy.AsWrittenHidesBackendStatus | CachingProxy.Proxy.OnBackendReply |
