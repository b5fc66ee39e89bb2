/** The backend pool of loadbalancer_v2.js: each configured server carries an
    `isUp` flag that health probes set and clear, the router filters the pool
    down to the servers that are up and picks among them round robin. */
module Health {
  import opened Http
  import RoundRobin

  /** How one health probe (`GET /` with a 2000 ms timeout) ended: with an
      answer carrying a status, with a connection error, or with a timeout. */
  datatype Probe = Answered(statusCode: int) | ConnectionError | TimedOut

  datatype Backend = Backend(host: string, port: int, isUp: bool)

  /** The router's pick for one request. */
  datatype Routed = AllDown | Target(backend: Backend)

  /** The pool at startup: the configured servers, every one of them up. */
  function Configure(servers: seq<Server>): (pool: seq<Backend>)
    ensures |pool| == |servers|
    ensures forall i :: 0 <= i < |pool| ==>
              pool[i].isUp && pool[i].host == servers[i].host && pool[i].port == servers[i].port
  {
    seq(|servers|, i requires 0 <= i < |servers| => Backend(servers[i].host, servers[i].port, true))
  }

  /** A server's flag after a probe: a 200 answer sets it, an error or a
      timeout clears it, and any other answer leaves it as it was. */
  function NextIsUp(isUp: bool, p: Probe): bool
  {
    match p
    case Answered(status) => if status == 200 then true else isUp
    case ConnectionError => false
    case TimedOut => false
  }

  /** The pool after the probe of server i has ended. */
  function ApplyProbe(pool: seq<Backend>, i: nat, p: Probe): (r: seq<Backend>)
    requires i < |pool|
    ensures |r| == |pool|
    ensures r[i].host == pool[i].host && r[i].port == pool[i].port
    ensures forall k :: 0 <= k < |pool| && k != i ==> r[k] == pool[k]
  {
    pool[i := pool[i].(isUp := NextIsUp(pool[i].isUp, p))]
  }

  /** The three ways a probe can end, and what each does to the flag. */
  lemma ProbeTransitions(pool: seq<Backend>, i: nat, p: Probe)
    requires i < |pool|
    ensures p == Answered(200) ==> ApplyProbe(pool, i, p)[i].isUp
    ensures p == ConnectionError || p == TimedOut ==> !ApplyProbe(pool, i, p)[i].isUp
    ensures p.Answered? && p.statusCode != 200 ==> ApplyProbe(pool, i, p) == pool
  {
  }

  /** Reporting the same outcome twice changes nothing more than once. */
  lemma ProbeIdempotent(pool: seq<Backend>, i: nat, p: Probe)
    requires i < |pool|
    ensures ApplyProbe(ApplyProbe(pool, i, p), i, p) == ApplyProbe(pool, i, p)
  {
  }

  /** Probes of different servers may end in either order. */
  lemma ProbesCommute(pool: seq<Backend>, i: nat, p: Probe, j: nat, q: Probe)
    requires i < |pool| && j < |pool| && i != j
    ensures ApplyProbe(ApplyProbe(pool, i, p), j, q) == ApplyProbe(ApplyProbe(pool, j, q), i, p)
  {
  }

  /** `servers.filter(server => server.isUp)`. */
  function Active(pool: seq<Backend>): (active: seq<Backend>)
    ensures |active| <= |pool|
    ensures forall b :: b in active ==> b in pool && b.isUp
    ensures forall b :: b in pool && b.isUp ==> b in active
  {
    if pool == [] then []
    else
      var last := pool[|pool| - 1];
      Active(pool[..|pool| - 1]) + (if last.isUp then [last] else [])
  }

  /** The configuration positions of the servers that are up, in increasing
      order: the reference for what the filter keeps. */
  function UpIndices(pool: seq<Backend>): (ix: seq<nat>)
    ensures forall j :: 0 <= j < |ix| ==> ix[j] < |pool| && pool[ix[j]].isUp
    ensures forall j1, j2 :: 0 <= j1 < j2 < |ix| ==> ix[j1] < ix[j2]
    ensures forall i :: 0 <= i < |pool| && pool[i].isUp ==> i in ix
  {
    if pool == [] then []
    else
      var n := |pool| - 1;
      var front := UpIndices(pool[..n]);
      assert forall j :: 0 <= j < |front| ==> front[j] < n && pool[front[j]] == pool[..n][front[j]];
      assert forall i :: 0 <= i < n ==> pool[i] == pool[..n][i];
      front + (if pool[n].isUp then [n] else [])
  }

  /** The active list is exactly the up servers, in configuration order. */
  lemma {:induction false} ActiveInConfigurationOrder(pool: seq<Backend>)
    ensures |Active(pool)| == |UpIndices(pool)|
    ensures forall j :: 0 <= j < |Active(pool)| ==> Active(pool)[j] == pool[UpIndices(pool)[j]]
  {
    if pool != [] {
      var n := |pool| - 1;
      var front := pool[..n];
      ActiveInConfigurationOrder(front);
      var a, ix := Active(front), UpIndices(front);
      var all, up := Active(pool), UpIndices(pool);
      if pool[n].isUp {
        assert all == a + [pool[n]] && up == ix + [n];
      } else {
        assert all == a && up == ix;
      }
      forall j | 0 <= j < |all|
        ensures all[j] == pool[up[j]]
      {
        if j < |a| {
          assert all[j] == a[j] && up[j] == ix[j];
          assert front[ix[j]] == pool[ix[j]];
        }
      }
    }
  }

  /** Distinct servers stay distinct in the active list. */
  lemma ActiveDistinct(pool: seq<Backend>)
    requires DistinctServers(pool)
    ensures forall p1, p2 :: 0 <= p1 < p2 < |Active(pool)| ==> Active(pool)[p1] != Active(pool)[p2]
  {
    ActiveInConfigurationOrder(pool);
    var ix := UpIndices(pool);
    forall p1, p2 | 0 <= p1 < p2 < |Active(pool)|
      ensures Active(pool)[p1] != Active(pool)[p2]
    {
      assert ix[p1] < ix[p2];
    }
  }

  /** The routing decision for one request with counter value `counter`: a
      500 when no server is up, otherwise `active[counter % active.length]`. */
  function Route(pool: seq<Backend>, counter: nat): (r: Routed)
    ensures r.AllDown? <==> forall i :: 0 <= i < |pool| ==> !pool[i].isUp
    ensures r.Target? ==> r.backend.isUp && r.backend in pool
  {
    var active := Active(pool);
    if |active| == 0 then
      assert forall i :: 0 <= i < |pool| && pool[i].isUp ==> pool[i] in active;
      AllDown
    else
      assert active[0] in pool;
      Target(active[counter % |active|])
  }

  /** The routed server is the up server at position counter mod k among the
      k up servers, counted in configuration order. */
  lemma RouteSelectsUpServer(pool: seq<Backend>, counter: nat)
    requires exists i :: 0 <= i < |pool| && pool[i].isUp
    ensures |UpIndices(pool)| > 0
    ensures Route(pool, counter) == Target(pool[UpIndices(pool)[counter % |UpIndices(pool)|]])
  {
    ActiveInConfigurationOrder(pool);
  }

  /** The picks of k consecutive requests while the pool does not change:
      the counter advances only when a server is picked. */
  function Picks(pool: seq<Backend>, counter: nat, k: nat): (r: seq<Routed>)
    ensures |r| == k
    decreases k
  {
    if k == 0 then []
    else
      var pick := Route(pool, counter);
      [pick] + Picks(pool, if pick.Target? then counter + 1 else counter, k - 1)
  }

  /** No two configured servers share a host and port. */
  ghost predicate DistinctServers(pool: seq<Backend>)
  {
    forall i, j :: 0 <= i < j < |pool| ==> pool[i].host != pool[j].host || pool[i].port != pool[j].port
  }

  lemma {:induction false} PicksAt(pool: seq<Backend>, counter: nat, k: nat, j: nat)
    requires |Active(pool)| > 0 && j < k
    ensures Picks(pool, counter, k)[j] == Target(Active(pool)[(counter + j) % |Active(pool)|])
    decreases k
  {
    if j > 0 {
      PicksAt(pool, counter + 1, k - 1, j - 1);
    }
  }

  /** With the pool unchanged, as many consecutive requests as there are up
      servers never pick the same server twice ... */
  lemma PicksDistinct(pool: seq<Backend>, counter: nat)
    requires DistinctServers(pool)
    ensures forall j1, j2 :: 0 <= j1 < j2 < |Active(pool)| ==>
              Picks(pool, counter, |Active(pool)|)[j1] != Picks(pool, counter, |Active(pool)|)[j2]
  {
    var n := |Active(pool)|;
    ActiveDistinct(pool);
    forall j1, j2 | 0 <= j1 < j2 < n
      ensures Picks(pool, counter, n)[j1] != Picks(pool, counter, n)[j2]
    {
      PicksAt(pool, counter, n, j1);
      PicksAt(pool, counter, n, j2);
      RoundRobin.RotationDistinct(counter, n, j1, j2);
    }
  }

  /** Where an up server sits in the active list. */
  lemma PositionInActive(pool: seq<Backend>, i: nat) returns (p: nat)
    requires i < |pool| && pool[i].isUp
    ensures p < |Active(pool)| && Active(pool)[p] == pool[i]
  {
    ActiveInConfigurationOrder(pool);
    var ix := UpIndices(pool);
    assert i in ix;
    p :| 0 <= p < |ix| && ix[p] == i;
  }

  /** ... and pick every up server among them. */
  lemma PicksCover(pool: seq<Backend>, counter: nat, i: nat)
    requires i < |pool| && pool[i].isUp
    ensures Target(pool[i]) in Picks(pool, counter, |Active(pool)|)
  {
    var p := PositionInActive(pool, i);
    var n := |Active(pool)|;
    var j := RoundRobin.Offset(counter, p, n);
    PicksAt(pool, counter, n, j);
    assert Picks(pool, counter, n)[j] == Target(pool[i]);
  }

  /** A server whose probe fails drops out of the active list; the next 200
      probe brings it back. */
  lemma ProbeMovesServer(pool: seq<Backend>, i: nat)
    requires i < |pool|
    ensures i !in UpIndices(ApplyProbe(pool, i, ConnectionError))
    ensures i !in UpIndices(ApplyProbe(pool, i, TimedOut))
    ensures i in UpIndices(ApplyProbe(ApplyProbe(pool, i, TimedOut), i, Answered(200)))
  {
    var down := ApplyProbe(pool, i, TimedOut);
    var up := ApplyProbe(down, i, Answered(200));
    assert up[i].isUp;
  }
}
