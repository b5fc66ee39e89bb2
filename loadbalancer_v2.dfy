/** loadbalancer_v2.js: the servers carry an `isUp` flag that a periodic
    health check maintains; requests go round robin over the servers that are
    up, and get a 500 when none is. */
module SmartLoadBalancer {
  import opened Http
  import opened Health

  class Balancer {
    /** The `servers` array with its `isUp` flags. */
    var servers: seq<Backend>
    /** The global `currentServerIndex`; it only ever grows. */
    var currentServerIndex: nat

    /** Every server starts up, and the counter at 0. */
    constructor (config: seq<Server>)
      ensures servers == Configure(config) && currentServerIndex == 0
      ensures forall i :: 0 <= i < |servers| ==> servers[i].isUp
    {
      servers := Configure(config);
      currentServerIndex := 0;
    }

    /** The callbacks of server i's probe: a 200 answer marks it up, an error
        or a timeout marks it down, any other answer changes nothing. */
    method OnProbe(i: nat, p: Probe)
      requires i < |servers|
      modifies this`servers
      ensures servers == ApplyProbe(old(servers), i, p)
    {
      var server := servers[i];
      match p {
        case Answered(status) =>
          if status == 200 {
            servers := servers[i := server.(isUp := true)];
          }
        case ConnectionError =>
          servers := servers[i := server.(isUp := false)];
        case TimedOut =>
          servers := servers[i := server.(isUp := false)];
      }
    }

    /** One health-check round (`checkServerHealth`) in which every probe has
        ended, outcome k belonging to server k: the `forEach` over the servers
        applies each outcome to its own server. */
    method CheckServerHealth(outcomes: seq<Probe>)
      requires |outcomes| == |servers|
      modifies this`servers
      ensures |servers| == |old(servers)|
      ensures forall k :: 0 <= k < |servers| ==>
                servers[k] == old(servers)[k].(isUp := NextIsUp(old(servers)[k].isUp, outcomes[k]))
    {
      var k := 0;
      while k < |outcomes|
        invariant 0 <= k <= |outcomes| && |servers| == |old(servers)|
        invariant forall m :: 0 <= m < k ==>
                    servers[m] == old(servers)[m].(isUp := NextIsUp(old(servers)[m].isUp, outcomes[m]))
        invariant forall m :: k <= m < |servers| ==> servers[m] == old(servers)[m]
      {
        OnProbe(k, outcomes[k]);
        k := k + 1;
      }
    }

    /** The routing step of the request handler: filter to the servers that
        are up; with none, a 500 goes out and the counter stays; otherwise the
        target is `active[counter % active.length]` and the counter grows by
        one, without wrapping. */
    method HandleRequest(res: ClientResponse) returns (routed: Routed)
      requires res.Untouched()
      modifies this`currentServerIndex, res
      ensures routed == Route(servers, old(currentServerIndex))
      ensures routed.AllDown? ==>
                && currentServerIndex == old(currentServerIndex)
                && res.finished && res.statusCode == 500 && res.headers == map[]
                && res.Body() == Text("Critical Error: All backend servers are down!")
      ensures routed.Target? ==>
                currentServerIndex == old(currentServerIndex) + 1 && res.Untouched()
    {
      var activeServers := Active(servers);
      if |activeServers| == 0 {
        res.WriteHead(500, map[]);
        res.End(Text("Critical Error: All backend servers are down!"));
        return AllDown;
      }
      routed := Target(activeServers[currentServerIndex % |activeServers|]);
      currentServerIndex := currentServerIndex + 1;
    }

    /** The backend's answer is piped to the client, or a 502 goes out. */
    method OnBackendReply(reply: BackendReply, res: ClientResponse)
      requires res.Untouched()
      modifies res
      ensures res.finished
      ensures reply.Unreachable? ==>
                res.statusCode == 502 && res.headers == map[] && res.Body() == Text("Bad Gateway")
      ensures reply.Reply? ==>
                res.statusCode == reply.statusCode && res.headers == reply.headers && res.written == reply.chunks
    {
      Relay(reply, res, "Bad Gateway");
    }
  }
}
