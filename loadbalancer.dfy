/** loadbalancer.js: every request goes to the next server of a fixed list,
    round robin, whether or not that server is alive. */
module LoadBalancer {
  import opened Http
  import RoundRobin

  class Balancer {
    /** The static `servers` configuration. */
    const servers: seq<Server>
    /** The global `currentServerIndex`. */
    var currentServerIndex: nat

    ghost predicate Valid()
      reads this
    {
      |servers| > 0 && currentServerIndex < |servers|
    }

    constructor (servers: seq<Server>)
      requires |servers| > 0
      ensures Valid() && this.servers == servers && currentServerIndex == 0
    {
      this.servers := servers;
      currentServerIndex := 0;
    }

    /** The routing step of the request handler: the target is the server at
        the current index, and the index moves on, wrapping, before anything is
        forwarded. Health plays no part: a dead server is picked on its turn. */
    method HandleRequest() returns (target: Server)
      requires Valid()
      modifies this`currentServerIndex
      ensures Valid()
      ensures target == servers[old(currentServerIndex)]
      ensures currentServerIndex == RoundRobin.Advance(old(currentServerIndex), |servers|)
    {
      target := servers[currentServerIndex];
      currentServerIndex := (currentServerIndex + 1) % |servers|;
    }

    /** The backend's answer is piped to the client, or a 502 goes out when the
        backend fails. The balancer's own state is not touched: the index that
        moved on for this request is not rolled back. */
    method OnBackendReply(reply: BackendReply, res: ClientResponse)
      requires res.Untouched()
      modifies res
      ensures res.finished
      ensures reply.Unreachable? ==>
                && res.statusCode == 502 && res.headers == map[]
                && res.Body() == Text("Bad Gateway: Backend server is down.")
      ensures reply.Reply? ==>
                res.statusCode == reply.statusCode && res.headers == reply.headers && res.written == reply.chunks
    {
      Relay(reply, res, "Bad Gateway: Backend server is down.");
    }
  }
}
