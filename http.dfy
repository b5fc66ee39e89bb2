/** Shared vocabulary of the proxies: bytes, header maps, configured servers,
    what a backend answers, and the client-side response object that the
    request handlers write into. */
module Http {

  type Bytes = seq<bv8>

  /** Header maps are keyed by lower-case names, as Node.js compares header
      names case-insensitively and hands out backend headers in lower case. */
  type Headers = map<string, string>

  datatype Option<T> = None | Some(value: T)

  /** One entry of a proxy's static `servers` configuration. */
  datatype Server = Server(host: string, port: int)

  /** What the backend does with a forwarded request: it answers with a status,
      headers and the body chunks in arrival order, or the request fails with
      an 'error' event before any answer. */
  datatype BackendReply =
    | Reply(statusCode: int, headers: Headers, chunks: seq<Bytes>)
    | Unreachable

  /** The concatenation of chunks, in order (what `Buffer.concat` builds). */
  function Flatten(chunks: seq<Bytes>): (body: Bytes)
    ensures |chunks| == 1 ==> body == chunks[0]
    ensures chunks == [] ==> body == []
  {
    if chunks == [] then [] else chunks[0] + Flatten(chunks[1..])
  }

  /** Buffering first a, then b, yields the two bodies one after the other. */
  lemma {:induction false} FlattenAppend(a: seq<Bytes>, b: seq<Bytes>)
    ensures Flatten(a + b) == Flatten(a) + Flatten(b)
  {
    if a != [] {
      assert (a + b)[1..] == a[1..] + b;
      FlattenAppend(a[1..], b);
    } else {
      assert a + b == b;
    }
  }

  /** Every byte of every chunk is in the concatenation, and nothing else:
      its length is the sum of the chunk lengths. */
  function TotalLength(chunks: seq<Bytes>): nat
  {
    if chunks == [] then 0 else |chunks[0]| + TotalLength(chunks[1..])
  }

  lemma {:induction false} FlattenLength(chunks: seq<Bytes>)
    ensures |Flatten(chunks)| == TotalLength(chunks)
  {
    if chunks != [] {
      FlattenLength(chunks[1..]);
    }
  }

  /** The bytes of a message the proxy writes itself (all of them ASCII). */
  function Text(s: string): (b: Bytes)
    ensures |b| == |s|
  {
    seq(|s|, i requires 0 <= i < |s| => ((s[i] as int) % 256) as bv8)
  }

  /** The proxy's half of one client connection (Node's `ServerResponse`):
      the status and headers it will send, whether the head went out, the
      body chunks written so far and whether the response was ended. */
  class ClientResponse {
    var statusCode: int
    var headers: Headers
    var headSent: bool
    var written: seq<Bytes>
    var finished: bool

    constructor ()
      ensures statusCode == 200 && headers == map[]
      ensures !headSent && written == [] && !finished
    {
      statusCode, headers := 200, map[];
      headSent, written, finished := false, [], false;
    }

    /** A response nothing has been done to yet. */
    ghost predicate Untouched()
      reads this
    {
      statusCode == 200 && headers == map[] && !headSent && written == [] && !finished
    }

    /** What the client receives as the body. */
    function Body(): Bytes
      reads this
    {
      Flatten(written)
    }

    /** `res.setHeader(name, value)`: only before the head is sent. */
    method SetHeader(name: string, value: string)
      requires !headSent
      modifies this`headers
      ensures headers == old(headers)[name := value]
    {
      headers := headers[name := value];
    }

    /** `res.writeHead(status, hs)`: the given headers are merged over the
        ones set earlier, and the head goes out. */
    method WriteHead(status: int, hs: Headers)
      requires !headSent
      modifies this`statusCode, this`headers, this`headSent
      ensures statusCode == status && headers == old(headers) + hs && headSent
    {
      statusCode, headers, headSent := status, headers + hs, true;
    }

    /** `res.write(chunk)`: a write before any `writeHead` sends the head
        implicitly with the current status and headers. */
    method Write(chunk: Bytes)
      requires !finished
      modifies this`headSent, this`written
      ensures headSent && written == old(written) + [chunk]
    {
      headSent, written := true, written + [chunk];
    }

    /** `res.end(data)`; `res.end()` is `End([])`. */
    method End(data: Bytes)
      requires !finished
      modifies this`headSent, this`written, this`finished
      ensures headSent && finished
      ensures written == old(written) + (if data == [] then [] else [data])
    {
      if data != [] {
        written := written + [data];
      }
      headSent, finished := true, true;
    }
  }

  /** `proxyRes.pipe(clientRes)`: every backend chunk is written to the client
      as it arrives, in arrival order, and the response is then ended. */
  method Pipe(chunks: seq<Bytes>, res: ClientResponse)
    requires !res.finished
    modifies res`headSent, res`written, res`finished
    ensures res.finished && res.headSent
    ensures res.written == old(res.written) + chunks
  {
    var i := 0;
    while i < |chunks|
      invariant 0 <= i <= |chunks|
      invariant !res.finished
      invariant res.written == old(res.written) + chunks[..i]
    {
      res.Write(chunks[i]);
      i := i + 1;
      assert chunks[..i] == chunks[..i - 1] + [chunks[i - 1]];
    }
    assert chunks[..i] == chunks;
    res.End([]);
  }

  /** The 'data' handler of the caching proxies: each chunk is pushed onto
      `bodyChunks` (the copy kept for the cache) and written to the client
      (the live stream). Returns the buffered copy. */
  method Tee(chunks: seq<Bytes>, res: ClientResponse) returns (bodyChunks: seq<Bytes>)
    requires !res.finished
    modifies res`headSent, res`written
    ensures !res.finished
    ensures res.written == old(res.written) + chunks
    ensures bodyChunks == chunks
    ensures chunks != [] ==> res.headSent
    ensures chunks == [] ==> res.headSent == old(res.headSent)
  {
    bodyChunks := [];
    var i := 0;
    while i < |chunks|
      invariant 0 <= i <= |chunks|
      invariant !res.finished
      invariant bodyChunks == chunks[..i]
      invariant res.written == old(res.written) + bodyChunks
      invariant i > 0 ==> res.headSent
      invariant i == 0 ==> res.headSent == old(res.headSent)
    {
      bodyChunks := bodyChunks + [chunks[i]];
      res.Write(chunks[i]);
      i := i + 1;
    }
    assert chunks[..i] == chunks;
  }

  /** A plain proxy's answer to the client once the backend has been asked:
      the backend's status, headers and chunks passed straight through, or a
      502 with the given text when the backend could not be reached. */
  method Relay(reply: BackendReply, res: ClientResponse, badGateway: string)
    requires res.Untouched()
    modifies res
    ensures res.finished
    ensures reply.Unreachable? ==>
              res.statusCode == 502 && res.headers == map[] && res.Body() == Text(badGateway)
    ensures reply.Reply? ==>
              && res.statusCode == reply.statusCode && res.headers == reply.headers
              && res.written == reply.chunks
  {
    match reply {
      case Unreachable =>
        res.WriteHead(502, map[]);
        res.End(Text(badGateway));
      case Reply(status, hs, chunks) =>
        res.WriteHead(status, hs);
        assert res.headers == hs;
        Pipe(chunks, res);
    }
  }
}
