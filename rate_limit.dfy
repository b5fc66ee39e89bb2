/** The fixed-window rate limiter of secure_proxy.js: one record per client
    address, holding the number of requests counted in the current window and
    the time the window started. Time is the caller's `now`, in milliseconds. */
module RateLimit {

  const RATE_LIMIT_WINDOW: int := 10000
  const MAX_REQUESTS_PER_WINDOW: int := 5

  datatype Record = Record(count: int, startTime: int)

  type Table = map<string, Record>

  /** The table after one request, and whether the request may proceed. */
  datatype Admission = Admission(records: Table, admitted: bool)

  /** Every record has counted at least the request that created it. */
  ghost predicate WellFormed(records: Table)
  {
    forall ip :: ip in records ==> records[ip].count >= 1
  }

  /** One request from `clientIP` at time `now`. A first request creates a
      record; a request more than a window after the record's start resets
      it; any other request counts, and is refused once the count exceeds the
      maximum. Only the requesting client's record changes. */
  function Admit(records: Table, clientIP: string, now: int): (r: Admission)
    ensures clientIP in r.records && r.records == records[clientIP := r.records[clientIP]]
    ensures r.admitted <==> r.records[clientIP].count <= MAX_REQUESTS_PER_WINDOW
    ensures WellFormed(records) ==> WellFormed(r.records)
  {
    if clientIP !in records then
      Admission(records[clientIP := Record(1, now)], true)
    else
      var rec := records[clientIP];
      if now - rec.startTime > RATE_LIMIT_WINDOW then
        Admission(records[clientIP := Record(1, now)], true)
      else
        var counted := rec.(count := rec.count + 1);
        Admission(records[clientIP := counted], counted.count <= MAX_REQUESTS_PER_WINDOW)
  }

  /** An unseen client gets a fresh window starting now and is admitted. */
  lemma FirstRequest(records: Table, clientIP: string, now: int)
    requires clientIP !in records
    ensures Admit(records, clientIP, now).records[clientIP] == Record(1, now)
    ensures Admit(records, clientIP, now).admitted
  {
  }

  /** Inside the window the count rises by exactly one, the start stays, and
      the request passes iff the new count is at most the maximum. */
  lemma WithinWindow(records: Table, clientIP: string, now: int)
    requires clientIP in records
    requires now - records[clientIP].startTime <= RATE_LIMIT_WINDOW
    ensures Admit(records, clientIP, now).records[clientIP]
         == Record(records[clientIP].count + 1, records[clientIP].startTime)
    ensures Admit(records, clientIP, now).admitted
        <==> records[clientIP].count + 1 <= MAX_REQUESTS_PER_WINDOW
  {
  }

  /** A known client's window is restarted exactly when more than a window
      has passed since it started; at exactly RATE_LIMIT_WINDOW it is not. */
  lemma ResetOnlyAfterWindow(records: Table, clientIP: string, now: int)
    requires WellFormed(records) && clientIP in records
    ensures Admit(records, clientIP, now).records[clientIP] == Record(1, now)
        <==> now - records[clientIP].startTime > RATE_LIMIT_WINDOW
  {
  }

  /** The verdicts for a run of requests from one client at the given times,
      and the table afterwards. */
  function AdmitAll(records: Table, clientIP: string, times: seq<int>): (r: (seq<bool>, Table))
    ensures |r.0| == |times|
    ensures r.1.Keys == records.Keys + (if times == [] then {} else {clientIP})
    decreases |times|
  {
    if times == [] then ([], records)
    else
      var step := Admit(records, clientIP, times[0]);
      var rest := AdmitAll(step.records, clientIP, times[1..]);
      ([step.admitted] + rest.0, rest.1)
  }

  /** Inside one window, the j-th further request is admitted iff the count
      it reaches is at most the maximum; rejected requests count too, so the
      record ends `|times|` higher with the same start. */
  lemma {:induction false} WindowRun(records: Table, clientIP: string, times: seq<int>)
    requires clientIP in records
    requires forall j :: 0 <= j < |times| ==> times[j] - records[clientIP].startTime <= RATE_LIMIT_WINDOW
    ensures AdmitAll(records, clientIP, times).1[clientIP]
         == Record(records[clientIP].count + |times|, records[clientIP].startTime)
    ensures forall j :: 0 <= j < |times| ==>
              (AdmitAll(records, clientIP, times).0[j]
               <==> records[clientIP].count + j + 1 <= MAX_REQUESTS_PER_WINDOW)
    decreases |times|
  {
    if times != [] {
      var step := Admit(records, clientIP, times[0]);
      WithinWindow(records, clientIP, times[0]);
      WindowRun(step.records, clientIP, times[1..]);
      var run := AdmitAll(records, clientIP, times);
      var rest := AdmitAll(step.records, clientIP, times[1..]);
      assert run.0 == [step.admitted] + rest.0;
      forall j | 0 <= j < |times|
        ensures run.0[j] <==> records[clientIP].count + j + 1 <= MAX_REQUESTS_PER_WINDOW
      {
        if j > 0 {
          assert run.0[j] == rest.0[j - 1];
        }
      }
    }
  }

  /** A run of requests that opens a new window (the client is unseen, or
      its window is more than RATE_LIMIT_WINDOW old) and stays inside it: the
      first five are admitted and the sixth and every later one get 429. */
  lemma {:induction false} SixthRequestRejected(records: Table, clientIP: string, times: seq<int>)
    requires |times| > 0
    requires clientIP !in records || times[0] - records[clientIP].startTime > RATE_LIMIT_WINDOW
    requires forall j :: 0 <= j < |times| ==> times[j] - times[0] <= RATE_LIMIT_WINDOW
    ensures AdmitAll(records, clientIP, times).1[clientIP] == Record(|times|, times[0])
    ensures forall j :: 0 <= j < |times| ==>
              (AdmitAll(records, clientIP, times).0[j] <==> j < MAX_REQUESTS_PER_WINDOW)
  {
    var first := Admit(records, clientIP, times[0]);
    assert first.records[clientIP] == Record(1, times[0]);
    WindowRun(first.records, clientIP, times[1..]);
    var run := AdmitAll(records, clientIP, times);
    var rest := AdmitAll(first.records, clientIP, times[1..]);
    assert run == ([first.admitted] + rest.0, rest.1);
    forall j | 0 <= j < |times|
      ensures run.0[j] <==> j < MAX_REQUESTS_PER_WINDOW
    {
      if j > 0 {
        assert run.0[j] == rest.0[j - 1];
      }
    }
  }

  /** Once a request is refused, every later request inside the same window
      is refused as well: the refused request still counted. */
  lemma {:induction false} RejectionPersists(records: Table, clientIP: string, now: int, later: seq<int>)
    requires clientIP in records
    requires !Admit(records, clientIP, now).admitted
    requires forall j :: 0 <= j < |later| ==>
               later[j] - Admit(records, clientIP, now).records[clientIP].startTime <= RATE_LIMIT_WINDOW
    ensures forall j :: 0 <= j < |later| ==> !AdmitAll(Admit(records, clientIP, now).records, clientIP, later).0[j]
  {
    var step := Admit(records, clientIP, now);
    assert step.records[clientIP].count > MAX_REQUESTS_PER_WINDOW;
    WindowRun(step.records, clientIP, later);
  }

  /** The fixed window's known weakness: a client can be admitted twice the
      maximum in quick succession, five requests at the end of one window and
      five at the start of the next. */
  lemma {:induction false} BurstAcrossBoundary(records: Table, clientIP: string, first: seq<int>, second: seq<int>)
    requires clientIP !in records
    requires |first| == MAX_REQUESTS_PER_WINDOW && |second| == MAX_REQUESTS_PER_WINDOW
    requires forall j :: 0 <= j < |first| ==> first[j] - first[0] <= RATE_LIMIT_WINDOW
    requires second[0] - first[0] > RATE_LIMIT_WINDOW
    requires forall j :: 0 <= j < |second| ==> second[j] - second[0] <= RATE_LIMIT_WINDOW
    ensures forall j :: 0 <= j < 2 * MAX_REQUESTS_PER_WINDOW ==> AdmitAll(records, clientIP, first + second).0[j]
  {
    SixthRequestRejected(records, clientIP, first);
    var half := AdmitAll(records, clientIP, first);
    SixthRequestRejected(half.1, clientIP, second);
    var tail := AdmitAll(half.1, clientIP, second);
    AdmitAllSplit(records, clientIP, first, second);
    forall j | 0 <= j < 2 * MAX_REQUESTS_PER_WINDOW
      ensures AdmitAll(records, clientIP, first + second).0[j]
    {
      if j >= MAX_REQUESTS_PER_WINDOW {
        assert AdmitAll(records, clientIP, first + second).0[j] == tail.0[j - MAX_REQUESTS_PER_WINDOW];
      } else {
        assert AdmitAll(records, clientIP, first + second).0[j] == half.0[j];
      }
    }
  }

  /** One step of a run: the first request's verdict, then the rest of the
      run from the table it leaves. */
  lemma AdmitAllCons(records: Table, clientIP: string, t: int, rest: seq<int>)
    ensures var step := Admit(records, clientIP, t);
            var tail := AdmitAll(step.records, clientIP, rest);
            AdmitAll(records, clientIP, [t] + rest) == ([step.admitted] + tail.0, tail.1)
  {
    assert ([t] + rest)[0] == t && ([t] + rest)[1..] == rest;
  }

  /** Running two batches of requests one after the other is running their
      concatenation. */
  lemma {:induction false} AdmitAllSplit(records: Table, clientIP: string, a: seq<int>, b: seq<int>)
    ensures AdmitAll(records, clientIP, a + b).0
         == AdmitAll(records, clientIP, a).0 + AdmitAll(AdmitAll(records, clientIP, a).1, clientIP, b).0
    ensures AdmitAll(records, clientIP, a + b).1
         == AdmitAll(AdmitAll(records, clientIP, a).1, clientIP, b).1
    decreases |a|
  {
    if a == [] {
      assert a + b == b;
    } else {
      var t, rest := a[0], a[1..];
      assert a == [t] + rest && a + b == [t] + (rest + b);
      AdmitAllSplit(Admit(records, clientIP, t).records, clientIP, rest, b);
      SplitAfterFirst(records, clientIP, t, rest, b);
    }
  }

  /** The inductive step of AdmitAllSplit: if the split holds from the table
      the first request leaves, it holds from the table before it. */
  lemma SplitAfterFirst(records: Table, clientIP: string, t: int, rest: seq<int>, b: seq<int>)
    requires var next := Admit(records, clientIP, t).records;
             var left := AdmitAll(next, clientIP, rest);
             AdmitAll(next, clientIP, rest + b) == (left.0 + AdmitAll(left.1, clientIP, b).0, AdmitAll(left.1, clientIP, b).1)
    ensures var left := AdmitAll(records, clientIP, [t] + rest);
            AdmitAll(records, clientIP, [t] + (rest + b)) == (left.0 + AdmitAll(left.1, clientIP, b).0, AdmitAll(left.1, clientIP, b).1)
  {
    var step := Admit(records, clientIP, t);
    AdmitAllCons(records, clientIP, t, rest + b);
    AdmitAllCons(records, clientIP, t, rest);
    var left := AdmitAll(step.records, clientIP, rest);
    var right := AdmitAll(left.1, clientIP, b);
    assert [step.admitted] + (left.0 + right.0) == ([step.admitted] + left.0) + right.0;
  }
}
