/** Round-robin selection. The fixed routers of loadbalancer.js,
    caching_proxy.js and secure_proxy.js keep an index in [0, n) and wrap it
    on every step; the health-aware router of loadbalancer_v2.js lets its
    counter grow and reduces it modulo the active-set size when it picks.
    Both come down to visiting positions (start + j) % n for j = 0, 1, ... */
module RoundRobin {

  /** The fixed routers' step `(currentServerIndex + 1) % servers.length`:
      the next position, wrapping from the last one back to the first. */
  function Advance(i: nat, n: nat): (next: nat)
    requires n > 0
    ensures next < n
    ensures i + 1 < n ==> next == i + 1
    ensures i + 1 == n ==> next == 0
  {
    (i + 1) % n
  }

  /** The positions picked by k consecutive requests through a fixed router
      whose index is `start`: each pick is the current index, which then
      advances. */
  function Schedule(start: nat, n: nat, k: nat): (picks: seq<nat>)
    requires n > 0
    ensures |picks| == k
    decreases k
  {
    if k == 0 then [] else [start] + Schedule(Advance(start, n), n, k - 1)
  }

  /** The index of a fixed router after k requests. */
  function After(start: nat, n: nat, k: nat): (i: nat)
    requires n > 0
    ensures start < n || k > 0 ==> i < n
    decreases k
  {
    if k == 0 then start else After(Advance(start, n), n, k - 1)
  }

  /** Euclidean division is unique: a value written as n * q + r with
      0 <= r < n has remainder r. */
  lemma ModUnique(x: int, n: int, q: int, r: int)
    requires n > 0 && 0 <= r < n && x == n * q + r
    ensures x % n == r
  {
    var q', r' := x / n, x % n;
    assert n * (q - q') == r' - r by {
      assert x == n * q' + r';
    }
    if q - q' >= 1 {
      MulAtLeast(n, q - q');
    } else if q' - q >= 1 {
      MulAtLeast(n, q' - q);
    }
  }

  lemma MulAtLeast(n: int, d: int)
    requires n > 0 && d >= 1
    ensures n * d >= n
  {
  }

  /** Adding one before or after reducing modulo n gives the same position. */
  lemma ModStep(s: int, j: int, n: int)
    requires n > 0
    ensures (s % n + j) % n == (s + j) % n
  {
    var q := s / n;
    assert s == n * q + s % n;
    var r := (s % n + j) % n;
    var q2 := (s % n + j) / n;
    assert s % n + j == n * q2 + r;
    assert s + j == n * (q + q2) + r;
    ModUnique(s + j, n, q + q2, r);
  }

  /** The j-th pick of a fixed router is (start + j) mod n: the wrapped index
      follows the unbounded counter exactly. */
  lemma {:induction false} ScheduleAt(start: nat, n: nat, k: nat, j: nat)
    requires n > 0 && start < n && j < k
    ensures Schedule(start, n, k)[j] == (start + j) % n
    decreases k
  {
    if j == 0 {
      ModUnique(start, n, 0, start);
    } else {
      var next := Advance(start, n);
      ScheduleAt(next, n, k - 1, j - 1);
      assert Schedule(start, n, k)[j] == Schedule(next, n, k - 1)[j - 1];
      ModStep(start + 1, j - 1, n);
    }
  }

  /** The index after k requests is (start + k) mod n, so it never leaves
      [0, n) and is back at `start` after n requests. */
  lemma {:induction false} AfterIs(start: nat, n: nat, k: nat)
    requires n > 0 && start < n
    ensures After(start, n, k) == (start + k) % n
    decreases k
  {
    if k == 0 {
      ModUnique(start, n, 0, start);
    } else {
      AfterIs(Advance(start, n), n, k - 1);
      ModStep(start + 1, k - 1, n);
    }
  }

  /** Within n consecutive steps no position comes up twice. */
  lemma RotationDistinct(s: int, n: int, j1: int, j2: int)
    requires n > 0 && 0 <= j1 < j2 < n
    ensures (s + j1) % n != (s + j2) % n
  {
    var a, b := s + j1, s + j2;
    var qa, qb := a / n, b / n;
    assert a == n * qa + a % n;
    assert b == n * qb + b % n;
    assert n * (qb - qa) == n * qb - n * qa;
    MulSign(n, qb - qa);
  }

  lemma MulSign(n: int, d: int)
    requires n > 0
    ensures d >= 1 ==> n * d >= n
    ensures d <= 0 ==> n * d <= 0
  {
  }

  /** The step at which position p comes up, counting from s. */
  function Offset(s: int, p: int, n: int): (j: int)
    requires n > 0 && 0 <= p < n
    ensures 0 <= j < n && (s + j) % n == p
  {
    var j := (p - s) % n;
    assert (s + j) % n == p by {
      assert p - s == n * ((p - s) / n) + j;
      ModUnique(s + j, n, -((p - s) / n), p);
    }
    j
  }

  /** n consecutive requests through a fixed router visit every server
      exactly once, in configuration order from the current index on. */
  lemma {:induction false} ScheduleFair(start: nat, n: nat)
    requires n > 0 && start < n
    ensures forall j1, j2 :: 0 <= j1 < j2 < n ==> Schedule(start, n, n)[j1] != Schedule(start, n, n)[j2]
    ensures forall p :: 0 <= p < n ==> p in Schedule(start, n, n)
  {
    var picks := Schedule(start, n, n);
    forall j1, j2 | 0 <= j1 < j2 < n
      ensures picks[j1] != picks[j2]
    {
      ScheduleAt(start, n, n, j1);
      ScheduleAt(start, n, n, j2);
      RotationDistinct(start, n, j1, j2);
    }
    forall p | 0 <= p < n
      ensures p in picks
    {
      var j := Offset(start, p, n);
      ScheduleAt(start, n, n, j);
    }
  }

  /** From the initial index 0, the first n requests go to the servers in
      configuration order. */
  lemma ScheduleFromZero(n: nat)
    requires n > 0
    ensures Schedule(0, n, n) == seq(n, j => j)
  {
    forall j | 0 <= j < n
      ensures Schedule(0, n, n)[j] == j
    {
      ScheduleAt(0, n, n, j);
      ModUnique(j, n, 0, j);
    }
  }

  /** Requests split at any point: the second batch continues from where the
      first left the index. */
  lemma {:induction false} ScheduleSplit(start: nat, n: nat, a: nat, b: nat)
    requires n > 0
    ensures Schedule(start, n, a + b) == Schedule(start, n, a) + Schedule(After(start, n, a), n, b)
    decreases a
  {
    if a > 0 {
      ScheduleSplit(Advance(start, n), n, a - 1, b);
    }
  }

  /** The cycle repeats identically: after n requests the next k picks are
      the same as the first k. */
  lemma ScheduleRepeats(start: nat, n: nat, k: nat)
    requires n > 0 && start < n
    ensures Schedule(start, n, n + k) == Schedule(start, n, n) + Schedule(start, n, k)
  {
    ScheduleSplit(start, n, n, k);
    AfterIs(start, n, n);
    ModUnique(start + n, n, 1, start);
  }
}
