// Retry delays in milliseconds and the wait a FIFO retry queue adds to them.
module Backoff {
  import opened Protocol
  import opened Steps
  import opened Invariant
  import opened Unconditional
  import opened Guarantees

  function TotalDelay(base: nat, k: nat): nat {
    if k == 0 then 0 else TotalDelay(base, k - 1) + RetryDelayMs(k, base)
  }

  /** The first k retries together wait base * (2^k - 1) milliseconds. */
  lemma {:induction false} BackoffSums(base: nat, k: nat)
    ensures TotalDelay(base, k) + base == base * Pow2(k)
  {
    if k > 0 {
      BackoffSums(base, k - 1);
      assert base * Pow2(k) == base * Pow2(k - 1) + base * Pow2(k - 1);
    }
  }

  lemma {:induction false} Pow2Monotone(a: nat, b: nat)
    requires a <= b
    ensures Pow2(a) <= Pow2(b)
    decreases b
  {
    if a < b { Pow2Monotone(a, b - 1); }
  }

  lemma DelayMonotone(a: nat, b: nat, base: nat)
    requires 0 < a <= b
    ensures RetryDelayMs(a, base) <= RetryDelayMs(b, base)
  {
    Pow2Monotone(a - 1, b - 1);
    assert base * Pow2(a - 1) <= base * Pow2(b - 1);
  }

  /** The longest TTL the settings can produce. */
  function MaxTtl(c: Config): nat {
    var main := if c.maxRetries == 0 then 0 else RetryDelayMs(c.maxRetries, c.baseMs);
    if main >= c.notreadyMs then main else c.notreadyMs
  }

  /** No message ever waits in a retry queue with a longer TTL. */
  lemma TtlBound(c: Config, s: State, i: nat)
    requires Reachable(c, s) && i < |s.log| && s.log[i].place.Waiting?
    ensures s.log[i].place.ttl <= MaxTtl(c)
  {
    hide Core, Reachable, EventOk, Announced, GuardShape, RetryDelayMs;
    ReachableCore(c, s);
    CopyFacts(c, s, i);
    if s.log[i].rc > 0 { DelayMonotone(s.log[i].rc, c.maxRetries, c.baseMs); }
  }

  // ---------------------------------------------------------------------
  // Head-of-line blocking
  // ---------------------------------------------------------------------

  /** A message in a retry queue: when it was enqueued, and its TTL; 0 is no expiration. */
  datatype Parked = Parked(at: nat, ttl: nat)

  /** The broker expires messages at the head of the queue only. */
  function Drain(q: seq<Parked>, now: nat): seq<Parked> {
    if q != [] && q[0].ttl > 0 && q[0].at + q[0].ttl <= now then Drain(q[1..], now) else q
  }

  /** Some message up to i never expires. */
  predicate Blocked(q: seq<Parked>, i: nat)
    requires i < |q|
  {
    exists k | 0 <= k <= i :: q[k].ttl == 0
  }

  /** The moment at which message i leaves: when the slowest message up to it is due. */
  function LeavesAt(q: seq<Parked>, i: nat): nat
    requires i < |q|
  {
    var due := q[i].at + q[i].ttl;
    if i == 0 || LeavesAt(q, i - 1) <= due then due else LeavesAt(q, i - 1)
  }

  /** Message i has left the queue by then. */
  predicate Left(q: seq<Parked>, i: nat, now: nat)
    requires i < |q|
  {
    |Drain(q, now)| < |q| - i
  }

  predicate Arrived(q: seq<Parked>, maxTtl: nat) {
    (forall i, j | 0 <= i < j < |q| :: q[i].at <= q[j].at) && forall i | 0 <= i < |q| :: q[i].ttl <= maxTtl
  }

  lemma {:induction false} LeavesAfterHead(q: seq<Parked>, i: nat, now: nat)
    requires 0 < i < |q|
    ensures LeavesAt(q, i) <= now <==> LeavesAt(q[1..], i - 1) <= now && q[0].at + q[0].ttl <= now
  {
    if i > 1 { LeavesAfterHead(q, i - 1, now); }
  }

  lemma BlockedAfterHead(q: seq<Parked>, i: nat)
    requires 0 < i < |q|
    ensures Blocked(q, i) <==> q[0].ttl == 0 || Blocked(q[1..], i - 1)
  {
    if Blocked(q, i) && q[0].ttl != 0 {
      var k :| 0 <= k <= i && q[k].ttl == 0;
      assert q[1..][k - 1].ttl == 0;
    }
    if Blocked(q[1..], i - 1) {
      var k :| 0 <= k <= i - 1 && q[1..][k].ttl == 0;
      assert q[k + 1].ttl == 0;
    }
  }

  /** Expiring heads one by one releases message i exactly from LeavesAt on, unless a message
      without expiration up to it blocks the queue. */
  lemma {:induction false} DrainReleases(q: seq<Parked>, i: nat, now: nat)
    requires i < |q|
    ensures |Drain(q, now)| <= |q|
    ensures Left(q, i, now) <==> !Blocked(q, i) && LeavesAt(q, i) <= now
  {
    if i > 0 {
      LeavesAfterHead(q, i, now);
      BlockedAfterHead(q, i);
    }
    if q[0].ttl == 0 {
      assert Blocked(q, i);
    } else if q[0].at + q[0].ttl <= now {
      if i > 0 {
        DrainReleases(q[1..], i - 1, now);
      } else if |q| > 1 {
        DrainReleases(q[1..], 0, now);
      }
    }
  }

  /** A message ever leaves iff none up to it lacks an expiration. */
  lemma LeavesExactly(q: seq<Parked>, i: nat)
    requires i < |q|
    ensures (exists now: nat :: Left(q, i, now)) <==> !Blocked(q, i)
  {
    DrainReleases(q, i, LeavesAt(q, i));
    forall now: nat ensures Left(q, i, now) ==> !Blocked(q, i) { DrainReleases(q, i, now); }
  }

  /** Mixed TTLs can hold a message back, but never beyond the longest TTL after its arrival. */
  lemma {:induction false} WaitBounds(q: seq<Parked>, i: nat, maxTtl: nat)
    requires i < |q| && Arrived(q, maxTtl)
    ensures q[i].at + q[i].ttl <= LeavesAt(q, i) <= q[i].at + maxTtl
  {
    if i > 0 { WaitBounds(q, i - 1, maxTtl); }
  }

  /** The entries of q, in the order of their arrival, are copies that wait in retry queues of s. */
  predicate Queues(s: State, ids: seq<nat>, q: seq<Parked>) {
    |ids| == |q| && (forall i, j | 0 <= i < j < |q| :: q[i].at <= q[j].at) &&
    forall k | 0 <= k < |q| :: ids[k] < |s.log| && s.log[ids[k]].place == Waiting(q[k].ttl)
  }

  /** In every reachable state, and for every configuration whose allowed retries have a delay: a
      message in a retry queue is still there before its own TTL has passed, and gone once the longest
      TTL the settings can produce has passed since its arrival. */
  lemma RetryWait(c: Config, s: State, ids: seq<nat>, q: seq<Parked>, i: nat, now: nat)
    requires Reachable(c, s) && Queues(s, ids, q) && i < |q| && Delays(c)
    ensures now < q[i].at + q[i].ttl ==> !Left(q, i, now)
    ensures q[i].at + MaxTtl(c) <= now ==> Left(q, i, now)
  {
    hide Reachable, MaxTtl, Drain, LeavesAt, Delays;
    forall k | 0 <= k < |q| ensures 0 < q[k].ttl <= MaxTtl(c) {
      TtlBound(c, s, ids[k]);
      RetryExpires(c, s, ids[k]);
    }
    WaitBounds(q, i, MaxTtl(c));
    DrainReleases(q, i, now);
  }
}
