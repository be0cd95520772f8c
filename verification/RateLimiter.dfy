/** The fixed-window rate limiter: one bucket per client, and an opportunistic cleanup that
  * drops expired buckets once the table is large. Time is the wall clock in seconds. */
module RateLimiter {
  import opened Wrappers

  datatype Bucket = Bucket(start: real, count: nat)

  type Buckets = map<string, Bucket>

  const WINDOW: real := 60.0

  const CLEANUP_THRESHOLD := 10_000

  predicate Expired(b: Bucket, now: real) {
    now - b.start >= WINDOW
  }

  /** The client's bucket after a request. */
  function Hit(buckets: Buckets, client: string, now: real): Bucket {
    if client !in buckets || Expired(buckets[client], now) then Bucket(now, 1)
    else buckets[client].(count := buckets[client].count + 1)
  }

  /** A request that opens a window is always let through; a later one is let through while
    * the window's count stays within the limit. */
  predicate Admitted(buckets: Buckets, client: string, now: real, limit: int) {
    client !in buckets || Expired(buckets[client], now) || buckets[client].count + 1 <= limit
  }

  function Swept(buckets: Buckets, now: real): Buckets {
    map k | k in buckets && !Expired(buckets[k], now) :: buckets[k]
  }

  function RetryAfter(start: real, now: real): int {
    Max(1, (WINDOW - (now - start)).Floor)
  }

  class RateLimitMiddleware {
    var buckets: Buckets

    constructor ()
      ensures buckets == map[]
    {
      buckets := map[];
    }

    /** One request: `retryAfter` is the header sent with a refusal. */
    method Dispatch(client: string, now: real, limit: int) returns (admitted: bool, retryAfter: Option<int>)
      modifies this
      ensures admitted == Admitted(old(buckets), client, now, limit)
      ensures var hit := old(buckets)[client := Hit(old(buckets), client, now)];
        buckets == if |hit| > CLEANUP_THRESHOLD then Swept(hit, now) else hit
      ensures retryAfter == if admitted then None else Some(RetryAfter(old(buckets)[client].start, now))
    {
      var windowStart := now;
      if client !in buckets || now - buckets[client].start >= WINDOW {
        buckets := buckets[client := Bucket(now, 1)];
        admitted := true;
      } else {
        var bucket := buckets[client];
        bucket := bucket.(count := bucket.count + 1);
        buckets := buckets[client := bucket];
        admitted := bucket.count <= limit;
        windowStart := bucket.start;
      }
      if |buckets| > CLEANUP_THRESHOLD {
        DropExpired(now);
      }
      retryAfter := if admitted then None else Some(RetryAfter(windowStart, now));
    }

    method DropExpired(now: real)
      modifies this
      ensures buckets == Swept(old(buckets), now)
    {
      ghost var before := buckets;
      var stale := set k | k in buckets && now - buckets[k].start >= WINDOW;
      while stale != {}
        invariant stale <= buckets.Keys <= before.Keys
        invariant forall k | k in buckets :: buckets[k] == before[k]
        invariant forall k | k in before :: k !in buckets || k in stale <==> Expired(before[k], now)
        invariant forall k | k in stale :: Expired(before[k], now)
        decreases stale
      {
        var key :| key in stale;
        buckets := buckets - {key};
        stale := stale - {key};
      }
    }
  }

  // ---- whole request sequences ----

  datatype Request = Request(client: string, now: real)

  predicate Monotone(reqs: seq<Request>) {
    forall i, j | 0 <= i < j < |reqs| :: reqs[i].now <= reqs[j].now
  }

  /** The table after a sequence of requests; `sweeps[i]` says whether request `i` found the
    * table large and cleaned up. */
  function After(reqs: seq<Request>, sweeps: seq<bool>): Buckets
    requires |sweeps| == |reqs|
  {
    if reqs == [] then map[]
    else
      var n := |reqs| - 1;
      var before := After(reqs[..n], sweeps[..n]);
      var hit := before[reqs[n].client := Hit(before, reqs[n].client, reqs[n].now)];
      if sweeps[n] then Swept(hit, reqs[n].now) else hit
  }

  predicate Decision(reqs: seq<Request>, sweeps: seq<bool>, i: nat, limit: int)
    requires i < |reqs| == |sweeps|
  {
    Admitted(After(reqs[..i], sweeps[..i]), reqs[i].client, reqs[i].now, limit)
  }

  /** How many of the client's requests within `[a, a + 60)` were let through. */
  function LetThrough(reqs: seq<Request>, sweeps: seq<bool>, client: string, a: real, limit: int): nat
    requires |sweeps| == |reqs|
  {
    if reqs == [] then 0
    else
      var n := |reqs| - 1;
      LetThrough(reqs[..n], sweeps[..n], client, a, limit) +
      if Within(reqs[n], client, a) && Decision(reqs, sweeps, n, limit) then 1 else 0
  }

  predicate Within(r: Request, client: string, a: real) {
    r.client == client && a <= r.now < a + WINDOW
  }

  // ---- a limiter that never cleans up ----

  function Plain(reqs: seq<Request>): Buckets {
    if reqs == [] then map[] else PlainNext(Plain(reqs[..|reqs| - 1]), reqs[|reqs| - 1])
  }

  function PlainNext(full: Buckets, r: Request): Buckets {
    full[r.client := Hit(full, r.client, r.now)]
  }

  function PlainCount(reqs: seq<Request>, client: string, a: real, limit: int): nat {
    if reqs == [] then 0
    else
      var n := |reqs| - 1;
      PlainCount(reqs[..n], client, a, limit) + PlainGain(Plain(reqs[..n]), reqs[n], client, a, limit)
  }

  function PlainGain(full: Buckets, r: Request, client: string, a: real, limit: int): nat {
    if Within(r, client, a) && Admitted(full, client, r.now, limit) then 1 else 0
  }

  /** The cleaned table agrees with the full one on every bucket that still matters. */
  predicate Refines(cleaned: Buckets, full: Buckets, now: real) {
    && (forall k | k in cleaned :: k in full && cleaned[k] == full[k])
    && (forall k | k in full && k !in cleaned :: Expired(full[k], now))
  }

  lemma {:induction false} CleanedRefinesPlain(reqs: seq<Request>, sweeps: seq<bool>, now: real)
    requires |sweeps| == |reqs| && Monotone(reqs)
    requires forall i | 0 <= i < |reqs| :: reqs[i].now <= now
    ensures Refines(After(reqs, sweeps), Plain(reqs), now)
  {
    if reqs == [] {
    } else {
      var n := |reqs| - 1;
      CleanedRefinesPlain(reqs[..n], sweeps[..n], reqs[n].now);
    }
  }

  /** Whenever the cleanup runs, every request gets the decision of a limiter that never
    * cleans up. */
  lemma {:induction false} CleanupChangesNoDecision(reqs: seq<Request>, sweeps: seq<bool>, i: nat, limit: int)
    requires i < |reqs| == |sweeps| && Monotone(reqs)
    ensures Decision(reqs, sweeps, i, limit) == Admitted(Plain(reqs[..i]), reqs[i].client, reqs[i].now, limit)
  {
    CleanedRefinesPlain(reqs[..i], sweeps[..i], reqs[i].now);
  }

  lemma {:induction false} CleanupChangesNoCount(reqs: seq<Request>, sweeps: seq<bool>, client: string, a: real,
                                                 limit: int)
    requires |sweeps| == |reqs| && Monotone(reqs)
    ensures LetThrough(reqs, sweeps, client, a, limit) == PlainCount(reqs, client, a, limit)
  {
    if reqs != [] {
      var n := |reqs| - 1;
      CleanupChangesNoCount(reqs[..n], sweeps[..n], client, a, limit);
      CleanupChangesNoDecision(reqs, sweeps, n, limit);
    }
  }

  // ---- the numeric bound ----

  function Allowance(limit: int): nat {
    Max(1, limit)
  }

  /** What the client's current bucket says about every interval that reaches it. */
  predicate Bounded(full: Buckets, last: real, client: string, a: real, limit: int, count: nat) {
    if client !in full then count == 0
    else
      var b := full[client];
      var used := if b.count < Allowance(limit) then b.count else Allowance(limit);
      && b.count >= 1 && b.start <= last
      && (a > b.start ==> count <= used - 1)
      && (a > b.start - WINDOW ==> count <= Allowance(limit) - 1 + used)
      && count <= 2 * Allowance(limit) - 1
      && (a > last ==> count == 0)
  }

  lemma {:induction false} RequestKeepsBound(full: Buckets, last: real, r: Request, client: string, a: real,
                                             limit: int, count: nat)
    requires Bounded(full, last, client, a, limit, count) && last <= r.now
    ensures Bounded(PlainNext(full, r), r.now, client, a, limit, count + PlainGain(full, r, client, a, limit))
  {
  }

  lemma {:induction false} IntervalCounts(reqs: seq<Request>, last: real, client: string, a: real, limit: int)
    requires Monotone(reqs) && forall i | 0 <= i < |reqs| :: reqs[i].now <= last
    ensures Bounded(Plain(reqs), last, client, a, limit, PlainCount(reqs, client, a, limit))
  {
    if reqs == [] {
    } else {
      var n := |reqs| - 1;
      IntervalCounts(reqs[..n], reqs[n].now, client, a, limit);
      RequestKeepsBound(Plain(reqs[..n]), reqs[n].now, reqs[n], client, a, limit, PlainCount(reqs[..n], client, a, limit));
    }
  }

  /** Over any request history and any cleanups, no half-open minute lets through as many as
    * twice the allowance of one client. */
  lemma {:induction false} RateBound(reqs: seq<Request>, sweeps: seq<bool>, client: string, a: real, limit: int)
    requires |sweeps| == |reqs| && Monotone(reqs)
    ensures LetThrough(reqs, sweeps, client, a, limit) <= 2 * Allowance(limit) - 1
  {
    CleanupChangesNoCount(reqs, sweeps, client, a, limit);
    IntervalCounts(reqs, if reqs == [] then 0.0 else reqs[|reqs| - 1].now, client, a, limit);
  }

  /** The same requests, and then `k` more from one client at one moment. */
  function Burst(reqs: seq<Request>, client: string, now: real, k: nat): seq<Request> {
    if k == 0 then reqs else Burst(reqs, client, now, k - 1) + [Request(client, now)]
  }

  /** The client's bucket, and how many of its requests in the interval were let through. */
  predicate Stands(reqs: seq<Request>, client: string, a: real, limit: int, b: Bucket, count: nat) {
    client in Plain(reqs) && Plain(reqs)[client] == b && PlainCount(reqs, client, a, limit) == count
  }

  lemma {:induction false} OneMore(reqs: seq<Request>, client: string, now: real, a: real, limit: int, b: Bucket,
                                   count: nat)
    requires Stands(reqs, client, a, limit, b, count) && a <= now < a + WINDOW
    requires Expired(b, now) || b.count + 1 <= limit
    ensures Stands(reqs + [Request(client, now)], client, a, limit,
      if Expired(b, now) then Bucket(now, 1) else Bucket(b.start, b.count + 1), count + 1)
  {
    assert (reqs + [Request(client, now)])[..|reqs|] == reqs;
  }

  lemma {:induction false} BurstCounts(reqs: seq<Request>, client: string, now: real, k: nat, a: real, limit: int,
                                       b: Bucket, count: nat)
    requires Stands(reqs, client, a, limit, b, count) && a <= now < a + WINDOW
    requires !Expired(b, now) && (k > 0 ==> b.count + k <= limit)
    ensures Stands(Burst(reqs, client, now, k), client, a, limit, Bucket(b.start, b.count + k), count + k)
  {
    if k > 0 {
      BurstCounts(reqs, client, now, k - 1, a, limit, b, count);
      OneMore(Burst(reqs, client, now, k - 1), client, now, a, limit, Bucket(b.start, b.count + k - 1), count + k - 1);
    }
  }

  lemma {:induction false} FirstStands(client: string, limit: int)
    ensures Stands([Request(client, 0.0)], client, 1.0, limit, Bucket(0.0, 1), 0)
  {
    var first := [Request(client, 0.0)];
    assert first[..0] == [];
    assert Plain(first) == PlainNext(Plain([]), first[0]);
    assert PlainCount(first, client, 1.0, limit) == PlainCount([], client, 1.0, limit);
  }

  /** Times never decrease and none is later than `last`. */
  predicate OrderedUpTo(reqs: seq<Request>, last: real) {
    Monotone(reqs) && forall i | 0 <= i < |reqs| :: reqs[i].now <= last
  }

  lemma {:induction false} BurstIsOrdered(reqs: seq<Request>, client: string, now: real, k: nat)
    requires OrderedUpTo(reqs, now)
    ensures OrderedUpTo(Burst(reqs, client, now, k), now)
  {
    if k > 0 {
      BurstIsOrdered(reqs, client, now, k - 1);
    }
  }

  /** A client that spends its window late and its next window early. */
  function Straddle(client: string, limit: int): seq<Request> {
    var late := Burst([Request(client, 0.0)], client, 59.0, Allowance(limit) - 1);
    Burst(late + [Request(client, 60.0)], client, 60.0, Allowance(limit) - 1)
  }

  lemma {:induction false} StraddleCounts(client: string, limit: int)
    ensures PlainCount(Straddle(client, limit), client, 1.0, limit) == 2 * Allowance(limit) - 1
  {
    var first, n := [Request(client, 0.0)], Allowance(limit);
    FirstStands(client, limit);
    BurstCounts(first, client, 59.0, n - 1, 1.0, limit, Bucket(0.0, 1), 0);
    var late := Burst(first, client, 59.0, n - 1);
    OneMore(late, client, 60.0, 1.0, limit, Bucket(0.0, n), n - 1);
    BurstCounts(late + [Request(client, 60.0)], client, 60.0, n - 1, 1.0, limit, Bucket(60.0, 1), n);
  }

  /** The bound is exact: for every limit, however the cleanups fall, some ordered history
    * reaches it within one minute. */
  lemma {:induction false} RateBoundIsReached(client: string, limit: int, sweeps: seq<bool>)
    requires |sweeps| == |Straddle(client, limit)|
    ensures Monotone(Straddle(client, limit))
    ensures LetThrough(Straddle(client, limit), sweeps, client, 1.0, limit) == 2 * Allowance(limit) - 1
  {
    var late := Burst([Request(client, 0.0)], client, 59.0, Allowance(limit) - 1);
    BurstIsOrdered([Request(client, 0.0)], client, 59.0, Allowance(limit) - 1);
    BurstIsOrdered(late + [Request(client, 60.0)], client, 60.0, Allowance(limit) - 1);
    StraddleCounts(client, limit);
    CleanupChangesNoCount(Straddle(client, limit), sweeps, client, 1.0, limit);
  }

  /** Waiting as long as a refusal says is enough exactly when nothing was truncated: the
    * remaining time was whole seconds, or less than one. */
  lemma {:induction false} RetryAfterSuffices(b: Bucket, now: real)
    requires b.start <= now && !Expired(b, now)
    ensures var left := WINDOW - (now - b.start);
      Expired(b, now + RetryAfter(b.start, now) as real) <==> (left == left.Floor as real || left < 1.0)
  {
  }
}
