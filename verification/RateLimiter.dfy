/**
 The gateway's fixed-window rate limiter. Times are milliseconds of a monotone clock; one call may
 read the clock twice: `now` for its own window, `later` inside the clean-up it may trigger.
 */
module RateLimiter {

  datatype Bucket = Bucket(count: int, windowStart: int)

  const FRESH := Bucket(0, 0)

  datatype Limiter = Limiter(maxRequests: int, windowS: int, lastCleanup: int, buckets: map<string, Bucket>)

  /** C++ integer division by 1000: rounds towards zero. */
  function Seconds(ms: int): int { if ms >= 0 then ms / 1000 else -((-ms) / 1000) }

  predicate Expired(b: Bucket, now: int, windowS: int) { Seconds(now - b.windowStart) >= windowS }

  predicate Evictable(b: Bucket, later: int, windowS: int) { Seconds(later - b.windowStart) > windowS * 2 }

  // ----- specification -----

  function Cleaned(buckets: map<string, Bucket>, later: int, windowS: int): map<string, Bucket> {
    map key | key in buckets && !Evictable(buckets[key], later, windowS) :: buckets[key]
  }

  function Lookup(buckets: map<string, Bucket>, key: string): Bucket {
    if key in buckets then buckets[key] else FRESH
  }

  /** The window a call at `now` counts in. */
  function Rolled(b: Bucket, now: int, windowS: int): Bucket {
    if Expired(b, now, windowS) then Bucket(0, now) else b
  }

  function Counted(b: Bucket, maxRequests: int): Bucket {
    if b.count >= maxRequests then b else b.(count := b.count + 1)
  }

  /** The answer to a call that finds its key's bucket as b. */
  predicate Admits(b: Bucket, now: int, l: Limiter) {
    Rolled(b, now, l.windowS).count < l.maxRequests
  }

  function AllowPlain(l: Limiter, key: string, now: int): (Limiter, bool) {
    var b := Lookup(l.buckets, key);
    (l.(buckets := l.buckets[key := Counted(Rolled(b, now, l.windowS), l.maxRequests)]), Admits(b, now, l))
  }

  function Swept(l: Limiter, now: int, later: int): Limiter {
    if now - l.lastCleanup > 300000
    then l.(buckets := Cleaned(l.buckets, later, l.windowS), lastCleanup := now) else l
  }

  function Allow(l: Limiter, key: string, now: int, later: int): (Limiter, bool) {
    AllowPlain(Swept(l, now, later), key, now)
  }

  // ----- the limiter object -----

  class Gate {
    var maxRequests: int
    var windowS: int
    var lastCleanup: int
    var buckets: map<string, Bucket>

    ghost function View(): Limiter
      reads this
    {
      Limiter(maxRequests, windowS, lastCleanup, buckets)
    }

    constructor (limit: int, window: int, now: int)
      ensures View() == Limiter(limit, window, now, map[])
    {
      maxRequests, windowS, lastCleanup, buckets := limit, window, now, map[];
    }

    /** Visits every bucket, in any order, and erases the evictable ones. */
    method CleanupExpired(later: int)
      modifies this`buckets
      ensures buckets == Cleaned(old(buckets), later, windowS)
    {
      var pending := buckets.Keys;
      while pending != {}
        invariant pending <= buckets.Keys <= old(buckets).Keys
        invariant forall key :: key in buckets ==> buckets[key] == old(buckets)[key]
        invariant forall key :: key in old(buckets) ==>
                    (key in buckets <==> key in pending || !Evictable(old(buckets)[key], later, windowS))
        decreases |pending|
      {
        var key :| key in pending;
        pending := pending - {key};
        if Evictable(buckets[key], later, windowS) {
          buckets := buckets - {key};
        }
      }
    }

    method Ask(key: string, now: int, later: int) returns (allowed: bool)
      modifies this`buckets, this`lastCleanup
      ensures (View(), allowed) == Allow(old(View()), key, now, later)
    {
      if now - lastCleanup > 300000 {
        CleanupExpired(later);
        lastCleanup := now;
      }
      var bucket := if key in buckets then buckets[key] else FRESH;
      if Seconds(now - bucket.windowStart) >= windowS {
        bucket := Bucket(0, now);
      }
      allowed := bucket.count < maxRequests;
      if allowed {
        bucket := bucket.(count := bucket.count + 1);
      }
      buckets := buckets[key := bucket];
    }
  }

  // ----- traces -----

  datatype Call = Call(key: string, now: int, later: int)

  /** The clock never runs backwards, and starts at or above zero. */
  ghost predicate Monotone(calls: seq<Call>) {
    && (forall i :: 0 <= i < |calls| ==> 0 <= calls[i].now <= calls[i].later)
    && (forall i, j :: 0 <= i < j < |calls| ==> calls[i].later <= calls[j].now)
  }

  /** Between the two clock reads of one call at most `delay` milliseconds pass. */
  ghost predicate Within(calls: seq<Call>, delay: int) {
    forall i :: 0 <= i < |calls| ==> calls[i].later - calls[i].now <= delay
  }

  /** Between the two clock reads of one call at most one second more than a window passes. */
  ghost predicate Prompt(calls: seq<Call>, windowS: int) {
    windowS >= 0 ==> Within(calls, (windowS + 1) * 1000)
  }

  function After(l: Limiter, calls: seq<Call>): Limiter
    decreases |calls|
  {
    if calls == [] then l
    else
      var n := |calls| - 1;
      Allow(After(l, calls[..n]), calls[n].key, calls[n].now, calls[n].later).0
  }

  /** The answer to call i of a trace. */
  function Answer(l: Limiter, calls: seq<Call>, i: nat): bool
    requires i < |calls|
  {
    Allow(After(l, calls[..i]), calls[i].key, calls[i].now, calls[i].later).1
  }

  /** The same limiter without any clean-up. */
  function AfterPlain(l: Limiter, calls: seq<Call>): Limiter
    decreases |calls|
  {
    if calls == [] then l
    else
      var n := |calls| - 1;
      AllowPlain(AfterPlain(l, calls[..n]), calls[n].key, calls[n].now).0
  }

  function AnswerPlain(l: Limiter, calls: seq<Call>, i: nat): bool
    requires i < |calls|
  {
    AllowPlain(AfterPlain(l, calls[..i]), calls[i].key, calls[i].now).1
  }

  // ----- eviction is invisible -----

  /** From time t on, a bucket the plain limiter has and the other lacks counts as expired. */
  ghost predicate Indistinct(a: Limiter, b: Limiter, t: int) {
    && a.maxRequests == b.maxRequests && a.windowS == b.windowS
    && (forall key :: key in a.buckets ==> key in b.buckets && a.buckets[key] == b.buckets[key])
    && (forall key :: key in b.buckets ==> 0 <= b.buckets[key].windowStart <= t)
    && (forall key :: key in b.buckets && key !in a.buckets ==> Expired(b.buckets[key], t, b.windowS))
  }

  lemma ExpiryLasts(b: Bucket, t: int, u: int, windowS: int)
    requires t <= u && Expired(b, t, windowS) && b.windowStart <= t
    ensures Expired(b, u, windowS)
  {
  }

  lemma EvictableIsExpired(b: Bucket, now: int, later: int, windowS: int)
    requires b.windowStart <= now <= later && Evictable(b, later, windowS)
    requires windowS >= 0 ==> later <= now + (windowS + 1) * 1000
    ensures Expired(b, now, windowS)
  {
  }

  lemma SweepIndistinct(a: Limiter, b: Limiter, t: int, now: int, later: int)
    requires Indistinct(a, b, t) && t <= now <= later
    requires b.windowS >= 0 ==> later <= now + (b.windowS + 1) * 1000
    ensures Indistinct(Swept(a, now, later), b, now)
  {
    var a' := Swept(a, now, later);
    forall key | key in b.buckets && key !in a'.buckets
      ensures Expired(b.buckets[key], now, b.windowS)
    {
      if key in a.buckets {
        EvictableIsExpired(b.buckets[key], now, later, b.windowS);
      } else {
        ExpiryLasts(b.buckets[key], t, now, b.windowS);
      }
    }
  }

  lemma AllowIndistinct(a: Limiter, b: Limiter, key: string, now: int)
    requires Indistinct(a, b, now) && now >= 0
    ensures AllowPlain(a, key, now).1 == AllowPlain(b, key, now).1
    ensures Indistinct(AllowPlain(a, key, now).0, AllowPlain(b, key, now).0, now)
  {
    var x, y := Lookup(a.buckets, key), Lookup(b.buckets, key);
    if key in b.buckets && key !in a.buckets {
      assert Rolled(y, now, b.windowS) == Bucket(0, now);
      assert Rolled(x, now, b.windowS) == Bucket(0, now);
    } else {
      assert x == y;
    }
  }

  lemma {:induction false} RunsIndistinct(l: Limiter, calls: seq<Call>)
    requires Monotone(calls) && Prompt(calls, l.windowS) && l.buckets == map[]
    ensures After(l, calls).windowS == l.windowS && AfterPlain(l, calls).windowS == l.windowS
    ensures Indistinct(After(l, calls), AfterPlain(l, calls), if calls == [] then 0 else calls[|calls| - 1].now)
    decreases |calls|
  {
    if calls != [] {
      var n := |calls| - 1;
      var c := calls[n];
      RunsIndistinct(l, calls[..n]);
      var a, b := After(l, calls[..n]), AfterPlain(l, calls[..n]);
      var t := if n == 0 then 0 else calls[n - 1].now;
      assert n > 0 ==> calls[n - 1].later <= c.now;
      SweepIndistinct(a, b, t, c.now, c.later);
      AllowIndistinct(Swept(a, c.now, c.later), b, c.key, c.now);
    }
  }

  /** On every trace the limiter answers every call as one that never evicts would. */
  lemma EvictionIsInvisible(l: Limiter, calls: seq<Call>, i: nat)
    requires Monotone(calls) && Prompt(calls, l.windowS) && l.buckets == map[] && i < |calls|
    ensures Answer(l, calls, i) == AnswerPlain(l, calls, i)
  {
    var c := calls[i];
    RunsIndistinct(l, calls[..i]);
    var a, b := After(l, calls[..i]), AfterPlain(l, calls[..i]);
    var t := if i == 0 then 0 else calls[i - 1].now;
    assert i > 0 ==> calls[i - 1].later <= c.now;
    SweepIndistinct(a, b, t, c.now, c.later);
    AllowIndistinct(Swept(a, c.now, c.later), b, c.key, c.now);
  }

  /** n calls for one key at one instant. */
  function Burst(key: string, now: int, n: nat): (calls: seq<Call>)
    ensures |calls| == n && forall i :: 0 <= i < n ==> calls[i] == Call(key, now, now)
  {
    if n == 0 then [] else Burst(key, now, n - 1) + [Call(key, now, now)]
  }

  function Filled(l: Limiter, key: string, now: int, n: nat): Limiter {
    l.(buckets := if n == 0 then map[] else map[key := Bucket(n, now)])
  }

  lemma OneMoreFills(l: Limiter, key: string, now: int, n: nat)
    requires l.windowS >= 1 && n < l.maxRequests && now >= l.windowS * 1000
    ensures AllowPlain(Filled(l, key, now, n), key, now).0 == Filled(l, key, now, n + 1)
  {
    assert Rolled(FRESH, now, l.windowS) == Bucket(0, now);
    assert Rolled(Bucket(n, now), now, l.windowS) == Bucket(n, now);
    var b := Lookup(Filled(l, key, now, n).buckets, key);
    assert Counted(Rolled(b, now, l.windowS), l.maxRequests) == Bucket(n + 1, now);
    assert Filled(l, key, now, n).buckets[key := Bucket(n + 1, now)] == map[key := Bucket(n + 1, now)];
  }

  /** A burst up to the limit, at the last instant without a clean-up, fills the key's bucket. */
  lemma {:induction false} BurstFills(l: Limiter, key: string, now: int, n: nat)
    requires l.windowS >= 1 && n <= l.maxRequests && l.buckets == map[]
    requires now == l.lastCleanup + 300000 && now >= l.windowS * 1000
    ensures After(l, Burst(key, now, n)) == Filled(l, key, now, n)
    ensures AfterPlain(l, Burst(key, now, n)) == Filled(l, key, now, n)
  {
    if n > 0 {
      assert Burst(key, now, n)[..n - 1] == Burst(key, now, n - 1);
      BurstFills(l, key, now, n - 1);
      OneMoreFills(l, key, now, n - 1);
    }
  }

  /** The trace of a full bucket and one call just before its window ends, whose clean-up reads the clock
      at `later`. */
  function LateTrace(l: Limiter, key: string, later: int): seq<Call>
    requires l.maxRequests >= 0
  {
    var start := l.lastCleanup + 300000;
    Burst(key, start, l.maxRequests) + [Call(key, start + l.windowS * 1000 - 1, later)]
  }

  lemma LateTraceIsMonotone(l: Limiter, key: string, later: int)
    requires l.windowS >= 1 && l.maxRequests >= 1 && l.lastCleanup >= 0
    requires later >= l.lastCleanup + 300000 + l.windowS * 1000 - 1
    ensures Monotone(LateTrace(l, key, later))
  {
  }

  /** A clean-up that reads the clock more than a window and a second after its call evicts a full bucket of
      the current window: from the empty limiter, the call is admitted that should be refused. */
  lemma LateCleanupAdmitsTooMuch(l: Limiter, key: string, later: int)
    requires l.windowS >= 1 && l.maxRequests >= 1 && l.buckets == map[] && l.lastCleanup >= l.windowS * 1000
    requires later - (l.lastCleanup + 300000 + l.windowS * 1000 - 1) > (l.windowS + 1) * 1000
    ensures var calls := LateTrace(l, key, later);
            Monotone(calls) && Answer(l, calls, l.maxRequests) && !AnswerPlain(l, calls, l.maxRequests)
  {
    var start, m := l.lastCleanup + 300000, l.maxRequests;
    var now := start + l.windowS * 1000 - 1;
    LateTraceIsMonotone(l, key, later);
    assert LateTrace(l, key, later)[..m] == Burst(key, start, m);
    BurstFills(l, key, start, m);
    var b := Bucket(m, start);
    assert !Expired(b, now, l.windowS);
    assert Evictable(b, later, l.windowS);
    assert Expired(FRESH, now, l.windowS);
  }

  /** A monotone trace from an empty limiter with these limits, each call within the delay. */
  ghost predicate IsTrace(l: Limiter, calls: seq<Call>, maxRequests: int, windowS: int, delay: int) {
    && l.maxRequests == maxRequests && l.windowS == windowS && l.buckets == map[]
    && Monotone(calls) && Within(calls, delay)
  }

  /** Eviction is invisible on every monotone trace whose clean-ups read the clock within `delay` of their call,
      exactly when the delay is at most a window and a second. */
  lemma EvictionIsInvisibleIff(maxRequests: int, windowS: int, delay: int)
    requires maxRequests >= 1 && windowS >= 1
    ensures delay <= (windowS + 1) * 1000 <==>
            forall l, calls, i: nat :: IsTrace(l, calls, maxRequests, windowS, delay) && i < |calls| ==>
              Answer(l, calls, i) == AnswerPlain(l, calls, i)
  {
    if delay <= (windowS + 1) * 1000 {
      forall l, calls, i: nat | IsTrace(l, calls, maxRequests, windowS, delay) && i < |calls|
        ensures Answer(l, calls, i) == AnswerPlain(l, calls, i)
      {
        EvictionIsInvisible(l, calls, i);
      }
    } else {
      var l := Limiter(maxRequests, windowS, windowS * 1000, map[]);
      var later := l.lastCleanup + 300000 + windowS * 1000 - 1 + delay;
      LateCleanupAdmitsTooMuch(l, "", later);
      assert IsTrace(l, LateTrace(l, "", later), maxRequests, windowS, delay);
    }
  }

  // ----- the rate bound -----

  function Max(a: int, b: int): int { if a < b then b else a }

  predicate InSpan(now: int, t: int, span: int) { t <= now < t + span }

  /** Calls for `key` in [t, t + span) that the limiter admitted. */
  function Admitted(l: Limiter, calls: seq<Call>, key: string, t: int, span: int): nat
    decreases |calls|
  {
    if calls == [] then 0
    else
      var n := |calls| - 1;
      Admitted(l, calls[..n], key, t, span) +
      if calls[n].key == key && InSpan(calls[n].now, t, span) && Answer(l, calls, n) then 1 else 0
  }

  function AdmittedPlain(l: Limiter, calls: seq<Call>, key: string, t: int, span: int): nat
    decreases |calls|
  {
    if calls == [] then 0
    else
      var n := |calls| - 1;
      AdmittedPlain(l, calls[..n], key, t, span) +
      if calls[n].key == key && InSpan(calls[n].now, t, span) && AnswerPlain(l, calls, n) then 1 else 0
  }

  lemma {:induction false} AdmittedAgree(l: Limiter, calls: seq<Call>, key: string, t: int, span: int)
    requires Monotone(calls) && Prompt(calls, l.windowS) && l.buckets == map[]
    ensures Admitted(l, calls, key, t, span) == AdmittedPlain(l, calls, key, t, span)
    decreases |calls|
  {
    if calls != [] {
      AdmittedAgree(l, calls[..|calls| - 1], key, t, span);
      EvictionIsInvisible(l, calls, |calls| - 1);
    }
  }

  /** How many windows of w milliseconds fit between t and s. */
  function Windows(s: int, t: int, w: int): int
    requires w > 0
  {
    (s - t) / w
  }

  lemma QuotientBounds(a: int, w: int)
    requires w > 0
    ensures (a / w) * w <= a < (a / w + 1) * w
  {
  }

  lemma WindowsClimb(s: int, now: int, t: int, w: int)
    requires w > 0 && now - s >= w
    ensures Windows(now, t, w) >= Windows(s, t, w) + 1
  {
    var p, q := (s - t) / w, (now - t) / w;
    QuotientBounds(s - t, w);
    QuotientBounds(now - t, w);
    assert (p + 1) * w == p * w + w;
    if q < p + 1 {
      TimesMonotone(q + 1, p + 1, w);
    }
  }

  lemma DivideMonotone(a: int, b: int, w: int)
    requires w > 0 && a <= b
    ensures a / w <= b / w
  {
    if a / w > b / w {
      TimesMonotone(b / w + 1, a / w, w);
    }
  }

  lemma TimesMonotone(p: int, q: int, m: int)
    requires p <= q && m >= 0
    ensures p * m <= q * m
  {
  }

  /** While the current window started at `b.windowStart`, at most this many calls were admitted in the
      span: one earlier window, every whole window since t, and the current count. */
  ghost predicate Paid(admitted: int, b: Bucket, m: int, t: int, w: int)
    requires w > 0
  {
    && 0 <= b.count <= m
    && (b.windowStart < t ==> admitted <= b.count)
    && (b.windowStart >= t ==> admitted <= (1 + Windows(b.windowStart, t, w)) * m + b.count)
  }

  lemma RollPays(admitted: int, b: Bucket, m: int, t: int, windowS: int, now: int)
    requires windowS > 0 && b.windowStart <= now && Paid(admitted, b, m, t, windowS * 1000)
    requires now < t ==> admitted == 0
    ensures Paid(admitted, Rolled(b, now, windowS), m, t, windowS * 1000)
  {
    var w := windowS * 1000;
    if Expired(b, now, windowS) && now >= t {
      assert now - b.windowStart >= w;
      DivideMonotone(0, now - t, w);
      if b.windowStart >= t {
        WindowsClimb(b.windowStart, now, t, w);
        TimesMonotone(1 + Windows(b.windowStart, t, w) + 1, 1 + Windows(now, t, w), m);
        assert (1 + Windows(b.windowStart, t, w) + 1) * m == (1 + Windows(b.windowStart, t, w)) * m + m;
      } else {
        TimesMonotone(1, 1 + Windows(now, t, w), m);
      }
    }
  }

  /** Inside the span the promise is `Paid`; after it the total is final. */
  ghost predicate BoundHolds(admitted: int, b: Bucket, m: int, t: int, k: nat, w: int, now: int)
    requires w > 0
  {
    && 0 <= admitted && 0 <= b.count <= m && b.windowStart <= now
    && (now < t ==> admitted == 0)
    && (now < t + k * w ==> Paid(admitted, b, m, t, w))
    && admitted <= (k + 1) * m
  }

  lemma PaidIsBounded(admitted: int, b: Bucket, m: int, t: int, k: nat, w: int, now: int)
    requires w > 0 && m >= 0 && Paid(admitted, b, m, t, w) && b.windowStart <= now < t + k * w
    ensures admitted <= (k + 1) * m
  {
    if b.windowStart >= t {
      assert Windows(b.windowStart, t, w) <= k - 1 by {
        if Windows(b.windowStart, t, w) >= k {
          TimesMonotone(k, Windows(b.windowStart, t, w), w);
        }
      }
      TimesMonotone(1 + Windows(b.windowStart, t, w), k, m);
      assert k * m + m == (k + 1) * m;
    } else {
      TimesMonotone(1, k + 1, m);
    }
  }

  lemma CallKeepsBound(admitted: int, b: Bucket, l: Limiter, t: int, k: nat, before: int, now: int)
    requires l.windowS > 0 && before <= now
    requires BoundHolds(admitted, b, Max(0, l.maxRequests), t, k, l.windowS * 1000, before)
    ensures var w := l.windowS * 1000;
            var admitted' := admitted + if InSpan(now, t, k * w) && Admits(b, now, l) then 1 else 0;
            BoundHolds(admitted', Counted(Rolled(b, now, l.windowS), l.maxRequests), Max(0, l.maxRequests), t, k, w, now)
  {
    var w, m := l.windowS * 1000, Max(0, l.maxRequests);
    if now < t + k * w {
      RollPays(admitted, b, m, t, l.windowS, now);
      var b' := Counted(Rolled(b, now, l.windowS), l.maxRequests);
      var admitted' := admitted + if InSpan(now, t, k * w) && Admits(b, now, l) then 1 else 0;
      assert Paid(admitted', b', m, t, w);
      PaidIsBounded(admitted', b', m, t, k, w, now);
    }
  }

  lemma {:induction false} BoundOverTrace(l: Limiter, calls: seq<Call>, key: string, t: int, k: nat)
    requires Monotone(calls) && l.buckets == map[] && l.windowS > 0
    ensures AfterPlain(l, calls).windowS == l.windowS && AfterPlain(l, calls).maxRequests == l.maxRequests
    ensures var w := l.windowS * 1000;
            BoundHolds(AdmittedPlain(l, calls, key, t, k * w), Lookup(AfterPlain(l, calls).buckets, key),
                       Max(0, l.maxRequests), t, k, w, if calls == [] then 0 else calls[|calls| - 1].now)
    decreases |calls|
  {
    var w, m := l.windowS * 1000, Max(0, l.maxRequests);
    if calls == [] {
      EmptyBound(m, t, k, w);
    } else {
      var n := |calls| - 1;
      var c := calls[n];
      BoundOverTrace(l, calls[..n], key, t, k);
      var before := if n == 0 then 0 else calls[n - 1].now;
      assert n > 0 ==> calls[n - 1].later <= c.now;
      var b, admitted := AfterPlain(l, calls[..n]), AdmittedPlain(l, calls[..n], key, t, k * w);
      if c.key == key {
        CallKeepsBound(admitted, Lookup(b.buckets, key), b, t, k, before, c.now);
      }
    }
  }

  lemma EmptyBound(m: int, t: int, k: nat, w: int)
    requires w > 0 && m >= 0
    ensures BoundHolds(0, FRESH, m, t, k, w, 0)
  {
    TimesMonotone(0, k + 1, m);
    if t <= 0 {
      DivideMonotone(0, -t, w);
      TimesMonotone(0, 1 + Windows(0, t, w), m);
    }
  }

  /** On every trace, any key is admitted at most (k + 1) * maxRequests times in any half-open span of
      k windows; with k = 1, at most twice the limit in one window's length, wherever it starts. */
  lemma RateIsBounded(l: Limiter, calls: seq<Call>, key: string, t: int, k: nat)
    requires Monotone(calls) && Prompt(calls, l.windowS) && l.buckets == map[]
    ensures Admitted(l, calls, key, t, k * (l.windowS * 1000)) <= (k + 1) * Max(0, l.maxRequests)
  {
    if l.windowS > 0 {
      AdmittedAgree(l, calls, key, t, k * (l.windowS * 1000));
      BoundOverTrace(l, calls, key, t, k);
    } else {
      NoWindowNoSpan(l, calls, key, t, k);
    }
  }

  lemma NoWindowNoSpan(l: Limiter, calls: seq<Call>, key: string, t: int, k: nat)
    requires l.windowS <= 0
    ensures Admitted(l, calls, key, t, k * (l.windowS * 1000)) <= (k + 1) * Max(0, l.maxRequests)
  {
    TimesMonotone(l.windowS * 1000, 0, k);
    EmptySpan(l, calls, key, t, k * (l.windowS * 1000));
    TimesMonotone(0, k + 1, Max(0, l.maxRequests));
  }

  lemma {:induction false} EmptySpan(l: Limiter, calls: seq<Call>, key: string, t: int, span: int)
    requires span <= 0
    ensures Admitted(l, calls, key, t, span) == 0
    decreases |calls|
  {
    if calls != [] {
      EmptySpan(l, calls[..|calls| - 1], key, t, span);
    }
  }

  // ----- a refusal means the limit is used up -----

  /** At most `count` calls of a trace are counted in the key's bucket, all admitted since its window started. */
  ghost predicate Earned(l: Limiter, calls: seq<Call>, key: string, b: Bucket, now: int) {
    b.windowStart <= now && b.count <= AdmittedPlain(l, calls, key, b.windowStart, now - b.windowStart + 1)
  }

  lemma {:induction false} WiderSpan(l: Limiter, calls: seq<Call>, key: string, t: int, span: int, t': int, span': int)
    requires t' <= t && t + span <= t' + span'
    ensures AdmittedPlain(l, calls, key, t, span) <= AdmittedPlain(l, calls, key, t', span')
    decreases |calls|
  {
    if calls != [] {
      WiderSpan(l, calls[..|calls| - 1], key, t, span, t', span');
    }
  }

  lemma CallEarns(l: Limiter, calls: seq<Call>, key: string, b: Bucket, before: int)
    requires calls != [] && l.windowS >= 1 && before <= calls[|calls| - 1].now
    requires Earned(l, calls[..|calls| - 1], key, b, before)
    requires Lookup(AfterPlain(l, calls[..|calls| - 1]).buckets, key) == b
    requires var a := AfterPlain(l, calls[..|calls| - 1]); a.windowS == l.windowS && a.maxRequests == l.maxRequests
    ensures Earned(l, calls, key, Lookup(AfterPlain(l, calls).buckets, key), calls[|calls| - 1].now)
  {
    var n := |calls| - 1;
    var now := calls[n].now;
    WiderSpan(l, calls[..n], key, b.windowStart, before - b.windowStart + 1, b.windowStart, now - b.windowStart + 1);
    if calls[n].key == key {
      var a := AfterPlain(l, calls[..n]);
      assert AnswerPlain(l, calls, n) == Admits(b, now, a);
    }
  }

  lemma {:induction false} CountsAreEarned(l: Limiter, calls: seq<Call>, key: string)
    requires Monotone(calls) && l.buckets == map[] && l.windowS >= 1
    ensures AfterPlain(l, calls).windowS == l.windowS && AfterPlain(l, calls).maxRequests == l.maxRequests
    ensures Earned(l, calls, key, Lookup(AfterPlain(l, calls).buckets, key), if calls == [] then 0 else calls[|calls| - 1].now)
    decreases |calls|
  {
    if calls != [] {
      var n := |calls| - 1;
      CountsAreEarned(l, calls[..n], key);
      var before := if n == 0 then 0 else calls[n - 1].now;
      assert n > 0 ==> calls[n - 1].later <= calls[n].now;
      CallEarns(l, calls, key, Lookup(AfterPlain(l, calls[..n]).buckets, key), before);
    }
  }

  lemma RefusedBucket(b: Bucket, now: int, l: Limiter)
    requires l.windowS >= 1 && l.maxRequests > 0 && b.windowStart <= now && !Admits(b, now, l)
    ensures b.count >= l.maxRequests && b.windowStart >= now - l.windowS * 1000 + 1
  {
  }

  lemma PlainRefusal(l: Limiter, calls: seq<Call>, key: string, before: int, now: int)
    requires l.windowS >= 1 && l.maxRequests > 0 && before <= now
    requires var a := AfterPlain(l, calls);
             && a.windowS == l.windowS && a.maxRequests == l.maxRequests
             && Earned(l, calls, key, Lookup(a.buckets, key), before) && !Admits(Lookup(a.buckets, key), now, a)
    ensures AdmittedPlain(l, calls, key, now - l.windowS * 1000 + 1, l.windowS * 1000) >= l.maxRequests
  {
    var a, w := AfterPlain(l, calls), l.windowS * 1000;
    var b := Lookup(a.buckets, key);
    RefusedBucket(b, now, a);
    WiderSpan(l, calls, key, b.windowStart, before - b.windowStart + 1, now - w + 1, w);
  }

  lemma PlainRefusalAfter(l: Limiter, calls: seq<Call>, key: string, now: int)
    requires Monotone(calls) && l.buckets == map[] && l.windowS >= 1 && l.maxRequests > 0
    requires now >= if calls == [] then 0 else calls[|calls| - 1].now
    requires var a := AfterPlain(l, calls); !Admits(Lookup(a.buckets, key), now, a)
    ensures AdmittedPlain(l, calls, key, now - l.windowS * 1000 + 1, l.windowS * 1000) >= l.maxRequests
  {
    CountsAreEarned(l, calls, key);
    PlainRefusal(l, calls, key, if calls == [] then 0 else calls[|calls| - 1].now, now);
  }

  /** A call is refused only if its key was admitted as often as the limit allows within the window's length that
      ends with the call. */
  lemma RefusalMeansUsedUp(l: Limiter, calls: seq<Call>, i: nat)
    requires Monotone(calls) && Prompt(calls, l.windowS) && l.buckets == map[] && l.windowS >= 1 && i < |calls|
    requires !Answer(l, calls, i)
    ensures Admitted(l, calls[..i], calls[i].key, calls[i].now - l.windowS * 1000 + 1, l.windowS * 1000) >= l.maxRequests
  {
    if l.maxRequests > 0 {
      EvictionIsInvisible(l, calls, i);
      PrefixIsTrace(l, calls, i);
      PlainRefusalAfter(l, calls[..i], calls[i].key, calls[i].now);
      AdmittedAgree(l, calls[..i], calls[i].key, calls[i].now - l.windowS * 1000 + 1, l.windowS * 1000);
    }
  }

  lemma PrefixIsTrace(l: Limiter, calls: seq<Call>, i: nat)
    requires Monotone(calls) && Prompt(calls, l.windowS) && i <= |calls|
    ensures Monotone(calls[..i]) && Prompt(calls[..i], l.windowS)
    ensures 0 < i < |calls| ==> calls[..i][i - 1].now <= calls[i].now
  {
  }

  // ----- what a clean-up leaves -----

  /** A call more than five minutes after the last clean-up leaves no bucket whose window began more than two windows
      and a second before the clean-up looked at the clock; any other call touches no bucket but its key's. */
  lemma OldBucketsGo(l: Limiter, calls: seq<Call>, key: string)
    requires calls != [] && l.windowS >= 0
    ensures var before, after, c := After(l, calls[..|calls| - 1]), After(l, calls), calls[|calls| - 1];
            if c.now - before.lastCleanup > 300000 then
              && after.lastCleanup == c.now
              && (key != c.key && key in after.buckets ==>
                    c.later - after.buckets[key].windowStart < (2 * l.windowS + 1) * 1000)
            else
              && after.lastCleanup == before.lastCleanup
              && (key != c.key ==> (key in after.buckets <==> key in before.buckets))
    ensures var before, after := After(l, calls[..|calls| - 1]), After(l, calls);
            key != calls[|calls| - 1].key && key in after.buckets ==>
              key in before.buckets && after.buckets[key] == before.buckets[key]
  {
    SameLimits(l, calls[..|calls| - 1]);
  }

  lemma {:induction false} SameLimits(l: Limiter, calls: seq<Call>)
    ensures After(l, calls).windowS == l.windowS && After(l, calls).maxRequests == l.maxRequests
    decreases |calls|
  {
    if calls != [] {
      SameLimits(l, calls[..|calls| - 1]);
    }
  }
}
