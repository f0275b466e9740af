/**
 How often a judge task may be retried: the retry count read from a delivery's headers, the policy
 table that turns a report decision into a delivery action, and what the judge consumer makes of it.
 */
module RetryPolicy {
  import opened Basics

  const UINT32: nat := 0x1_0000_0000
  const UINT64: nat := 0x1_0000_0000_0000_0000

  // ----- the received retry count -----

  /** One entry of the "x-death" array: not a table, or a table whose "count" may be missing. */
  datatype Death = NotATable | Table(count: Option<nat>)

  function Increment(death: Death): nat {
    if death.Table? && death.count.Some? then death.count.value else 0
  }

  /** What the death entries add up to. */
  function TrueSum(deaths: seq<Death>): nat {
    if deaths == [] then 0 else TrueSum(deaths[..|deaths| - 1]) + Increment(deaths[|deaths| - 1])
  }

  lemma {:induction false} TrueSumAppend(a: seq<Death>, b: seq<Death>)
    ensures TrueSum(a + b) == TrueSum(a) + TrueSum(b)
    decreases |b|
  {
    if b == [] {
      assert a + b == a;
    } else {
      var n := |b| - 1;
      assert (a + b)[..|a + b| - 1] == a + b[..n];
      TrueSumAppend(a, b[..n]);
    }
  }

  /** An entry adds its count wherever it stands; one that is no table or has no count adds nothing. */
  lemma TrueSumOfEntry(a: seq<Death>, count: nat, b: seq<Death>)
    ensures TrueSum(a + [Table(Some(count))] + b) == TrueSum(a + b) + count
    ensures TrueSum(a + [Table(None)] + b) == TrueSum(a + b) == TrueSum(a + [NotATable] + b)
  {
    TrueSumAppend(a + [Table(Some(count))], b);
    TrueSumAppend(a, [Table(Some(count))]);
    TrueSumAppend(a + [Table(None)], b);
    TrueSumAppend(a, [Table(None)]);
    TrueSumAppend(a + [NotATable], b);
    TrueSumAppend(a, [NotATable]);
    TrueSumAppend(a, b);
    assert [Table(Some(count))][..0] == [] && [Table(None)][..0] == [] && [NotATable][..0] == [];
  }

  /** What the loop adds up: the array is indexed with a uint8, the total is a uint64. */
  function LoopSum(deaths: seq<Death>, n: nat): (sum: nat)
    requires n <= |deaths|
    ensures sum < UINT64
  {
    if n == 0 then 0 else (LoopSum(deaths, n - 1) + Increment(deaths[(n - 1) % 256])) % UINT64
  }

  function Max(a: nat, b: nat): nat { if a < b then b else a }

  function Saturate(sum: nat): nat { if sum < UINT32 then sum else UINT32 - 1 }

  /** The retry count handed to the application. */
  method ReceivedCount(header: Option<nat>, deaths: Option<seq<Death>>) returns (retries: nat)
    ensures retries < UINT32
    ensures header.Some? ==> retries >= header.value % UINT32
    ensures retries == Max(if header.Some? then header.value % UINT32 else 0,
                           if deaths.Some? then Saturate(LoopSum(deaths.value, |deaths.value|)) else 0)
    ensures deaths.Some? && |deaths.value| <= 256 && TrueSum(deaths.value) < UINT64 ==>
              retries >= TrueSum(deaths.value) || retries == UINT32 - 1
    ensures deaths.Some? && |deaths.value| <= 256 && TrueSum(deaths.value) < UINT32 ==>
              retries == TrueSum(deaths.value) || (header.Some? && retries == header.value % UINT32)
  {
    retries := 0;
    if header.Some? {
      retries := header.value % UINT32;
    }
    if deaths.Some? {
      var deathCount := 0;
      for index := 0 to |deaths.value|
        invariant deathCount == LoopSum(deaths.value, index)
      {
        var entry := deaths.value[index % 256];
        if entry.Table? && entry.count.Some? {
          deathCount := (deathCount + entry.count.value) % UINT64;
        }
      }
      WholeSum(deaths.value);
      retries := Max(retries, Saturate(deathCount));
    }
  }

  lemma WholeSum(deaths: seq<Death>)
    ensures |deaths| <= 256 && TrueSum(deaths) < UINT64 ==> LoopSum(deaths, |deaths|) == TrueSum(deaths)
  {
    if |deaths| <= 256 && TrueSum(deaths) < UINT64 {
      assert deaths[..|deaths|] == deaths;
      LoopSumIsTrue(deaths, |deaths|);
    }
  }

  /** Up to 256 entries with a total below 2^64 the loop's sum is the true one. */
  lemma {:induction false} LoopSumIsTrue(deaths: seq<Death>, n: nat)
    requires n <= |deaths| && n <= 256 && TrueSum(deaths[..n]) < UINT64
    ensures LoopSum(deaths, n) == TrueSum(deaths[..n])
  {
    if n > 0 {
      assert deaths[..n][..n - 1] == deaths[..n - 1];
      LoopSumIsTrue(deaths, n - 1);
    }
  }

  function Repeat(death: Death, n: nat): (r: seq<Death>)
    ensures |r| == n && forall i :: 0 <= i < n ==> r[i] == death
  {
    seq(n, _ => death)
  }

  lemma {:induction false} NoTablesNoCount(deaths: seq<Death>, n: nat)
    requires n <= |deaths| && forall i :: 0 <= i < n ==> deaths[i] == NotATable
    ensures LoopSum(deaths, n) == 0 && TrueSum(deaths[..n]) == 0
  {
    if n > 0 {
      assert deaths[..n][..n - 1] == deaths[..n - 1];
      NoTablesNoCount(deaths, n - 1);
      assert (n - 1) % 256 <= n - 1;
    }
  }

  /** An array of more than 256 entries is read from the start again: its last entry is not counted. */
  lemma LongArrayMiscounted(n: nat, count: nat)
    requires n > 256 && 0 < count < UINT64
    ensures var deaths := Repeat(NotATable, n - 1) + [Table(Some(count))];
            TrueSum(deaths) == count && LoopSum(deaths, n) == 0
  {
    var deaths := Repeat(NotATable, n - 1) + [Table(Some(count))];
    NoTablesNoCount(deaths, n - 1);
    assert deaths[..n - 1] == deaths[..|deaths| - 1];
    assert (n - 1) % 256 < n - 1;
  }

  /** The loop counts every array of n entries rightly exactly when n is at most 256. */
  lemma LoopSumIsTrueIff(n: nat)
    ensures n <= 256 <==>
            forall deaths :: |deaths| == n && TrueSum(deaths) < UINT64 ==> LoopSum(deaths, |deaths|) == TrueSum(deaths)
  {
    if n <= 256 {
      forall deaths: seq<Death> | |deaths| == n && TrueSum(deaths) < UINT64
        ensures LoopSum(deaths, |deaths|) == TrueSum(deaths)
      {
        WholeSum(deaths);
      }
    } else {
      LongArrayMiscounted(n, 1);
      var deaths := Repeat(NotATable, n - 1) + [Table(Some(1))];
      assert |deaths| == n && LoopSum(deaths, |deaths|) != TrueSum(deaths);
    }
  }

  // ----- policy and practice -----

  datatype ReportDecision = ReportAck | ReportRetry | ReportReject
  datatype DeliveryAction = Ack | Retry | DeadLetter

  function ResolveDeliveryAction(decision: ReportDecision, retryCount: nat): DeliveryAction {
    if decision == ReportAck then Ack
    else if decision == ReportReject || retryCount >= 3 then DeadLetter
    else Retry
  }

  /** A call the judge consumer makes to settle a delivery. */
  datatype Call = CallAck | CallRetry(delayMs: nat, count: nat) | CallDeadLetter(count: nat)

  function NextCount(count: nat): nat { (count + 1) % UINT32 }

  function RetryOrDeadLetter(count: nat, retryAfterMs: nat): Call {
    if ResolveDeliveryAction(ReportRetry, count) == DeadLetter
    then CallRetry(Max(retryAfterMs, 30000), NextCount(count))
    else CallRetry(retryAfterMs, NextCount(count))
  }

  function FinishDelivery(decision: ReportDecision, count: nat, retryAfterMs: nat): Call {
    var action := ResolveDeliveryAction(decision, count);
    if action == Ack then CallAck
    else if action == DeadLetter && decision == ReportReject then CallDeadLetter(count)
    else RetryOrDeadLetter(count, retryAfterMs)
  }

  function ActionOf(call: Call): DeliveryAction {
    match call case CallAck => Ack case CallRetry(_, _) => Retry case CallDeadLetter(_) => DeadLetter
  }

  /** Under the table a report is acknowledged exactly if it was accepted, and a judged submission is given up exactly
      if the report was rejected or failed after three retries. */
  lemma TableAnswers(decision: ReportDecision, count: nat)
    ensures ResolveDeliveryAction(decision, count) == Ack <==> decision == ReportAck
    ensures ResolveDeliveryAction(decision, count) == DeadLetter <==>
            decision == ReportReject || (decision == ReportRetry && count > 2)
  {
  }

  /** What the consumer does with a task depends on the decision alone. A retry carries the next 32-bit count and waits
      as long as it was asked to, and at least half a minute once three were made. */
  lemma ConsumerAnswers(decision: ReportDecision, count: nat, retryAfterMs: nat)
    ensures var call := FinishDelivery(decision, count, retryAfterMs);
            && (call == CallAck <==> decision == ReportAck)
            && (call == CallDeadLetter(count) <==> decision == ReportReject)
            && (call.CallRetry? <==> decision == ReportRetry)
            && (call.CallRetry? ==> call.delayMs >= retryAfterMs && call.count == (count + 1) % 0x1_0000_0000)
            && (call.CallRetry? && count < 3 ==> call.delayMs == retryAfterMs)
            && (call.CallRetry? && count >= 3 ==> call.delayMs >= 30000 && (call.delayMs == retryAfterMs || call.delayMs == 30000))
  {
  }

  /** The consumer departs from the policy table in exactly one case: it keeps retrying, at least
      30 seconds apart, where the table says dead letter for exhausted retries. */
  lemma PracticeMeetsPolicyIff(decision: ReportDecision, count: nat, retryAfterMs: nat)
    ensures ActionOf(FinishDelivery(decision, count, retryAfterMs)) == ResolveDeliveryAction(decision, count)
       <==> !(decision == ReportRetry && count >= 3)
    ensures decision == ReportRetry && count >= 3 ==>
              FinishDelivery(decision, count, retryAfterMs).CallRetry? &&
              FinishDelivery(decision, count, retryAfterMs).delayMs >= 30000
  {
  }

  /** One delivery of a chain: the count it was received with and what was decided about it. */
  datatype Hop = Hop(received: nat, decision: ReportDecision)

  /** Each hop but the last was retried (as `retried` judges it) and its successor was received with at
      least the forwarded count: the received count never falls below the header's. */
  ghost predicate Chain(hops: seq<Hop>, retried: Hop -> bool) {
    && (forall i :: 0 <= i < |hops| ==> hops[i].received < UINT32)
    && (forall i :: 0 <= i < |hops| - 1 ==> retried(hops[i]) && hops[i + 1].received >= NextCount(hops[i].received))
  }

  predicate ByPolicy(h: Hop) { ResolveDeliveryAction(h.decision, h.received) == Retry }

  predicate InPractice(h: Hop) { FinishDelivery(h.decision, h.received, 0).CallRetry? }

  predicate Exhausted(h: Hop) { h.decision == ReportRetry && h.received >= 3 }

  lemma {:induction false} CountsClimb(hops: seq<Hop>, k: nat)
    requires Chain(hops, ByPolicy) && k < |hops|
    ensures hops[k].received >= k
    ensures k < |hops| - 1 ==> hops[k].received < 3
    decreases k
  {
    assert k < |hops| - 1 ==> ByPolicy(hops[k]);
    if k > 0 {
      CountsClimb(hops, k - 1);
      assert hops[k - 1 + 1].received >= NextCount(hops[k - 1].received);
    }
  }

  /** A chain that follows the policy table publishes at most three retries, carrying counts 1 to 3,
      each strictly above the count it was made from. */
  lemma PolicyBoundsRetries(hops: seq<Hop>)
    requires Chain(hops, ByPolicy)
    ensures |hops| - 1 <= 3
    ensures forall i :: 0 <= i < |hops| - 1 ==> hops[i].received < NextCount(hops[i].received) <= 3
  {
    forall i | 0 <= i < |hops| - 1
      ensures hops[i].received < NextCount(hops[i].received) <= 3
    {
      CountsClimb(hops, i);
    }
    if |hops| > 1 {
      CountsClimb(hops, |hops| - 2);
    }
  }

  function Retained(n: nat): (hops: seq<Hop>)
    ensures |hops| == n
    ensures forall i :: 0 <= i < n ==> hops[i] == Hop(i % UINT32, ReportRetry)
  {
    seq(n, i => Hop(i % UINT32, ReportRetry))
  }

  /** The consumer itself has no such bound: for every n some chain publishes n retries. */
  lemma PracticeIsUnbounded(n: nat)
    ensures |Retained(n + 1)| - 1 == n && Chain(Retained(n + 1), InPractice)
  {
    var hops := Retained(n + 1);
    forall i | 0 <= i < n
      ensures InPractice(hops[i]) && hops[i + 1].received >= NextCount(hops[i].received)
    {
      assert (i + 1) % UINT32 == (i % UINT32 + 1) % UINT32;
    }
  }

  /** A chain of the consumer is one the policy allows exactly when no retried hop had exhausted its
      retries; then, and only then, the three-retry bound is the policy's. */
  lemma PracticeIsPolicyIffNeverExhausted(hops: seq<Hop>)
    requires Chain(hops, InPractice)
    ensures Chain(hops, ByPolicy) <==> forall i :: 0 <= i < |hops| - 1 ==> !Exhausted(hops[i])
    ensures |hops| - 1 > 3 ==> exists i :: 0 <= i < |hops| - 1 && Exhausted(hops[i])
  {
    forall i | 0 <= i < |hops| - 1
      ensures ByPolicy(hops[i]) <==> !Exhausted(hops[i])
    {
      assert InPractice(hops[i]);
      PracticeMeetsPolicyIff(hops[i].decision, hops[i].received, 0);
    }
    if Chain(hops, ByPolicy) {
      PolicyBoundsRetries(hops);
    }
  }
}
