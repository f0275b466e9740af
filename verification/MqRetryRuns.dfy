/** Runs that reach the limits: publications under refusals, and the judge consumer's endless line of retries. */
module MqRetryRuns {
  import opened MqConsumer
  import opened MqProtocol
  import opened MqSafety
  import opened MqScenario
  import opened MqRetries
  import opened MqRetryBounds
  import Policy = RetryPolicy

  // ----- composing runs -----

  ghost predicate GoesTo(rule: Rule, s: System, steps: seq<Step>, t: System)
    decreases |steps|
  {
    if steps == [] then s == t
    else Enabled(s, steps[0]) && Follows(rule, s, steps[0]) && GoesTo(rule, Apply(s, steps[0]), steps[1..], t)
  }

  lemma {:induction false} GoesToIsRun(rule: Rule, s: System, steps: seq<Step>, t: System)
    requires GoesTo(rule, s, steps, t)
    ensures RuledRun(rule, s, steps) && IsRun(s, steps) && After(s, steps) == t
    decreases |steps|
  {
    if steps != [] {
      GoesToIsRun(rule, Apply(s, steps[0]), steps[1..], t);
    }
  }

  lemma Before(rule: Rule, s: System, step: Step, t: System, rest: seq<Step>, u: System)
    requires Leads(s, step, t) && Follows(rule, s, step) && GoesTo(rule, t, rest, u)
    ensures GoesTo(rule, s, [step] + rest, u)
  {
    assert ([step] + rest)[1..] == rest;
  }

  lemma {:induction false} Joined(rule: Rule, s: System, a: seq<Step>, t: System, b: seq<Step>, u: System)
    requires GoesTo(rule, s, a, t) && GoesTo(rule, t, b, u)
    ensures GoesTo(rule, s, a + b, u)
    decreases |a|
  {
    if a == [] {
      assert a + b == b;
    } else {
      Joined(rule, Apply(s, a[0]), a[1..], t, b, u);
      assert (a + b)[1..] == a[1..] + b && (a + b)[0] == a[0];
    }
  }

  // ----- rounds -----

  lemma AskFollows(rule: Rule, y: Story, c: nat, count: nat)
    requires Waits(y, c) && Allowed(rule, ToRetry, count, y.copies[c].count)
    ensures Follows(rule, Told(Delivering(y, c, WithApplication), map[], [], {Context(y)}, {}, {}), Resolve(Call(y, c, count)))
  {
    var s := Told(Delivering(y, c, WithApplication), map[], [], {Context(y)}, {}, {});
    assert CopyOf(s, Context(y)) == c && s.copies[c].count == y.copies[c].count;
  }

  /** From the queue to the publication. */
  lemma Ask(rule: Rule, y: Story, c: nat, count: nat, rest: seq<Step>, u: System) returns (steps: seq<Step>)
    requires Waits(y, c) && Allowed(rule, ToRetry, count, y.copies[c].count)
    requires var f := Published(y, c, count);
             GoesTo(rule, Told(Forwarding(y, c, count), map[|y.sent| := f], [], {}, {PublishFrame(|y.sent|, f)}, {}), rest, u)
    ensures GoesTo(rule, Calm(y), steps, u)
  {
    var f, n, e := Published(y, c, count), |y.sent|, Delivered(|y.deliveries|);
    var s1 := Told(Delivering(y, c, OnTheWay), map[], [], {}, {}, {e});
    var s2 := Told(Delivering(y, c, WithApplication), map[], [], {Context(y)}, {}, {});
    var s3 := Told(Delivering(y, c, Queued), map[], [Call(y, c, count)], {}, {}, {});
    var s4 := Told(Forwarding(y, c, count), map[n := f], [], {}, {PublishFrame(n, f)}, {});
    PublishLeads(y, c, count);
    Before(rule, s3, RunCommand, s4, rest, u);
    ResolveLeads(y, c, count);
    AskFollows(rule, y, c, count);
    Before(rule, s2, Resolve(Call(y, c, count)), s3, [RunCommand] + rest, u);
    ArriveLeads(y, c);
    Before(rule, s1, Receive(e), s2, [Resolve(Call(y, c, count))] + ([RunCommand] + rest), u);
    DeliverLeads(y, c);
    steps := [Receive(e)] + ([Resolve(Call(y, c, count))] + ([RunCommand] + rest));
    Before(rule, Calm(y), Deliver(1, c), s1, steps, u);
    steps := [Deliver(1, c)] + steps;
  }

  lemma RefusedRound(rule: Rule, y: Story, c: nat, count: nat) returns (steps: seq<Step>)
    requires Waits(y, c) && Allowed(rule, ToRetry, count, y.copies[c].count)
    ensures GoesTo(rule, Calm(y), steps, Calm(Refusing(y, c, count)))
  {
    var f, n, u := Published(y, c, count), |y.sent|, Calm(Refusing(y, c, count));
    var frame := RequeueFrame(|y.deliveries|);
    var z := Forwarding(y, c, count);
    var r := z.(fate := y.fate[n := Refused]);
    var s4 := Told(z, map[n := f], [], {}, {PublishFrame(n, f)}, {});
    var s5 := Told(r, map[n := f], [], {}, {}, {});
    var s6 := Told(r, map[n := f], [], {}, {}, {NackedEvent(n)});
    var s7 := Told(r.(settles := y.settles + [|y.deliveries|]), map[], [], {}, {frame}, {});
    BackLeads(y, c, count);
    Before(rule, s7, TakeSettle(1, frame), u, [], u);
    RequeueLeads(y, c, count);
    steps := [TakeSettle(1, frame)] + [];
    Before(rule, s6, Receive(NackedEvent(n)), s7, steps, u);
    NackLeads(y, c, count);
    steps := [Receive(NackedEvent(n))] + steps;
    Before(rule, s5, EmitNack(1, n), s6, steps, u);
    RefuseLeads(y, c, count);
    steps := [EmitNack(1, n)] + steps;
    Before(rule, s4, TakePublish(1, PublishFrame(n, f), Refused), s5, steps, u);
    steps := [TakePublish(1, PublishFrame(n, f), Refused)] + steps;
    steps := Ask(rule, y, c, count, steps, u);
  }

  lemma StoredRound(rule: Rule, y: Story, c: nat, count: nat) returns (steps: seq<Step>)
    requires Waits(y, c) && Allowed(rule, ToRetry, count, y.copies[c].count)
    ensures GoesTo(rule, Calm(y), steps, Calm(Storing(y, c, count)))
  {
    var f, n, u := Published(y, c, count), |y.sent|, Calm(Storing(y, c, count));
    var frame := AckFrame(|y.deliveries|);
    var z := Stored(y, c, count, true);
    var s4 := Told(Forwarding(y, c, count), map[n := f], [], {}, {PublishFrame(n, f)}, {});
    var s5 := Told(Stored(y, c, count, false), map[n := f], [], {}, {}, {});
    var s6 := Told(z, map[n := f], [], {}, {}, {ConfirmedEvent(n)});
    var s7 := Told(z.(settles := y.settles + [|y.deliveries|]), map[], [], {}, {frame}, {});
    SettleLeads(y, c, count);
    Before(rule, s7, TakeSettle(1, frame), u, [], u);
    AckLeads(y, c, count);
    steps := [TakeSettle(1, frame)] + [];
    Before(rule, s6, Receive(ConfirmedEvent(n)), s7, steps, u);
    ConfirmLeads(y, c, count);
    steps := [Receive(ConfirmedEvent(n))] + steps;
    Before(rule, s5, EmitConfirm(1, n), s6, steps, u);
    StoreLeads(y, c, count);
    steps := [EmitConfirm(1, n)] + steps;
    Before(rule, s4, TakePublish(1, PublishFrame(n, f), Routed(|y.copies|)), s5, steps, u);
    steps := [TakePublish(1, PublishFrame(n, f), Routed(|y.copies|))] + steps;
    steps := Ask(rule, y, c, count, steps, u);
  }

  lemma Begin(rule: Rule, body: string) returns (steps: seq<Step>)
    ensures GoesTo(rule, START, steps, Calm(Beginning(body)))
  {
    OpeningLeads(body);
    var u := Calm(Beginning(body));
    Before(rule, Opening(body, 2), Ready(1), u, [], u);
    Before(rule, Opening(body, 1), Start, Opening(body, 2), [Ready(1)] + [], u);
    Before(rule, START, Produce(body), Opening(body, 1), [Start] + ([Ready(1)] + []), u);
    steps := [Produce(body)] + ([Start] + ([Ready(1)] + []));
  }

  lemma TableAllows(received: nat)
    requires received < 3
    ensures Allowed(ByTable, ToRetry, received + 1, received)
  {
    assert Decides(ByTable, Policy.ReportRetry, received, ToRetry, received + 1);
  }

  /** A message can be delivered, retried, confirmed and settled: its original is gone, and a confirmed copy with
      the same body and one more try waits in the retry queue. */
  lemma RetryCanComplete(body: string) returns (steps: seq<Step>)
    ensures RuledRun(ByTable, START, steps)
    ensures var s := Reached(ByTable, steps);
            && s.copies == [Copy(0, body, 0, Settled, true), Copy(0, body, 1, RetryQueue, true)]
            && s.acked == {} && s.todo == {}
  {
    steps := Begin(ByTable, body);
    TableAllows(0);
    var round := StoredRound(ByTable, Beginning(body), 0, 1);
    Joined(ByTable, START, steps, Calm(Beginning(body)), round, Calm(Storing(Beginning(body), 0, 1)));
    steps := steps + round;
    GoesToIsRun(ByTable, START, steps, Calm(Storing(Beginning(body), 0, 1)));
  }

  // ----- counting publications in a story -----

  /** Publication i was made from delivery i, all of them for retries of copies of message 0. */
  ghost predicate Tidy(y: Story) {
    && |y.sent| == |y.deliveries| == |y.phases|
    && (forall i :: 0 <= i < |y.sent| ==> y.sent[i].kind == ToRetry && y.sent[i].delivery.tag == i)
    && (forall i :: 0 <= i < |y.deliveries| ==> y.deliveries[i] < |y.copies|)
    && (forall c :: 0 <= c < |y.copies| ==> y.copies[c].origin == 0)
    && (forall n <- y.fate :: n < |y.sent|)
  }

  lemma RefusingIsTidy(y: Story, c: nat, count: nat)
    requires Tidy(y) && Waits(y, c)
    ensures Tidy(Refusing(y, c, count)) && Waits(Refusing(y, c, count), c)
  {
  }

  lemma StoringIsTidy(y: Story, c: nat, count: nat)
    requires Tidy(y) && Waits(y, c)
    ensures Tidy(Storing(y, c, count))
  {
  }

  lemma TidySource(y: Story, i: nat)
    requires Tidy(y) && i < |y.sent|
    ensures RetryAt(Calm(y), 1, i) && Source(Calm(y), 1, i) == y.deliveries[i]
  {
  }

  ghost function Upto(n: nat): set<(nat, nat)> {
    set i: nat | 0 <= i < n :: (1, i)
  }

  lemma {:induction false} UptoSize(n: nat)
    ensures |Upto(n)| == n
  {
    if n > 0 {
      UptoSize(n - 1);
      assert Upto(n) == Upto(n - 1) + {(1, n - 1)};
    } else {
      assert Upto(0) == {};
    }
  }

  lemma AllAreRetries(y: Story)
    requires Tidy(y)
    ensures RetriesOf(Calm(y), 0) == Upto(|y.sent|) && |RetriesOf(Calm(y), 0)| == |y.sent|
  {
    UptoSize(|y.sent|);
    forall p | p in Upto(|y.sent|)
      ensures p in RetriesOf(Calm(y), 0)
    {
      TidySource(y, p.1);
    }
    assert RetriesOf(Calm(y), 0) == Upto(|y.sent|);
  }

  // ----- publications are not bounded -----

  function RefusedTimes(body: string, k: nat): (y: Story)
    ensures |y.copies| > 0
  {
    if k == 0 then Beginning(body) else Refusing(RefusedTimes(body, k - 1), 0, 1)
  }

  lemma {:induction false} RefusedTimesReached(body: string, k: nat) returns (steps: seq<Step>)
    ensures GoesTo(ByTable, START, steps, Calm(RefusedTimes(body, k)))
    ensures var y := RefusedTimes(body, k); Tidy(y) && Waits(y, 0) && |y.sent| == k && y.copies == Beginning(body).copies
  {
    if k == 0 {
      steps := Begin(ByTable, body);
    } else {
      steps := RefusedTimesReached(body, k - 1);
      var y := RefusedTimes(body, k - 1);
      TableAllows(0);
      var round := RefusedRound(ByTable, y, 0, 1);
      Joined(ByTable, START, steps, Calm(y), round, Calm(Refusing(y, 0, 1)));
      steps := steps + round;
      RefusingIsTidy(y, 0, 1);
    }
  }

  /** Under refusals a message is published for a retry any number of times, although the table is followed and no
      copy is ever stored. */
  lemma PublicationsAreUnbounded(body: string, k: nat) returns (steps: seq<Step>)
    ensures RuledRun(ByTable, START, steps)
    ensures |RetriesOf(Reached(ByTable, steps), 0)| == k && |Reached(ByTable, steps).copies| == 1
  {
    steps := RefusedTimesReached(body, k);
    GoesToIsRun(ByTable, START, steps, Calm(RefusedTimes(body, k)));
    AllAreRetries(RefusedTimes(body, k));
  }

  // ----- exactly when they are -----

  /** No copy is published for a retry more than `limit` times. */
  ghost predicate AtMost(s: System, limit: nat) { forall c: nat :: |RetriesFrom(s, c)| <= limit }

  lemma TwoElements<T>(x: set<T>, a: T, b: T)
    requires a in x && b in x && a != b
    ensures |x| >= 2
  {
    assert {a, b} <= x;
    assert |x - {a, b}| == |x| - |{a, b}|;
  }

  lemma AtMostOnce(s: System)
    requires AtMost(s, 1)
    ensures OncePerCopy(s)
  {
    forall g: nat, n: nat, h: nat, m: nat |
      RetryAt(s, g, n) && RetryAt(s, h, m) && Source(s, g, n) == Source(s, h, m)
      ensures g == h && n == m
    {
      var c := Source(s, g, n);
      assert (g, n) in RetriesFrom(s, c) && (h, m) in RetriesFrom(s, c);
      if (g, n) != (h, m) {
        TwoElements(RetriesFrom(s, c), (g, n), (h, m));
      }
    }
  }

  /** Two publications from the message, one refused and one stored; the same again from the stored copy. */
  function FourTimes(body: string): Story {
    var y1 := Refusing(Beginning(body), 0, 1);
    var y2 := Storing(y1, 0, 1);
    var y3 := y2.(copies := Move(y2.copies, 1, MainQueue));
    Refusing(Refusing(y3, 1, 2), 1, 2)
  }

  lemma Then(rule: Rule, a: seq<Step>, t: System, b: seq<Step>, u: System) returns (steps: seq<Step>)
    requires GoesTo(rule, START, a, t) && GoesTo(rule, t, b, u)
    ensures GoesTo(rule, START, steps, u)
  {
    Joined(rule, START, a, t, b, u);
    steps := a + b;
  }

  lemma FirstHalfReached(body: string) returns (steps: seq<Step>)
    ensures var y := Storing(Refusing(Beginning(body), 0, 1), 0, 1);
            GoesTo(ByTable, START, steps, Calm(y)) && Tidy(y) && y.deliveries == [0, 0]
  {
    var y0 := Beginning(body);
    var y1 := Refusing(y0, 0, 1);
    TableAllows(0);
    steps := Begin(ByTable, body);
    RefusingIsTidy(y0, 0, 1);
    var round := RefusedRound(ByTable, y0, 0, 1);
    steps := Then(ByTable, steps, Calm(y0), round, Calm(y1));
    StoringIsTidy(y1, 0, 1);
    round := StoredRound(ByTable, y1, 0, 1);
    steps := Then(ByTable, steps, Calm(y1), round, Calm(Storing(y1, 0, 1)));
  }

  lemma Expired(rule: Rule, y: Story, k: nat)
    requires k < |y.copies| && y.copies[k].place == RetryQueue
    ensures GoesTo(rule, Calm(y), [Expire(k)], Calm(y.(copies := Move(y.copies, k, MainQueue))))
  {
    var t := Calm(y.(copies := Move(y.copies, k, MainQueue)));
    ExpireLeads(y, k);
    Before(rule, Calm(y), Expire(k), t, [], t);
    assert [Expire(k)] + [] == [Expire(k)];
  }

  lemma FourTimesReached(body: string) returns (steps: seq<Step>)
    ensures GoesTo(ByTable, START, steps, Calm(FourTimes(body)))
    ensures Tidy(FourTimes(body)) && FourTimes(body).deliveries == [0, 0, 1, 1]
  {
    var y2 := Storing(Refusing(Beginning(body), 0, 1), 0, 1);
    var y3 := y2.(copies := Move(y2.copies, 1, MainQueue));
    var y4 := Refusing(y3, 1, 2);
    steps := FirstHalfReached(body);
    Expired(ByTable, y2, 1);
    steps := Then(ByTable, steps, Calm(y2), [Expire(1)], Calm(y3));
    assert Tidy(y3) && Waits(y3, 1);
    TableAllows(1);
    RefusingIsTidy(y3, 1, 2);
    var round := RefusedRound(ByTable, y3, 1, 2);
    steps := Then(ByTable, steps, Calm(y3), round, Calm(y4));
    RefusingIsTidy(y4, 1, 2);
    round := RefusedRound(ByTable, y4, 1, 2);
    steps := Then(ByTable, steps, Calm(y4), round, Calm(FourTimes(body)));
  }

  lemma TwicePerCopy(y: Story)
    requires Tidy(y) && y.deliveries == [0, 0, 1, 1]
    ensures AtMost(Calm(y), 2)
  {
    forall c: nat
      ensures |RetriesFrom(Calm(y), c)| <= 2
    {
      var x := RetriesFrom(Calm(y), c);
      TidySource(y, 0);
      TidySource(y, 1);
      TidySource(y, 2);
      TidySource(y, 3);
      var bound: set<(nat, nat)> := if c == 0 then {(1, 0), (1, 1)} else {(1, 2), (1, 3)};
      assert x <= bound;
      Subset(x, bound);
    }
  }

  lemma Subset<T>(x: set<T>, y: set<T>)
    requires x <= y
    ensures |x| <= |y|
  {
    assert |y - x| == |y| - |x|;
  }

  /** Within the limit on publications per copy, every message has at most three. */
  ghost predicate ThreeSuffice(limit: nat) {
    forall steps, origin: nat :: RuledRun(ByTable, START, steps) && AtMost(Reached(ByTable, steps), limit) ==>
      |RetriesOf(Reached(ByTable, steps), origin)| <= 3
  }

  /** Following the table keeps every message to three retry publications in all runs that publish no copy more than
      `limit` times, exactly when that limit is one: the bound on publications fails only through copies that were
      delivered and published again. */
  lemma PublicationsAreBoundedIff(limit: nat)
    ensures ThreeSuffice(limit) <==> limit <= 1
  {
    if limit <= 1 {
      forall steps, origin: nat | RuledRun(ByTable, START, steps) && AtMost(Reached(ByTable, steps), limit)
        ensures |RetriesOf(Reached(ByTable, steps), origin)| <= 3
      {
        ReachedIsRuled(ByTable, steps);
        AtMostOnce(Reached(ByTable, steps));
        OncePerCopyBounds(Reached(ByTable, steps), origin);
      }
    } else {
      var y := FourTimes("");
      var steps := FourTimesReached("");
      GoesToIsRun(ByTable, START, steps, Calm(y));
      TwicePerCopy(y);
      AllAreRetries(y);
      assert AtMost(Reached(ByTable, steps), limit) && |RetriesOf(Reached(ByTable, steps), 0)| == 4;
    }
  }

  // ----- the judge consumer -----

  lemma ConsumerAllows(received: nat)
    requires received < Policy.UINT32
    ensures Allowed(ByConsumer, ToRetry, Policy.NextCount(received), received)
  {
    assert Decides(ByConsumer, Policy.ReportRetry, received, ToRetry, Policy.NextCount(received));
  }

  /** The last copy of the line waits in the main queue, each made from the one before it. */
  ghost predicate Line(y: Story, n: nat) {
    && Tidy(y) && |y.copies| == n + 1 && |y.sent| == n && y.copies[n].place == MainQueue && y.copies[n].count < Policy.UINT32
    && (forall i :: 0 <= i < n ==> y.deliveries[i] == i && i in y.fate && y.fate[i] == Routed(i + 1))
  }

  lemma LineGrows(y: Story, n: nat, count: nat)
    requires Line(y, n) && count < Policy.UINT32
    ensures var z := Storing(y, n, count);
            && |z.copies| == n + 2 && z.copies[n + 1].place == RetryQueue
            && Line(z.(copies := Move(z.copies, n + 1, MainQueue)), n + 1)
  {
    StoringIsTidy(y, n, count);
  }

  lemma {:induction false} LineReached(body: string, n: nat) returns (y: Story, steps: seq<Step>)
    ensures GoesTo(ByConsumer, START, steps, Calm(y)) && Line(y, n)
  {
    if n == 0 {
      y := Beginning(body);
      steps := Begin(ByConsumer, body);
    } else {
      var before: Story;
      before, steps := LineReached(body, n - 1);
      var count := Policy.NextCount(before.copies[n - 1].count);
      ConsumerAllows(before.copies[n - 1].count);
      var z := Storing(before, n - 1, count);
      LineGrows(before, n - 1, count);
      var round := StoredRound(ByConsumer, before, n - 1, count);
      steps := Then(ByConsumer, steps, Calm(before), round, Calm(z));
      Expired(ByConsumer, z, n);
      y := z.(copies := Move(z.copies, n, MainQueue));
      steps := Then(ByConsumer, steps, Calm(z), [Expire(n)], Calm(y));
    }
  }

  function Numbers(n: nat): (path: seq<nat>)
    ensures |path| == n && forall i :: 0 <= i < n ==> path[i] == i
  {
    seq(n, i => i)
  }

  lemma LineIsLineage(y: Story, n: nat)
    requires Line(y, n)
    ensures Lineage(Calm(y), Numbers(n + 1))
  {
    var s, path := Calm(y), Numbers(n + 1);
    forall i | 0 < i < |path|
      ensures RetryChild(s, path[i - 1], path[i])
    {
      TidySource(y, i - 1);
      assert Makes(s, 1, i - 1, i);
    }
  }

  /** The judge consumer itself has no bound: for every n it has a run that stores a line of n retries. */
  lemma ConsumerIsUnbounded(body: string, n: nat) returns (steps: seq<Step>, path: seq<nat>)
    ensures RuledRun(ByConsumer, START, steps) && Lineage(Reached(ByConsumer, steps), path) && |path| - 1 == n
  {
    var y: Story;
    y, steps := LineReached(body, n);
    GoesToIsRun(ByConsumer, START, steps, Calm(y));
    LineIsLineage(y, n);
    path := Numbers(n + 1);
  }
}
