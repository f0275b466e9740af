/** The three-retry bound of the policy table, for stored copies and for publications, and what becomes of it. */
module MqRetryBounds {
  import opened MqConsumer
  import opened MqProtocol
  import opened MqSafety
  import opened MqScenario
  import opened MqRetries
  import MqGuarantees
  import Policy = RetryPolicy

  /** The state a run by the rule ends in. */
  ghost function Reached(rule: Rule, steps: seq<Step>): System
    requires RuledRun(rule, START, steps)
  {
    RuledIsRun(rule, START, steps);
    After(START, steps)
  }

  lemma ReachedIsRuled(rule: Rule, steps: seq<Step>)
    requires RuledRun(rule, START, steps)
    ensures Inv(Reached(rule, steps)) && Ruled(rule, Reached(rule, steps))
  {
    MqGuarantees.StartIsFine();
    StartIsRuled(rule);
    RunRuled(rule, START, steps);
  }

  lemma NothingIsRuled(rule: Rule, s: System)
    requires s.copies == [] && s.consumer.commands == [] && forall g :: 0 <= g < |s.channels| ==> s.channels[g].sent == []
    ensures Ruled(rule, s)
  {
  }

  lemma StartIsRuled(rule: Rule)
    ensures Ruled(rule, START)
  {
    NothingIsRuled(rule, START);
  }

  // ----- stored copies -----

  lemma TableCountsUp(count: nat, carried: nat)
    requires Allowed(ByTable, ToRetry, count, carried)
    ensures carried < count <= 3
  {
  }

  /** Every copy stored for a retry carries a count from 1 to 3 strictly above that of the copy it was made from. */
  lemma RetryCopiesCountUp(steps: seq<Step>, g: nat, n: nat, c: nat)
    requires RuledRun(ByTable, START, steps)
    requires var s := Reached(ByTable, steps); RetryAt(s, g, n) && Makes(s, g, n, c)
    ensures var s := Reached(ByTable, steps);
            Source(s, g, n) < c < |s.copies| && s.copies[Source(s, g, n)].count < s.copies[c].count <= 3
  {
    ReachedIsRuled(ByTable, steps);
    CountsUp(Reached(ByTable, steps), g, n, c);
  }

  lemma CountsUp(s: System, g: nat, n: nat, c: nat)
    requires Ruled(ByTable, s) && RetryAt(s, g, n) && Makes(s, g, n, c)
    ensures Source(s, g, n) < c < |s.copies| && s.copies[Source(s, g, n)].count < s.copies[c].count <= 3
  {
    assert SentFine(ByTable, s, g, n) && MadeFine(s, g, n, c);
    TableCountsUp(s.channels[g].sent[n].count, s.copies[Source(s, g, n)].count);
  }

  ghost predicate RetryChild(s: System, parent: nat, child: nat) {
    exists g: nat, n: nat :: RetryAt(s, g, n) && Makes(s, g, n, child) && Source(s, g, n) == parent
  }

  /** Each copy of the path was stored for a retry of the one before. */
  ghost predicate Lineage(s: System, path: seq<nat>) {
    && path != [] && (forall i :: 0 <= i < |path| ==> path[i] < |s.copies|)
    && (forall i :: 0 < i < |path| ==> RetryChild(s, path[i - 1], path[i]))
  }

  /** The deliveries behind a line of copies form a chain of the policy: its links hold in every run. */
  lemma {:induction false} LineageIsChain(s: System, path: seq<nat>) returns (hops: seq<Policy.Hop>)
    requires Ruled(ByTable, s) && Lineage(s, path) && s.copies[path[0]].count < Policy.UINT32
    ensures |hops| == |path| && Policy.Chain(hops, Policy.ByPolicy) && hops[0].received >= s.copies[path[0]].count
  {
    if |path| == 1 {
      hops := [Policy.Hop(s.copies[path[0]].count, Policy.ReportAck)];
    } else {
      assert RetryChild(s, path[1 - 1], path[1]);
      var g: nat, n: nat :| RetryAt(s, g, n) && Makes(s, g, n, path[1]) && Source(s, g, n) == path[0];
      CountsUp(s, g, n, path[1]);
      assert SentFine(ByTable, s, g, n) && MadeFine(s, g, n, path[1]);
      var f := s.channels[g].sent[n];
      var decision, received: nat :|
        s.copies[path[0]].count <= received < Policy.UINT32 && Decides(ByTable, decision, received, f.kind, f.count);
      TailIsLineage(s, path);
      var rest := LineageIsChain(s, path[1..]);
      hops := [Policy.Hop(received, decision)] + rest;
      ChainCons(Policy.Hop(received, decision), rest);
    }
  }

  lemma TailIsLineage(s: System, path: seq<nat>)
    requires Lineage(s, path) && |path| > 1
    ensures Lineage(s, path[1..])
  {
    forall i | 0 < i < |path[1..]|
      ensures RetryChild(s, path[1..][i - 1], path[1..][i])
    {
      assert path[1..][i - 1] == path[i + 1 - 1] && path[1..][i] == path[i + 1];
    }
  }

  lemma ChainCons(hop: Policy.Hop, rest: seq<Policy.Hop>)
    requires Policy.Chain(rest, Policy.ByPolicy) && rest != [] && hop.received < Policy.UINT32
    requires Policy.ByPolicy(hop) && rest[0].received >= Policy.NextCount(hop.received)
    ensures Policy.Chain([hop] + rest, Policy.ByPolicy)
  {
    var hops := [hop] + rest;
    forall i | 0 <= i < |hops| - 1
      ensures Policy.ByPolicy(hops[i]) && hops[i + 1].received >= Policy.NextCount(hops[i].received)
    {
      if i > 0 {
        assert hops[i] == rest[i - 1] && hops[i + 1] == rest[i - 1 + 1];
      }
    }
  }

  /** In every run by the table a line of copies has at most three retries. */
  lemma LineageIsBounded(steps: seq<Step>, path: seq<nat>)
    requires RuledRun(ByTable, START, steps) && Lineage(Reached(ByTable, steps), path)
    ensures |path| - 1 <= 3
  {
    ReachedIsRuled(ByTable, steps);
    var s := Reached(ByTable, steps);
    if |path| > 1 {
      assert RetryChild(s, path[1 - 1], path[1]);
      var g: nat, n: nat :| RetryAt(s, g, n) && Makes(s, g, n, path[1]) && Source(s, g, n) == path[0];
      CountsUp(s, g, n, path[1]);
      var hops := LineageIsChain(s, path);
      Policy.PolicyBoundsRetries(hops);
    }
  }

  /** A copy stored in the dead-letter queue is never delivered again: it ends its line. */
  lemma DeadLettersRest(rule: Rule, steps: seq<Step>, g: nat, n: nat, c: nat)
    requires RuledRun(rule, START, steps)
    requires var s := Reached(rule, steps); Makes(s, g, n, c) && s.channels[g].sent[n].kind == ToDeadLetter
    ensures Buried(Reached(rule, steps), c)
  {
    ReachedIsRuled(rule, steps);
    assert MadeFine(Reached(rule, steps), g, n, c);
  }

  // ----- publications -----

  predicate RetryFrom(s: System, g: nat, n: nat, a: nat) { RetryAt(s, g, n) && Source(s, g, n) == a }

  /** No copy was published for a retry twice. */
  ghost predicate OncePerCopy(s: System) {
    forall g: nat, n: nat, h: nat, m: nat ::
      RetryAt(s, g, n) && RetryAt(s, h, m) && Source(s, g, n) == Source(s, h, m) ==> g == h && n == m
  }

  ghost predicate HandedOut(s: System, c: nat) { exists h: nat, t: nat :: Handed(s, h, t, c) }

  lemma MakerOfHandedOut(s: System, b: nat) returns (h: nat, m: nat)
    requires Inv(s) && Ruled(ByTable, s) && b < |s.copies| && s.copies[b].origin < b && HandedOut(s, b)
    ensures RetryAt(s, h, m) && Makes(s, h, m, b) && HandedOut(s, Source(s, h, m)) && Source(s, h, m) < b
    ensures s.copies[Source(s, h, m)].origin == s.copies[b].origin
    ensures s.copies[Source(s, h, m)].count < s.copies[b].count == s.channels[h].sent[m].count
  {
    assert HasMaker(s, b);
    h, m :| Makes(s, h, m, b);
    assert MadeFine(s, h, m, b) && SentFine(ByTable, s, h, m);
    var x: nat, t: nat :| Handed(s, x, t, b);
    assert s.channels[h].sent[m].kind != ToDeadLetter;
    CountsUp(s, h, m, b);
    assert Handed(s, h, s.channels[h].sent[m].delivery.tag, Source(s, h, m));
  }

  /** If no copy was published twice, the copies of a message form one line: whatever copy of it was delivered
      after copy a descends from the one made by a's publication. */
  lemma {:induction false} OneLine(s: System, g: nat, n: nat, b: nat)
    requires Inv(s) && Ruled(ByTable, s) && OncePerCopy(s) && RetryAt(s, g, n)
    requires Source(s, g, n) < b < |s.copies| && HandedOut(s, b)
    requires s.copies[b].origin == s.copies[Source(s, g, n)].origin
    ensures n in s.channels[g].fate && s.channels[g].fate[n].Routed? && s.channels[g].fate[n].copy <= b
    ensures s.channels[g].sent[n].count <= s.copies[b].count
    decreases b
  {
    var a := Source(s, g, n);
    assert SentFine(ByTable, s, g, n);
    assert CopyOk(s.copies, s.acked, a);
    var h, m := MakerOfHandedOut(s, b);
    var p := Source(s, h, m);
    if p > a {
      OneLine(s, g, n, p);
    } else if p < a {
      assert Handed(s, g, s.channels[g].sent[n].delivery.tag, a);
      OneLine(s, h, m, a);
      assert false;
    }
  }

  /** Then two publications of one message never carry the same count. */
  lemma CountsDiffer(s: System, g: nat, n: nat, h: nat, m: nat)
    requires Inv(s) && Ruled(ByTable, s) && OncePerCopy(s) && RetryAt(s, g, n) && RetryAt(s, h, m) && (g, n) != (h, m)
    requires Source(s, g, n) < |s.copies| && Source(s, h, m) < |s.copies|
    requires s.copies[Source(s, g, n)].origin == s.copies[Source(s, h, m)].origin
    ensures s.channels[g].sent[n].count != s.channels[h].sent[m].count
  {
    var a, b := Source(s, g, n), Source(s, h, m);
    assert SentFine(ByTable, s, g, n) && SentFine(ByTable, s, h, m);
    TableCountsUp(s.channels[g].sent[n].count, s.copies[a].count);
    TableCountsUp(s.channels[h].sent[m].count, s.copies[b].count);
    assert HandedOut(s, a) && HandedOut(s, b);
    if a < b {
      OneLine(s, g, n, b);
    } else if b < a {
      OneLine(s, h, m, a);
    }
  }

  /** The retry publications of one message, as (channel, number) pairs. */
  ghost function RetriesOf(s: System, origin: nat): set<(nat, nat)> {
    set g: nat, n: nat | 0 <= g < |s.channels| && 0 <= n < |s.channels[g].sent| && RetryAt(s, g, n) &&
                         Source(s, g, n) < |s.copies| && s.copies[Source(s, g, n)].origin == origin :: (g, n)
  }

  /** Those of them made from one copy. */
  ghost function RetriesFrom(s: System, c: nat): set<(nat, nat)> {
    set g: nat, n: nat | 0 <= g < |s.channels| && 0 <= n < |s.channels[g].sent| && RetryFrom(s, g, n, c) :: (g, n)
  }

  lemma SingleOrEmpty<T>(x: set<T>)
    requires forall a, b :: a in x && b in x ==> a == b
    ensures |x| <= 1
  {
    if x != {} {
      var a :| a in x;
      assert x == {a};
    }
  }

  function CountAt(s: System, p: (nat, nat)): nat {
    if SentAt(s, p.0, p.1) then s.channels[p.0].sent[p.1].count else 0
  }

  lemma ThreeCounts(s: System, pairs: set<(nat, nat)>)
    requires forall p <- pairs :: 1 <= CountAt(s, p) <= 3
    requires forall p, q :: p in pairs && q in pairs && CountAt(s, p) == CountAt(s, q) ==> p == q
    ensures |pairs| <= 3
  {
    var a := set p | p in pairs && CountAt(s, p) == 1;
    var b := set p | p in pairs && CountAt(s, p) == 2;
    var c := set p | p in pairs && CountAt(s, p) == 3;
    SingleOrEmpty(a);
    SingleOrEmpty(b);
    SingleOrEmpty(c);
    assert pairs == a + b + c;
  }

  lemma CountInRange(s: System, p: (nat, nat))
    requires Ruled(ByTable, s) && RetryAt(s, p.0, p.1)
    ensures 1 <= CountAt(s, p) <= 3
  {
    assert SentFine(ByTable, s, p.0, p.1);
    TableCountsUp(s.channels[p.0].sent[p.1].count, s.copies[Source(s, p.0, p.1)].count);
  }

  lemma RetryOf(s: System, origin: nat, p: (nat, nat))
    requires p in RetriesOf(s, origin)
    ensures RetryAt(s, p.0, p.1) && Source(s, p.0, p.1) < |s.copies| && s.copies[Source(s, p.0, p.1)].origin == origin
  {
  }

  /** If no copy was published twice, a message has at most three retry publications. */
  lemma OncePerCopyBounds(s: System, origin: nat)
    requires Inv(s) && Ruled(ByTable, s) && OncePerCopy(s)
    ensures |RetriesOf(s, origin)| <= 3
  {
    var pairs := RetriesOf(s, origin);
    forall p | p in pairs
      ensures 1 <= CountAt(s, p) <= 3
    {
      RetryOf(s, origin, p);
      CountInRange(s, p);
    }
    forall p, q | p in pairs && q in pairs && p != q
      ensures CountAt(s, p) != CountAt(s, q)
    {
      RetryOf(s, origin, p);
      RetryOf(s, origin, q);
      CountsDiffer(s, p.0, p.1, q.0, q.1);
    }
    ThreeCounts(s, pairs);
  }
}
