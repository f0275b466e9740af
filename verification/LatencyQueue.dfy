/**
 The latency monitor's bounded queue and its draining worker: the critical sections, the object that
 holds the fields, and every interleaving of recording, draining, reconfiguring, starting and stopping.
 */
module LatencyQueue {

  datatype Record = Record(operation: string, latencyMs: int, timestampUs: int)

  datatype Monitor = Monitor(
    enabled: bool, running: bool, queue: seq<Record>, batchSize: nat, maxQueue: nat,
    accepted: nat, dropped: nat)

  const INITIAL := Monitor(false, false, [], 1000, 10000, 0, 0)

  // ----- critical sections -----

  function Recorded(m: Monitor, r: Record): Monitor {
    if !m.enabled || !m.running then m
    else if |m.queue| >= m.maxQueue then m.(dropped := m.dropped + 1)
    else m.(queue := m.queue + [r], accepted := m.accepted + 1)
  }

  function Accepts(m: Monitor): bool { m.enabled && m.running && |m.queue| < m.maxQueue }

  function Min(a: nat, b: nat): nat { if a < b then a else b }

  function Batch(m: Monitor): seq<Record> { m.queue[..Min(m.batchSize, |m.queue|)] }

  function Drained(m: Monitor): Monitor { m.(queue := m.queue[Min(m.batchSize, |m.queue|)..]) }

  function Configured(m: Monitor, batchSize: nat, maxQueue: nat): Monitor {
    m.(batchSize := if batchSize < 1 then 1 else batchSize, maxQueue := maxQueue)
  }

  // ----- the monitor object -----

  class LatencyMonitor {
    var enabled: bool
    var running: bool
    var queue: seq<Record>
    var batchSize: nat
    var maxQueue: nat
    var accepted: nat
    var dropped: nat
    var sampleSequence: nat

    ghost function View(): Monitor
      reads this
    {
      Monitor(enabled, running, queue, batchSize, maxQueue, accepted, dropped)
    }

    constructor ()
      ensures View() == INITIAL && sampleSequence == 0
    {
      enabled, running, queue, batchSize, maxQueue := false, false, [], 1000, 10000;
      accepted, dropped, sampleSequence := 0, 0, 0;
    }

    method RecordLatency(r: Record)
      modifies this`queue, this`accepted, this`dropped
      ensures View() == Recorded(old(View()), r)
    {
      if !enabled || !running { return; }
      if |queue| >= maxQueue {
        dropped := dropped + 1;
        return;
      }
      queue := queue + [r];
      accepted := accepted + 1;
    }

    /** The worker's critical section: pops up to a batch, and says whether the worker is to end. */
    method TakeBatch() returns (batch: seq<Record>, ends: bool)
      modifies this`queue
      ensures batch == Batch(old(View())) && View() == Drained(old(View()))
      ensures ends <==> batch == [] && !running
    {
      var count := Min(batchSize, |queue|);
      batch := [];
      for i := 0 to count
        invariant batch == old(queue)[..i] && queue == old(queue)[i..]
      {
        batch := batch + [queue[0]];
        queue := queue[1..];
      }
      ends := batch == [] && !running;
    }

    method Configure(newBatchSize: nat, newMaxQueue: nat)
      modifies this`batchSize, this`maxQueue
      ensures View() == Configured(old(View()), newBatchSize, newMaxQueue)
    {
      batchSize := if newBatchSize < 1 then 1 else newBatchSize;
      maxQueue := newMaxQueue;
    }

    method ShouldSample(rate: nat) returns (sampled: bool)
      modifies this`sampleSequence
      ensures sampled == Sampled(old(sampleSequence), rate)
      ensures sampleSequence == if 0 < rate < 1000 then (old(sampleSequence) + 1) % UINT64 else old(sampleSequence)
    {
      if rate >= 1000 { return true; }
      if rate == 0 { return false; }
      sampled := sampleSequence % 1000 < rate;
      sampleSequence := (sampleSequence + 1) % UINT64;
    }
  }

  // ----- sampling -----

  const UINT64: nat := 0x1_0000_0000_0000_0000

  function Sampled(sequence: nat, rate: nat): bool {
    rate >= 1000 || (rate > 0 && sequence % 1000 < rate)
  }

  /** Of every thousand sequence numbers the first ones, as many as the rate, are sampled. */
  lemma FirstOnesAreSampled(thousand: nat, k: nat, rate: nat)
    requires k < 1000
    ensures Sampled(1000 * thousand + k, rate) <==> k < rate
  {
    assert (1000 * thousand + k) % 1000 == k;
  }

  function CountSampled(from: nat, calls: nat, rate: nat): nat {
    if calls == 0 then 0 else CountSampled(from, calls - 1, rate) + if Sampled(from + calls - 1, rate) then 1 else 0
  }

  lemma {:induction false} CountFromZero(calls: nat, rate: nat)
    requires calls <= 1000 && rate <= 1000
    ensures CountSampled(0, calls, rate) == Min(calls, rate)
  {
    if calls > 0 {
      CountFromZero(calls - 1, rate);
    }
  }

  lemma {:induction false} CountShifts(from: nat, calls: nat, rate: nat)
    ensures CountSampled(from + 1, calls, rate) + (if Sampled(from, rate) then 1 else 0)
         == CountSampled(from, calls + 1, rate)
  {
    if calls > 0 {
      CountShifts(from, calls - 1, rate);
    }
  }

  /** Any 1000 consecutive sequence numbers sample exactly `rate` calls, wherever they start. */
  lemma {:induction false} SamplesPerMille(from: nat, rate: nat)
    requires rate <= 1000
    ensures CountSampled(from, 1000, rate) == rate
  {
    if from == 0 {
      CountFromZero(1000, rate);
    } else {
      SamplesPerMille(from - 1, rate);
      CountShifts(from - 1, 1000, rate);
      assert (from + 999) % 1000 == (from - 1) % 1000;
    }
  }

  /** How many of the given number of calls are sampled when the 64-bit sequence stands at `from`. */
  function CountCalls(from: nat, calls: nat, rate: nat): nat {
    if calls == 0 then 0
    else CountCalls(from, calls - 1, rate) + if Sampled((from + calls - 1) % UINT64, rate) then 1 else 0
  }

  lemma {:induction false} CallsBeforeWrap(from: nat, calls: nat, rate: nat)
    requires from + calls <= UINT64
    ensures CountCalls(from, calls, rate) == CountSampled(from, calls, rate)
  {
    if calls > 0 {
      CallsBeforeWrap(from, calls - 1, rate);
      NoWrap(from + calls - 1);
    }
  }

  lemma NoWrap(x: nat)
    requires x < UINT64
    ensures x % UINT64 == x
  {
  }

  lemma {:induction false} CallsAcrossWrap(from: nat, before: nat, calls: nat, rate: nat)
    requires from + before == UINT64 && before <= calls < UINT64
    ensures CountCalls(from, calls, rate) == CountSampled(from, before, rate) + CountSampled(0, calls - before, rate)
    decreases calls
  {
    if calls == before {
      CallsBeforeWrap(from, before, rate);
    } else {
      CallsAcrossWrap(from, before, calls - 1, rate);
      assert (from + calls - 1) % UINT64 == calls - 1 - before;
    }
  }

  lemma {:induction false} ConstantSampling(from: nat, calls: nat, rate: nat)
    requires rate == 0 || rate == 1000
    ensures CountCalls(from, calls, rate) == if rate == 0 then 0 else calls
  {
    if calls > 0 {
      ConstantSampling(from, calls - 1, rate);
    }
  }

  lemma NextResidue(from: nat, k: nat)
    requires from % 1000 + k < 1000
    ensures (from + k) % 1000 == from % 1000 + k
  {
    var q := from / 1000;
    assert from + k == 1000 * q + (from % 1000 + k);
  }

  lemma {:induction false} SampledFrom(from: nat, calls: nat, rate: nat)
    requires from % 1000 + calls <= 1000 && 0 < rate < 1000
    ensures CountSampled(from, calls, rate) == Min(from % 1000 + calls, rate) - Min(from % 1000, rate)
  {
    if calls > 0 {
      SampledFrom(from, calls - 1, rate);
      NextResidue(from, calls - 1);
    }
  }

  /** A thousand calls across the wrap-around can sample another number: 2^64 leaves 616 modulo 1000. */
  lemma WrapMiscounts(rate: nat) returns (from: nat)
    requires 0 < rate < 1000
    ensures from < UINT64 && CountCalls(from, 1000, rate) != rate
  {
    if rate > 616 {
      from := UINT64 - 616;
      CallsAcrossWrap(from, 616, 1000, rate);
      SampledFrom(from, 616, rate);
      CountFromZero(384, rate);
    } else {
      from := UINT64 - 999;
      CallsAcrossWrap(from, 999, 1000, rate);
      SamplesPerMille(from, rate);
      assert CountSampled(from, 1000, rate) == CountSampled(from, 999, rate) + 0;
      CountFromZero(1, rate);
    }
  }

  /** A thousand consecutive calls sample exactly `rate` of them wherever the 64-bit sequence stands, exactly when
      nothing or everything is sampled; for the other rates while the sequence does not wrap around. */
  lemma CallsPerMilleIff(rate: nat)
    requires rate <= 1000
    ensures rate == 0 || rate == 1000 <==> forall from :: 0 <= from < UINT64 ==> CountCalls(from, 1000, rate) == rate
    ensures forall from :: 0 <= from <= UINT64 - 1000 ==> CountCalls(from, 1000, rate) == rate
  {
    forall from | 0 <= from <= UINT64 - 1000
      ensures CountCalls(from, 1000, rate) == rate
    {
      CallsBeforeWrap(from, 1000, rate);
      SamplesPerMille(from, rate);
    }
    if rate == 0 || rate == 1000 {
      forall from | 0 <= from < UINT64
        ensures CountCalls(from, 1000, rate) == rate
      {
        ConstantSampling(from, 1000, rate);
      }
    } else {
      var from := WrapMiscounts(rate);
    }
  }

  // ----- interleavings -----

  datatype Worker = NoWorker | Waiting | Holding(batch: seq<Record>)

  /** `starting` and `stopping` mark a start or stop call under way. The rest are histories. `written`: records
      handed to write_batch. `log`: records accepted, in order. `during`: records accepted since the start call
      under way began. `stranded`: records accepted during starts that failed, since the last that succeeded. */
  datatype System = System(
    monitor: Monitor, worker: Worker, starting: bool, stopping: bool,
    written: seq<Record>, log: seq<Record>, during: seq<Record>, stranded: seq<Record>)

  datatype Step =
    | Enable(on: bool)
    | Reconfigure(batchSize: nat, maxQueue: nat)
    | TakeRecord(record: Record)
    | StartBegins
    | ThreadStarts
    | ThreadFails
    | StopBegins
    | StopReturns
    | WorkerTakes
    | WorkerWrites

  const START := System(INITIAL, NoWorker, false, false, [], [], [], [])

  predicate Enabled(s: System, step: Step) {
    match step
    case Enable(_) => true
    case Reconfigure(_, _) => true
    case TakeRecord(_) => true
    case StartBegins => !s.starting && !s.stopping && !s.monitor.running
    case ThreadStarts => s.starting
    case ThreadFails => s.starting
    case StopBegins => !s.starting && !s.stopping
    case StopReturns => s.stopping && s.worker == NoWorker
    case WorkerTakes => s.worker == Waiting
    case WorkerWrites => s.worker.Holding?
  }

  function Apply(s: System, step: Step): System
    requires Enabled(s, step)
  {
    match step
    case Enable(on) => s.(monitor := s.monitor.(enabled := on))
    case Reconfigure(batchSize, maxQueue) => s.(monitor := Configured(s.monitor, batchSize, maxQueue))
    case TakeRecord(r) =>
      s.(monitor := Recorded(s.monitor, r), log := if Accepts(s.monitor) then s.log + [r] else s.log,
         during := if Accepts(s.monitor) && s.starting then s.during + [r] else s.during)
    case StartBegins => s.(monitor := s.monitor.(running := true), starting := true)
    case ThreadStarts => s.(worker := Waiting, starting := false, during := [], stranded := [])
    case ThreadFails =>
      s.(monitor := s.monitor.(running := false), starting := false, during := [], stranded := s.stranded + s.during)
    case StopBegins => s.(monitor := s.monitor.(running := false, enabled := false), stopping := true)
    case StopReturns => s.(stopping := false)
    case WorkerTakes =>
      var batch := Batch(s.monitor);
      s.(monitor := Drained(s.monitor),
         worker := if batch != [] then Holding(batch) else if s.monitor.running then Waiting else NoWorker)
    case WorkerWrites => s.(worker := Waiting, written := s.written + s.worker.batch)
  }

  ghost predicate IsRun(s: System, steps: seq<Step>)
    decreases |steps|
  {
    steps == [] || (Enabled(s, steps[0]) && IsRun(Apply(s, steps[0]), steps[1..]))
  }

  ghost function After(s: System, steps: seq<Step>): System
    requires IsRun(s, steps)
    decreases |steps|
  {
    if steps == [] then s else After(Apply(s, steps[0]), steps[1..])
  }

  function InHand(w: Worker): seq<Record> { if w.Holding? then w.batch else [] }

  /** Nothing lost, nothing twice, nothing out of order; a worker exists exactly while the monitor
      runs or is being stopped; without one only stranded records are queued. */
  ghost predicate Inv(s: System) {
    && s.written + InHand(s.worker) + s.monitor.queue == s.log
    && s.monitor.accepted == |s.log|
    && s.monitor.batchSize >= 1
    && !(s.starting && s.stopping)
    && (s.starting ==> s.monitor.running && s.worker == NoWorker && s.monitor.queue == s.stranded + s.during)
    && (!s.starting ==> s.during == [])
    && (s.worker == NoWorker && !s.starting ==> !s.monitor.running && s.monitor.queue == s.stranded)
    && (s.worker != NoWorker ==> s.stranded == [])
    && (s.worker != NoWorker && !s.monitor.running ==> s.stopping)
    && (s.stopping ==> !s.monitor.running)
  }

  lemma StepKeeps(s: System, step: Step)
    requires Inv(s) && Enabled(s, step)
    ensures Inv(Apply(s, step))
  {
    match step
    case TakeRecord(r) =>
      assert s.written + InHand(s.worker) + (s.monitor.queue + [r]) == s.written + InHand(s.worker) + s.monitor.queue + [r];
      assert s.stranded + s.during + [r] == s.stranded + (s.during + [r]);
    case WorkerTakes =>
      var batch, rest := Batch(s.monitor), Drained(s.monitor).queue;
      assert batch + rest == s.monitor.queue;
      assert s.written + [] + s.monitor.queue == s.written + batch + rest;
    case WorkerWrites =>
      assert s.written + s.worker.batch + [] + s.monitor.queue == s.written + s.worker.batch + s.monitor.queue;
    case StartBegins => assert s.stranded + [] == s.stranded;
    case _ =>
  }

  lemma {:induction false} RunKeeps(s: System, steps: seq<Step>)
    requires Inv(s) && IsRun(s, steps)
    ensures Inv(After(s, steps))
    decreases |steps|
  {
    if steps != [] {
      StepKeeps(s, steps[0]);
      RunKeeps(Apply(s, steps[0]), steps[1..]);
    }
  }

  /** In every run, what was written, then the batch in hand, then the queue are the accepted records,
      in order and each exactly once. */
  lemma RecordsAreConserved(steps: seq<Step>)
    requires IsRun(START, steps)
    ensures var s := After(START, steps);
            s.written + InHand(s.worker) + s.monitor.queue == s.log && s.monitor.accepted == |s.log|
  {
    RunKeeps(START, steps);
  }

  lemma {:induction false} RunSplits(s: System, steps: seq<Step>)
    requires steps != [] && IsRun(s, steps)
    ensures var n := |steps| - 1;
            && IsRun(s, steps[..n]) && Enabled(After(s, steps[..n]), steps[n])
            && After(s, steps) == Apply(After(s, steps[..n]), steps[n])
    decreases |steps|
  {
    var n := |steps| - 1;
    if n > 0 {
      RunSplits(Apply(s, steps[0]), steps[1..]);
      assert steps[..n][1..] == steps[1..][..n - 1] && steps[..n][0] == steps[0];
    } else {
      assert steps[1..] == [] && steps[..n] == [];
    }
  }

  /** Some record was accepted while the start call now under way has been running. */
  ghost predicate AcceptedDuringStart(steps: seq<Step>)
    requires IsRun(START, steps)
    decreases |steps|
  {
    steps != [] &&
    (RunSplits(START, steps);
     var before, last := steps[..|steps| - 1], steps[|steps| - 1];
     last != ThreadStarts && last != ThreadFails &&
     (AcceptedDuringStart(before) ||
      (last.TakeRecord? && After(START, before).starting && Accepts(After(START, before).monitor))))
  }

  /** Some record was accepted during a start that failed, and no start has succeeded since. */
  ghost predicate AcceptedDuringFailedStart(steps: seq<Step>)
    requires IsRun(START, steps)
    decreases |steps|
  {
    steps != [] &&
    (RunSplits(START, steps);
     var before, last := steps[..|steps| - 1], steps[|steps| - 1];
     last != ThreadStarts &&
     (AcceptedDuringFailedStart(before) || (last == ThreadFails && AcceptedDuringStart(before))))
  }

  lemma {:induction false} HistoriesAreRight(steps: seq<Step>)
    requires IsRun(START, steps)
    ensures After(START, steps).during != [] <==> AcceptedDuringStart(steps)
    ensures After(START, steps).stranded != [] <==> AcceptedDuringFailedStart(steps)
    decreases |steps|
  {
    if steps != [] {
      RunSplits(START, steps);
      HistoriesAreRight(steps[..|steps| - 1]);
    }
  }

  /** When stop returns, everything accepted has been written except the records accepted during failed starts
      that no later start has picked up; so the queue is empty exactly when there was no such record. */
  lemma StopLeavesOnlyStranded(steps: seq<Step>)
    requires IsRun(START, steps) && Enabled(After(START, steps), StopReturns)
    ensures var s := After(START, steps); s.monitor.queue == s.stranded && s.log == s.written + s.stranded
    ensures After(START, steps).monitor.queue == [] <==> !AcceptedDuringFailedStart(steps)
  {
    RunKeeps(START, steps);
    var s := After(START, steps);
    assert s.written + [] + s.monitor.queue == s.written + s.monitor.queue;
    HistoriesAreRight(steps);
  }

  /** A failed start can strand a record: stop then returns with a record still queued. */
  lemma FailedStartStrands(r: Record)
    ensures var steps := [Enable(true), StartBegins, TakeRecord(r), ThreadFails, StopBegins];
            IsRun(START, steps) && Enabled(After(START, steps), StopReturns) &&
            After(START, steps).monitor.queue == [r]
  {
    var s1 := Apply(START, Enable(true));
    var s2 := Apply(s1, StartBegins);
    var s3 := Apply(s2, TakeRecord(r));
    var s4 := Apply(s3, ThreadFails);
    var s5 := Apply(s4, StopBegins);
    var t4 := [StopBegins];
    var t3 := [ThreadFails] + t4;
    var t2 := [TakeRecord(r)] + t3;
    var t1 := [StartBegins] + t2;
    var t0 := [Enable(true)] + t1;
    assert t4[1..] == [] && t3[1..] == t4 && t2[1..] == t3 && t1[1..] == t2 && t0[1..] == t1;
    assert IsRun(s5, []) && After(s5, []) == s5;
    assert IsRun(s4, t4) && After(s4, t4) == s5;
    assert IsRun(s3, t3) && After(s3, t3) == s5;
    assert IsRun(s2, t2) && After(s2, t2) == s5;
    assert IsRun(s1, t1) && After(s1, t1) == s5;
    assert IsRun(START, t0) && After(START, t0) == s5;
    assert t0 == [Enable(true), StartBegins, TakeRecord(r), ThreadFails, StopBegins];
  }

  // ----- what every step achieves -----

  /** In every state a record is queued exactly while the monitor is enabled and running with room in its queue, and
      counted as dropped exactly when only the room is missing. */
  lemma RecordIsTakenIff(s: System, r: Record)
    ensures var s' := Apply(s, TakeRecord(r));
            var on, room := s.monitor.enabled && s.monitor.running, |s.monitor.queue| < s.monitor.maxQueue;
            && s'.monitor.queue == (if on && room then s.monitor.queue + [r] else s.monitor.queue)
            && s'.log == (if on && room then s.log + [r] else s.log)
            && s'.monitor.dropped == s.monitor.dropped + (if on && !room then 1 else 0)
  {
  }

  /** The records offered in a run while the monitor was enabled and running. */
  ghost function Offered(s: System, steps: seq<Step>): nat
    requires IsRun(s, steps)
    decreases |steps|
  {
    if steps == [] then 0
    else
      Offered(Apply(s, steps[0]), steps[1..]) +
      if steps[0].TakeRecord? && s.monitor.enabled && s.monitor.running then 1 else 0
  }

  lemma {:induction false} OfferedFrom(s: System, steps: seq<Step>)
    requires IsRun(s, steps)
    ensures var t := After(s, steps);
            t.monitor.accepted + t.monitor.dropped == s.monitor.accepted + s.monitor.dropped + Offered(s, steps)
    decreases |steps|
  {
    if steps != [] {
      OfferedFrom(Apply(s, steps[0]), steps[1..]);
    }
  }

  /** In every run each record offered is either among the accepted ones or counted as dropped. */
  lemma OfferedAreCounted(steps: seq<Step>)
    requires IsRun(START, steps)
    ensures |After(START, steps).log| + After(START, steps).monitor.dropped == Offered(START, steps)
  {
    OfferedFrom(START, steps);
    RecordsAreConserved(steps);
  }

  lemma {:induction false} QueueBoundedFrom(s: System, steps: seq<Step>, limit: nat)
    requires IsRun(s, steps) && |s.monitor.queue| <= limit && s.monitor.maxQueue <= limit
    requires forall step <- steps :: step.Reconfigure? ==> step.maxQueue <= limit
    ensures |After(s, steps).monitor.queue| <= limit
    decreases |steps|
  {
    if steps != [] {
      assert steps[0] in steps;
      assert forall step <- steps[1..] :: step in steps;
      QueueBoundedFrom(Apply(s, steps[0]), steps[1..], limit);
    }
  }

  /** In every run the queue stays within the largest limit that was in force. */
  lemma QueueStaysBounded(steps: seq<Step>, limit: nat)
    requires IsRun(START, steps) && limit >= 10000
    requires forall step <- steps :: step.Reconfigure? ==> step.maxQueue <= limit
    ensures |After(START, steps).monitor.queue| <= limit
  {
    QueueBoundedFrom(START, steps, limit);
  }

  /** The worker takes the oldest records, as many as the configured batch or all there are, and ends exactly when
      there are none and the monitor was stopped. */
  lemma WorkerTakesOldest(s: System, batchSize: nat, maxQueue: nat)
    requires Inv(s) && s.worker == Waiting
    ensures var t := Apply(Apply(s, Reconfigure(batchSize, maxQueue)), WorkerTakes);
            var n, size := |s.monitor.queue|, if batchSize == 0 then 1 else batchSize;
            && InHand(t.worker) + t.monitor.queue == s.monitor.queue
            && |InHand(t.worker)| == (if n < size then n else size)
            && (t.worker == NoWorker <==> n == 0 && !s.monitor.running)
            && (t.worker == Waiting <==> n == 0 && s.monitor.running)
            && t.monitor.maxQueue == maxQueue
  {
    var m := Configured(s.monitor, batchSize, maxQueue);
    var k := Min(m.batchSize, |m.queue|);
    assert m.queue[..k] + m.queue[k..] == m.queue;
  }

  /** The worker's turns: a batch taken and written, n times, and a last look at the queue. */
  function Turns(n: nat): (steps: seq<Step>)
  {
    if n == 0 then [WorkerTakes] else [WorkerTakes] + ([WorkerWrites] + Turns(n - 1))
  }

  function Rounds(records: nat, batchSize: nat): nat
    requires batchSize > 0
  {
    (records + batchSize - 1) / batchSize
  }

  lemma RoundsStep(records: nat, batchSize: nat)
    requires batchSize > 0 && records > 0
    ensures Rounds(records, batchSize) > 0
    ensures Rounds(records, batchSize) == 1 + Rounds(if records < batchSize then 0 else records - batchSize, batchSize)
  {
    if records < batchSize {
      Quotient(records + batchSize - 1, batchSize, 1);
      Quotient(batchSize - 1, batchSize, 0);
    } else {
      var q := (records - 1) / batchSize;
      assert (records - 1) % batchSize < batchSize;
      Quotient(records - 1, batchSize, q);
      assert records + batchSize - 1 == (q + 1) * batchSize + (records - 1) % batchSize;
      Quotient(records + batchSize - 1, batchSize, q + 1);
    }
  }

  lemma Quotient(x: nat, d: nat, q: nat)
    requires d > 0 && q * d <= x < (q + 1) * d
    ensures x / d == q
  {
    var p := x / d;
    assert p * d <= x < (p + 1) * d;
    if p < q {
      Times(p + 1, q, d);
    } else if q < p {
      Times(q + 1, p, d);
    }
  }

  lemma Times(a: nat, b: nat, d: nat)
    requires a <= b
    ensures a * d <= b * d
  {
  }

  lemma OneTurn(s: System)
    requires Inv(s) && s.worker == Waiting && s.monitor.queue != []
    ensures var t := Apply(Apply(s, WorkerTakes), WorkerWrites);
            && Apply(s, WorkerTakes).worker.Holding? && Inv(t) && t.worker == Waiting
            && t.monitor.running == s.monitor.running && t.monitor.batchSize == s.monitor.batchSize
            && t.written + t.monitor.queue == s.written + s.monitor.queue
            && |t.monitor.queue| == if |s.monitor.queue| < s.monitor.batchSize then 0 else |s.monitor.queue| - s.monitor.batchSize
  {
    StepKeeps(s, WorkerTakes);
    StepKeeps(Apply(s, WorkerTakes), WorkerWrites);
    var k := Min(s.monitor.batchSize, |s.monitor.queue|);
    assert s.written + s.monitor.queue[..k] + s.monitor.queue[k..] == s.written + s.monitor.queue;
  }

  /** Stopping ends: as many turns as there are batches in the queue write all of it, and the worker is gone. */
  lemma {:induction false} StopDrains(s: System)
    requires Inv(s) && s.worker == Waiting && !s.monitor.running
    ensures var steps := Turns(Rounds(|s.monitor.queue|, s.monitor.batchSize));
            && IsRun(s, steps) && After(s, steps).worker == NoWorker
            && After(s, steps).monitor.queue == [] && After(s, steps).written == s.written + s.monitor.queue
    decreases |s.monitor.queue|
  {
    var b := s.monitor.batchSize;
    if s.monitor.queue == [] {
      Quotient(b - 1, b, 0);
      assert [WorkerTakes][1..] == [];
      assert s.written + [] == s.written;
      StepKeeps(s, WorkerTakes);
    } else {
      var s1 := Apply(s, WorkerTakes);
      var t := Apply(s1, WorkerWrites);
      RoundsStep(|s.monitor.queue|, b);
      OneTurn(s);
      StopDrains(t);
      var rest := Turns(Rounds(|t.monitor.queue|, b));
      assert ([WorkerWrites] + rest)[1..] == rest && ([WorkerTakes] + ([WorkerWrites] + rest))[1..] == [WorkerWrites] + rest;
      assert IsRun(s1, [WorkerWrites] + rest) && After(s1, [WorkerWrites] + rest) == After(t, rest);
    }
  }

  lemma {:induction false} NothingUntilEnabled(s: System, later: seq<Step>)
    requires IsRun(s, later) && !s.monitor.enabled && Enable(true) !in later
    ensures After(s, later).log == s.log
    decreases |later|
  {
    if later != [] {
      assert later[0] != Enable(true);
      NothingUntilEnabled(Apply(s, later[0]), later[1..]);
    }
  }

  /** After a stop nothing is accepted, in whatever run follows, until the monitor is enabled again. */
  lemma StopRefusesRecords(steps: seq<Step>, later: seq<Step>)
    requires IsRun(START, steps) && Enabled(After(START, steps), StopBegins)
    requires IsRun(Apply(After(START, steps), StopBegins), later) && Enable(true) !in later
    ensures After(Apply(After(START, steps), StopBegins), later).log == After(START, steps).log
  {
    NothingUntilEnabled(Apply(After(START, steps), StopBegins), later);
  }
}
