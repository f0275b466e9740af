/**
 Any number of threads checking connections out and in, a sweeping thread, and repeated shutdown
 and initialisation, interleaved at the granularity of the pool's critical sections.

 A ticket is a GetDatabase call under way; a slot is a ScopedDB object that owns a connection.
 */
module PoolProtocol {
  import opened ConnectionPool

  /** Where a GetDatabase call stands outside the lock; since is the epoch in which it made its reservation. */
  datatype Stage =
    | Creating(since: nat)
    | Checking(since: nat, connection: Connection)
    | Finishing(since: nat, connection: Connection)
    | Releasing(since: nat)

  datatype System = System(
    pool: State, epoch: nat, clock: nat, nextId: nat, stopping: bool,
    tickets: map<nat, Stage>, slots: map<nat, Connection>)

  datatype Step =
    | Tick(duration: nat)
    | Initialize(config: Config, created: seq<IdleEntry>, threadStarts: bool)
    | Get(ticket: nat)
    | Create(ticket: nat, ok: bool)
    | Check(ticket: nat, ok: bool)
    | Finish(ticket: nat)
    | Release(ticket: nat)
    | Return(slot: nat)
    | MoveSlot(from: nat, to: nat)
    | SweepIdle
    | Stop
    | Stopped

  const START := System(State(Config(5, 50, 300), false, 0, []), 0, 0, 0, false, map[], map[])

  /** The connections an initialisation creates: numbered on, of the new epoch, one after the other. */
  ghost predicate Fresh(created: seq<IdleEntry>, firstId: nat, epoch: nat, clock: nat) {
    && (forall i :: 0 <= i < |created| ==> created[i].connection == Connection(firstId + i, epoch))
    && InOrder(created, LastSince(clock, created)) && (created != [] ==> clock <= created[0].since)
  }

  function LastSince(clock: nat, created: seq<IdleEntry>): nat {
    if created == [] then clock else created[|created| - 1].since
  }

  /** The entries were put back in the order they stand in, none later than the clock. */
  ghost predicate InOrder(idle: seq<IdleEntry>, clock: nat) {
    idle == [] ||
    (idle[|idle| - 1].since <= clock && InOrder(idle[..|idle| - 1], idle[|idle| - 1].since))
  }

  ghost predicate Enabled(s: System, step: Step) {
    match step
    case Tick(_) => true
    case Initialize(config, created, _) =>
      !s.stopping && |created| <= config.minConnections && Fresh(created, s.nextId, s.epoch + 1, s.clock)
    case Get(t) => CanReserve(s.pool) && t !in s.tickets && t !in s.slots
    case Create(t, _) => t in s.tickets && s.tickets[t].Creating?
    case Check(t, _) => t in s.tickets && s.tickets[t].Checking?
    case Finish(t) => t in s.tickets && s.tickets[t].Finishing?
    case Release(t) => t in s.tickets && s.tickets[t].Releasing?
    case Return(k) => k in s.slots
    case MoveSlot(from, to) => from in s.slots && to !in s.slots && to !in s.tickets
    case SweepIdle => s.pool.running
    case Stop => !s.stopping
    case Stopped => s.stopping
  }

  /** A successful or half-way initialisation starts a new epoch. */
  function Initialized(s: System, init: (State, InitOutcome), created: seq<IdleEntry>): System {
    if init.1 == Started || init.1 == ThreadFailed
    then s.(pool := init.0, epoch := s.epoch + 1, nextId := s.nextId + |created|, clock := LastSince(s.clock, created))
    else s.(pool := init.0)
  }

  ghost function Apply(s: System, step: Step): System
    requires Enabled(s, step)
  {
    match step
    case Tick(duration) => s.(clock := s.clock + duration)
    case Initialize(config, created, threadStarts) =>
      Initialized(s, Init(s.pool, config, created, threadStarts), created)
    case Get(t) =>
      var (p, r) := Reserve(s.pool);
      (match r
       case Refused => s
       case MustCreate => s.(pool := p, tickets := s.tickets[t := Creating(s.epoch)])
       case MustCheck(c) => s.(pool := p, tickets := s.tickets[t := Checking(s.epoch, c)]))
    case Create(t, ok) =>
      var since := s.tickets[t].since;
      if ok then s.(nextId := s.nextId + 1, tickets := s.tickets[t := Finishing(since, Connection(s.nextId, s.epoch))])
      else s.(tickets := s.tickets[t := Releasing(since)])
    case Check(t, ok) =>
      var since := s.tickets[t].since;
      if ok then s.(tickets := s.tickets[t := Finishing(since, s.tickets[t].connection)])
      else if s.pool.running then s.(tickets := s.tickets[t := Creating(since)])
      else s.(pool := ReleaseReservation(s.pool), tickets := s.tickets - {t})
    case Finish(t) =>
      var (p, handedOut) := FinishCheckout(s.pool);
      var s' := s.(pool := p, tickets := s.tickets - {t});
      if handedOut then s'.(slots := s.slots[t := s.tickets[t].connection]) else s'
    case Release(t) => s.(pool := ReleaseReservation(s.pool), tickets := s.tickets - {t})
    case Return(k) => s.(pool := ReturnDatabase(s.pool, s.slots[k], s.clock), slots := s.slots - {k})
    case MoveSlot(from, to) => s.(slots := (s.slots - {from})[to := s.slots[from]])
    case SweepIdle => s.(pool := s.pool.(idle := Sweep(s.pool.idle, 0, s.pool.config, s.clock)))
    case Stop => s.(pool := s.pool.(running := false), stopping := true)
    case Stopped => s.(pool := s.pool.(idle := []), stopping := false)
  }

  ghost predicate IsRun(s: System, steps: seq<Step>)
    decreases |steps|
  {
    steps == [] || (Enabled(s, steps[0]) && IsRun(Apply(s, steps[0]), steps[1..]))
  }

  ghost function After(s: System, steps: seq<Step>): System
    requires IsRun(s, steps)
    decreases |steps|
  {
    if steps == [] then s else After(Apply(s, steps[0]), steps[1..])
  }

  // ----- the invariant -----

  datatype Place = InIdle(index: nat) | InTicket(ticket: nat) | InSlot(slot: nat)

  /** Connection c is at place p. */
  ghost predicate At(s: System, p: Place, c: Connection) {
    match p
    case InIdle(i) => i < |s.pool.idle| && s.pool.idle[i].connection == c
    case InTicket(t) =>
      t in s.tickets && (s.tickets[t].Checking? || s.tickets[t].Finishing?) && s.tickets[t].connection == c
    case InSlot(k) => k in s.slots && s.slots[k] == c
  }

  ghost predicate Counted(s: System) {
    s.pool.active == |s.tickets| + |s.slots| && s.tickets.Keys !! s.slots.Keys
  }

  ghost predicate Bounded(s: System) {
    s.pool.running ==> ValidConfig(s.pool.config) && s.pool.active + |s.pool.idle| <= s.pool.config.maxConnections
  }

  ghost predicate CurrentEpoch(s: System) {
    forall p, c :: At(s, p, c) ==> c.epoch == s.epoch && c.id < s.nextId
  }

  /** No initialisation has taken effect since a call under way made its reservation. */
  ghost predicate CallsCurrent(s: System) {
    forall t :: t in s.tickets ==> s.tickets[t].since == s.epoch
  }

  ghost predicate Exclusive(s: System) {
    forall p, q, c, d :: At(s, p, c) && At(s, q, d) && c.id == d.id ==> p == q
  }

  lemma {:induction false} InOrderIsOrdered(idle: seq<IdleEntry>, clock: nat)
    requires InOrder(idle, clock)
    ensures Ordered(idle) && forall i :: 0 <= i < |idle| ==> idle[i].since <= clock
  {
    if idle != [] {
      InOrderIsOrdered(idle[..|idle| - 1], idle[|idle| - 1].since);
    }
  }

  lemma {:induction false} OrderedIsInOrder(idle: seq<IdleEntry>, clock: nat)
    requires Ordered(idle) && forall i :: 0 <= i < |idle| ==> idle[i].since <= clock
    ensures InOrder(idle, clock)
  {
    if idle != [] {
      OrderedIsInOrder(idle[..|idle| - 1], idle[|idle| - 1].since);
    }
  }

  ghost predicate IdleInOrder(s: System) {
    && InOrder(s.pool.idle, s.clock)
    && (!s.pool.running && !s.stopping ==> s.pool.idle == [])
    && (s.stopping ==> !s.pool.running)
  }

  ghost predicate Inv(s: System) {
    Counted(s) && Bounded(s) && CurrentEpoch(s) && CallsCurrent(s) && Exclusive(s) && IdleInOrder(s)
  }

  // ----- preservation -----

  lemma Removed<V>(m: map<nat, V>, k: nat)
    requires k in m
    ensures |m - {k}| == |m| - 1
  {
    assert (m - {k}).Keys == m.Keys - {k};
  }

  lemma Added<V>(m: map<nat, V>, k: nat, v: V)
    ensures |m[k := v]| == if k in m then |m| else |m| + 1
  {
    if k in m {
      assert m[k := v].Keys == m.Keys;
    } else {
      assert m[k := v].Keys == m.Keys + {k};
    }
  }

  /** A GetDatabase call moves from one stage to another. */
  lemma StageCount(s: System, step: Step)
    requires Counted(s) && Bounded(s) && Enabled(s, step)
    requires step.Create? || step.Check? || step.Release?
    ensures Counted(Apply(s, step)) && Bounded(Apply(s, step)) && Apply(s, step).pool.active <= s.pool.active
  {
    var t := step.ticket;
    Removed(s.tickets, t);
    if t in Apply(s, step).tickets {
      Added(s.tickets, t, Apply(s, step).tickets[t]);
    }
  }

  lemma GetCount(s: System, t: nat)
    requires Counted(s) && Bounded(s) && Enabled(s, Get(t))
    ensures Counted(Apply(s, Get(t))) && Bounded(Apply(s, Get(t))) && Apply(s, Get(t)).pool.active <= s.pool.active + 1
  {
    var stage := if s.pool.idle == [] then Creating(s.epoch) else Checking(s.epoch, s.pool.idle[0].connection);
    Added(s.tickets, t, stage);
    assert Apply(s, Get(t)).tickets == if s.pool.running then s.tickets[t := stage] else s.tickets;
  }

  lemma FinishCount(s: System, t: nat)
    requires Counted(s) && Bounded(s) && Enabled(s, Finish(t))
    ensures Counted(Apply(s, Finish(t))) && Bounded(Apply(s, Finish(t))) && Apply(s, Finish(t)).pool.active <= s.pool.active
  {
    Removed(s.tickets, t);
    Added(s.slots, t, s.tickets[t].connection);
  }

  lemma SlotCount(s: System, step: Step)
    requires Counted(s) && Bounded(s) && Enabled(s, step) && (step.Return? || step.MoveSlot?)
    ensures Counted(Apply(s, step)) && Bounded(Apply(s, step)) && Apply(s, step).pool.active <= s.pool.active
  {
    match step
    case Return(k) =>
      Removed(s.slots, k);
    case MoveSlot(from, to) =>
      Removed(s.slots, from);
      Added(s.slots - {from}, to, s.slots[from]);
  }

  /** Every step keeps the count and the bound, and none wraps the counter around. */
  lemma CountKept(s: System, step: Step)
    requires Counted(s) && Bounded(s) && IdleInOrder(s) && Enabled(s, step)
    ensures Counted(Apply(s, step)) && Bounded(Apply(s, step))
    ensures Apply(s, step).pool.active <= s.pool.active + 1
  {
    match step
    case Get(t) => GetCount(s, t);
    case Create(_, _) => StageCount(s, step);
    case Check(_, _) => StageCount(s, step);
    case Release(_) => StageCount(s, step);
    case Finish(t) => FinishCount(s, t);
    case Return(_) => SlotCount(s, step);
    case MoveSlot(_, _) => SlotCount(s, step);
    case SweepIdle => SweepShrinks(s.pool.idle, 0, s.pool.config, s.clock);
    case _ =>
  }

  /** Where a connection of the new state was before the step, if the step did not create it. */
  ghost function Before(s: System, step: Step, p: Place): Place
    requires Enabled(s, step)
  {
    match step
    case Get(t) =>
      if p.InIdle? && s.pool.running && s.pool.idle != [] then InIdle(p.index + 1)
      else if p == InTicket(t) then InIdle(0) else p
    case Finish(t) => if p == InSlot(t) then InTicket(t) else p
    case Return(k) => if p.InIdle? && p.index == |s.pool.idle| then InSlot(k) else p
    case MoveSlot(from, to) => if p == InSlot(to) then InSlot(from) else p
    case SweepIdle =>
      var k := Min(|s.pool.idle|, s.pool.config.minConnections);
      if p.InIdle? && p.index >= k
      then InIdle(p.index - k + FirstFresh(s.pool.idle, k, s.pool.config, s.clock)) else p
    case _ => p
  }

  /** Connection c came into being at place p through the step. */
  ghost predicate Born(s: System, step: Step, p: Place, c: Connection)
    requires Enabled(s, step)
  {
    match step
    case Create(t, _) => p == InTicket(t) && c == Connection(s.nextId, s.epoch) && Apply(s, step).nextId == s.nextId + 1
    case Initialize(_, created, _) =>
      p.InIdle? && |s.pool.idle| <= p.index < |s.pool.idle| + |created| &&
      c == Connection(s.nextId + p.index - |s.pool.idle|, s.epoch + 1) &&
      Apply(s, step).epoch == s.epoch + 1 && Apply(s, step).nextId == s.nextId + |created|
    case _ => false
  }

  lemma TracedInitialize(s: System, config: Config, created: seq<IdleEntry>, threadStarts: bool, p: Place, c: Connection)
    requires Enabled(s, Initialize(config, created, threadStarts))
    requires At(Apply(s, Initialize(config, created, threadStarts)), p, c)
    ensures Born(s, Initialize(config, created, threadStarts), p, c) || At(s, p, c)
  {
    if p.InIdle? && |s.pool.idle| <= p.index < |s.pool.idle| + |created| {
      assert (s.pool.idle + created)[p.index] == created[p.index - |s.pool.idle|];
    }
  }

  lemma TracedSweep(s: System, p: Place, c: Connection)
    requires InOrder(s.pool.idle, s.clock) && Enabled(s, SweepIdle) && At(Apply(s, SweepIdle), p, c)
    ensures At(s, Before(s, SweepIdle, p), c)
  {
    InOrderIsOrdered(s.pool.idle, s.clock);
    SweepClosedForm(s.pool.idle, s.pool.config, s.clock);
  }

  /** Every connection of the new state was made by the step or was somewhere before it. */
  lemma Traced(s: System, step: Step, p: Place, c: Connection)
    requires InOrder(s.pool.idle, s.clock) && s.tickets.Keys !! s.slots.Keys && Enabled(s, step) && At(Apply(s, step), p, c)
    ensures Born(s, step, p, c) || At(s, Before(s, step, p), c)
  {
    match step
    case SweepIdle => TracedSweep(s, p, c);
    case Initialize(config, created, threadStarts) => TracedInitialize(s, config, created, threadStarts, p, c);
    case _ =>
  }

  lemma BeforeInjective(s: System, step: Step, p: Place, q: Place, c: Connection, d: Connection)
    requires s.tickets.Keys !! s.slots.Keys && Enabled(s, step)
    requires At(Apply(s, step), p, c) && At(Apply(s, step), q, d) && Before(s, step, p) == Before(s, step, q)
    ensures p == q
  {
  }

  /** A pool that is neither running nor stopping holds nothing once its count is zero. */
  lemma NothingLeft(s: System)
    requires Inv(s)
    ensures !s.pool.running && !s.stopping && s.pool.active == 0 ==>
              s.tickets == map[] && s.slots == map[] && s.pool.idle == []
    ensures !s.pool.running && !s.stopping && s.pool.active == 0 ==> forall p, c :: !At(s, p, c)
  {
  }

  lemma EpochKept(s: System, step: Step)
    requires Inv(s) && Enabled(s, step)
    ensures CurrentEpoch(Apply(s, step))
  {
    var s' := Apply(s, step);
    NothingLeft(s);
    forall p, c | At(s', p, c)
      ensures c.epoch == s'.epoch && c.id < s'.nextId
    {
      Traced(s, step, p, c);
    }
  }

  lemma CallsKept(s: System, step: Step)
    requires Inv(s) && Enabled(s, step)
    ensures CallsCurrent(Apply(s, step))
  {
    NothingLeft(s);
  }

  lemma ExclusiveKept(s: System, step: Step)
    requires Inv(s) && Enabled(s, step)
    ensures Exclusive(Apply(s, step))
  {
    var s' := Apply(s, step);
    forall p, q, c, d | At(s', p, c) && At(s', q, d) && c.id == d.id
      ensures p == q
    {
      Traced(s, step, p, c);
      Traced(s, step, q, d);
      if !Born(s, step, p, c) && !Born(s, step, q, d) {
        BeforeInjective(s, step, p, q, c, d);
      }
    }
  }

  lemma InitQueue(p: State, config: Config, created: seq<IdleEntry>, threadStarts: bool)
    requires !p.running ==> p.idle == []
    ensures var r := Init(p, config, created, threadStarts);
            if r.1 == Started then r.0.idle == created && r.0.running
            else if r.1 == ThreadFailed then r.0.idle == []
            else r.0 == p
  {
    assert [] + created == created;
  }

  lemma InitializeOrder(s: System, config: Config, created: seq<IdleEntry>, threadStarts: bool)
    requires IdleInOrder(s) && !s.stopping && InOrder(created, LastSince(s.clock, created))
    ensures IdleInOrder(Initialized(s, Init(s.pool, config, created, threadStarts), created))
  {
    InitQueue(s.pool, config, created, threadStarts);
  }

  lemma TailOrder(idle: seq<IdleEntry>, clock: nat)
    requires InOrder(idle, clock) && idle != []
    ensures InOrder(idle[1..], clock)
  {
    InOrderIsOrdered(idle, clock);
    OrderedIsInOrder(idle[1..], clock);
  }

  lemma LaterOrder(idle: seq<IdleEntry>, clock: nat, duration: nat)
    requires InOrder(idle, clock)
    ensures InOrder(idle, clock + duration)
  {
  }

  lemma ReturnOrder(idle: seq<IdleEntry>, c: Connection, clock: nat)
    requires InOrder(idle, clock)
    ensures InOrder(idle + [IdleEntry(c, clock)], clock)
  {
    assert (idle + [IdleEntry(c, clock)])[..|idle|] == idle;
  }

  lemma SweepOrder(idle: seq<IdleEntry>, c: Config, clock: nat)
    requires InOrder(idle, clock)
    ensures InOrder(Sweep(idle, 0, c, clock), clock)
  {
    InOrderIsOrdered(idle, clock);
    SweepClosedForm(idle, c, clock);
    SweepShrinks(idle, 0, c, clock);
    forall i | 0 <= i < |Sweep(idle, 0, c, clock)|
      ensures Sweep(idle, 0, c, clock)[i].since <= clock
    {
      assert Sweep(idle, 0, c, clock)[i] in idle;
    }
    OrderedIsInOrder(Sweep(idle, 0, c, clock), clock);
  }

  lemma GetKeepsOrder(s: System, t: nat)
    requires IdleInOrder(s) && Enabled(s, Get(t))
    ensures IdleInOrder(Apply(s, Get(t)))
  {
    if s.pool.idle != [] {
      TailOrder(s.pool.idle, s.clock);
    }
  }

  /** What the queue is after a return. */
  lemma ReturnQueue(s: System, k: nat)
    requires Enabled(s, Return(k))
    ensures var t := Apply(s, Return(k));
            && t.clock == s.clock && t.stopping == s.stopping && t.pool.running == s.pool.running
            && (t.pool.idle == s.pool.idle ||
                (s.pool.running && t.pool.idle == s.pool.idle + [IdleEntry(s.slots[k], s.clock)]))
  {
  }

  lemma ReturnKeepsOrder(s: System, k: nat)
    requires IdleInOrder(s) && Enabled(s, Return(k))
    ensures IdleInOrder(Apply(s, Return(k)))
  {
    ReturnQueue(s, k);
    var c := s.slots[k];
    ReturnOrder(s.pool.idle, c, s.clock);
  }

  lemma SweepKeepsOrder(s: System)
    requires IdleInOrder(s) && Enabled(s, SweepIdle)
    ensures IdleInOrder(Apply(s, SweepIdle))
  {
    SweepOrder(s.pool.idle, s.pool.config, s.clock);
  }

  lemma OrderKept(s: System, step: Step)
    requires IdleInOrder(s) && Enabled(s, step)
    ensures IdleInOrder(Apply(s, step))
  {
    match step
    case Tick(duration) => LaterOrder(s.pool.idle, s.clock, duration);
    case Initialize(config, created, threadStarts) => InitializeOrder(s, config, created, threadStarts);
    case Get(t) => GetKeepsOrder(s, t);
    case Return(k) => ReturnKeepsOrder(s, k);
    case SweepIdle => SweepKeepsOrder(s);
    case _ =>
  }

  lemma StepKeeps(s: System, step: Step)
    requires Inv(s) && Enabled(s, step)
    ensures Inv(Apply(s, step))
  {
    CountKept(s, step);
    EpochKept(s, step);
    CallsKept(s, step);
    ExclusiveKept(s, step);
    OrderKept(s, step);
  }

  lemma {:induction false} RunKeeps(s: System, steps: seq<Step>)
    requires Inv(s) && IsRun(s, steps)
    ensures Inv(After(s, steps))
    decreases |steps|
  {
    if steps != [] {
      StepKeeps(s, steps[0]);
      RunKeeps(Apply(s, steps[0]), steps[1..]);
    }
  }

  // ----- what holds in every run -----

  /** The active count is the number of handed-out connections plus the calls under way, it never
      wraps around, and while the pool runs it stays within the limit together with the idle ones. */
  lemma PoolAccounting(steps: seq<Step>, step: Step)
    requires IsRun(START, steps) && Enabled(After(START, steps), step)
    ensures var s := After(START, steps);
            && s.pool.active == |s.slots| + |s.tickets|
            && (s.pool.running ==> s.pool.active + |s.pool.idle| <= s.pool.config.maxConnections)
            && Apply(s, step).pool.active <= s.pool.active + 1
  {
    RunKeeps(START, steps);
    CountKept(After(START, steps), step);
  }

  /** Every pooled, checked-out or handed-out connection was created by the latest initialisation,
      and as long as one is left anywhere no further initialisation takes effect. */
  lemma EpochsNeverMix(steps: seq<Step>, step: Step, p: Place, c: Connection)
    requires IsRun(START, steps) && At(After(START, steps), p, c)
    ensures c.epoch == After(START, steps).epoch
    ensures Enabled(After(START, steps), step) ==> Apply(After(START, steps), step).epoch == After(START, steps).epoch
  {
    RunKeeps(START, steps);
    NothingLeft(After(START, steps));
  }

  /** Nor does one take effect while a call is under way: the connection it creates or hands out belongs to the
      epoch in which it made its reservation. */
  lemma CallsKeepTheirEpoch(steps: seq<Step>, step: Step, t: nat)
    requires IsRun(START, steps) && t in After(START, steps).tickets
    ensures After(START, steps).tickets[t].since == After(START, steps).epoch
    ensures Enabled(After(START, steps), step) ==> Apply(After(START, steps), step).epoch == After(START, steps).epoch
  {
    RunKeeps(START, steps);
    NothingLeft(After(START, steps));
  }

  /** No connection is ever in two places: two owners never share one. */
  lemma NoSharing(steps: seq<Step>, p: Place, q: Place, c: Connection)
    requires IsRun(START, steps) && At(After(START, steps), p, c) && At(After(START, steps), q, c)
    ensures p == q
  {
    RunKeeps(START, steps);
  }

  /** A connection returned after Shutdown has begun never reaches the idle queue again: it is
      nowhere, and no later step of any run brings it back. */
  lemma ReturnedAfterStopIsGone(steps: seq<Step>, slot: nat, later: seq<Step>, p: Place)
    requires IsRun(START, steps)
    requires var s := After(START, steps); slot in s.slots && !s.pool.running
    requires var s := After(START, steps); IsRun(Apply(s, Return(slot)), later)
    ensures var s := After(START, steps); !At(After(Apply(s, Return(slot)), later), p, s.slots[slot])
  {
    RunKeeps(START, steps);
    var s := After(START, steps);
    StepKeeps(s, Return(slot));
    ReturnVanishes(s, slot);
    StaysGone(Apply(s, Return(slot)), later, s.slots[slot], p);
  }

  lemma ReturnVanishes(s: System, slot: nat)
    requires Inv(s) && slot in s.slots && !s.pool.running
    ensures s.slots[slot].id < Apply(s, Return(slot)).nextId
    ensures forall q :: !At(Apply(s, Return(slot)), q, s.slots[slot])
  {
    var c := s.slots[slot];
    assert At(s, InSlot(slot), c);
    forall q
      ensures !At(Apply(s, Return(slot)), q, c)
    {
      if At(Apply(s, Return(slot)), q, c) {
        Traced(s, Return(slot), q, c);
      }
    }
  }

  lemma {:induction false} StaysGone(s: System, steps: seq<Step>, c: Connection, p: Place)
    requires Inv(s) && IsRun(s, steps) && c.id < s.nextId && forall q :: !At(s, q, c)
    ensures !At(After(s, steps), p, c)
    decreases |steps|
  {
    if steps != [] {
      var s' := Apply(s, steps[0]);
      forall q
        ensures !At(s', q, c)
      {
        if At(s', q, c) {
          Traced(s, steps[0], q, c);
        }
      }
      StepKeeps(s, steps[0]);
      StaysGone(s', steps[1..], c, p);
    }
  }

  // ----- what every step achieves -----

  /** Starting takes effect exactly on a stopped pool without outstanding handles and with valid limits. Then the pool
      runs within the new limits on the connections created, in order; if its thread does not start it is left
      stopped and empty. */
  lemma InitializeTakesEffectIff(steps: seq<Step>, config: Config, created: seq<IdleEntry>, threadStarts: bool)
    requires IsRun(START, steps) && Enabled(After(START, steps), Initialize(config, created, threadStarts))
    ensures var s := After(START, steps);
            var t := Apply(s, Initialize(config, created, threadStarts));
            if !s.pool.running && |s.slots| + |s.tickets| == 0 &&
               config.maxConnections > 0 && config.minConnections <= config.maxConnections
            then t.pool.config == config && t.pool.running == threadStarts && t.epoch == s.epoch + 1 &&
                 t.pool.idle == if threadStarts then created else []
            else t == s
  {
    RunKeeps(START, steps);
    var s := After(START, steps);
    assert s.pool.active == |s.tickets| + |s.slots|;
    assert [] + created == created;
  }

  /** No caller waits while a connection may be given out: the wait ends exactly when the pool is stopped or fewer than
      the maximum are taken. */
  lemma WaitsOnlyWhenAllTaken(steps: seq<Step>)
    requires IsRun(START, steps)
    ensures var s := After(START, steps);
            CanReserve(s.pool) <==> !s.pool.running || |s.slots| + |s.tickets| < s.pool.config.maxConnections
  {
    RunKeeps(START, steps);
  }

  /** A caller on a running pool gets the connection that has been idle longest, to be checked, or else creates one; on
      a stopped pool it gets nothing. */
  lemma GetOpensACall(steps: seq<Step>, t: nat)
    requires IsRun(START, steps) && Enabled(After(START, steps), Get(t))
    ensures var s, s' := After(START, steps), Apply(After(START, steps), Get(t));
            if !s.pool.running then s' == s
            else if s.pool.idle == [] then s'.tickets == s.tickets[t := Creating(s.epoch)] && s'.pool.idle == []
            else s'.tickets == s.tickets[t := Checking(s.epoch, s.pool.idle[0].connection)] &&
                 [s.pool.idle[0]] + s'.pool.idle == s.pool.idle
  {
  }

  /** A live connection is handed out after its check, a dead one is replaced on a running pool, and a new one is unlike
      every other. */
  lemma ChecksAndCreations(steps: seq<Step>, t: nat, ok: bool, p: Place, c: Connection)
    requires IsRun(START, steps) && t in After(START, steps).tickets
    ensures var s := After(START, steps);
            && (s.tickets[t].Checking? && ok ==> Apply(s, Check(t, ok)).tickets[t] == Finishing(s.epoch, s.tickets[t].connection))
            && (s.tickets[t].Checking? && !ok && s.pool.running ==> Apply(s, Check(t, ok)).tickets[t] == Creating(s.epoch))
            && (s.tickets[t].Checking? && !ok && !s.pool.running ==> t !in Apply(s, Check(t, ok)).tickets)
            && (s.tickets[t].Creating? && !ok ==> Apply(s, Create(t, ok)).tickets[t].Releasing?)
            && (s.tickets[t].Creating? && ok ==> Apply(s, Create(t, ok)).tickets[t].Finishing?)
    ensures var s := After(START, steps);
            s.tickets[t].Creating? && ok && At(s, p, c) ==> c.id != Apply(s, Create(t, ok)).tickets[t].connection.id
  {
    RunKeeps(START, steps);
  }

  /** A checked connection of a running pool goes to its caller; on a stopped one it is gone. */
  lemma FinishHandsOut(steps: seq<Step>, t: nat)
    requires IsRun(START, steps) && Enabled(After(START, steps), Finish(t))
    ensures var s, s' := After(START, steps), Apply(After(START, steps), Finish(t));
            var c := s.tickets[t].connection;
            && t !in s'.tickets && s'.pool.idle == s.pool.idle
            && (s.pool.running ==> At(s', InSlot(t), c) && s'.pool == s.pool)
            && (!s.pool.running ==> s'.slots == s.slots && forall p :: !At(s', p, c))
  {
    RunKeeps(START, steps);
    var s := After(START, steps);
    assert At(s, InTicket(t), s.tickets[t].connection);
    if !s.pool.running {
      FinishVanishes(s, t);
    }
  }

  lemma FinishVanishes(s: System, t: nat)
    requires Inv(s) && Enabled(s, Finish(t)) && !s.pool.running
    ensures forall p :: !At(Apply(s, Finish(t)), p, s.tickets[t].connection)
  {
    var c := s.tickets[t].connection;
    assert At(s, InTicket(t), c);
    forall p
      ensures !At(Apply(s, Finish(t)), p, c)
    {
      if At(Apply(s, Finish(t)), p, c) {
        Traced(s, Finish(t), p, c);
      }
    }
  }

  /** A handle returned to a running pool becomes its youngest idle connection, stamped with the time. */
  lemma ReturnPools(steps: seq<Step>, k: nat)
    requires IsRun(START, steps) && k in After(START, steps).slots && After(START, steps).pool.running
    ensures var s, s' := After(START, steps), Apply(After(START, steps), Return(k));
            && At(s', InIdle(|s.pool.idle|), s.slots[k]) && k !in s'.slots
            && s'.pool.idle == s.pool.idle + [IdleEntry(s.slots[k], s.clock)]
  {
    RunKeeps(START, steps);
  }

  /** Moving an owner moves its connection. */
  lemma MoveMoves(steps: seq<Step>, from: nat, to: nat)
    requires IsRun(START, steps) && Enabled(After(START, steps), MoveSlot(from, to))
    ensures var s, s' := After(START, steps), Apply(After(START, steps), MoveSlot(from, to));
            At(s', InSlot(to), s.slots[from]) && (from != to ==> from !in s'.slots)
  {
  }

  /** Shutting down stops the pool at once and empties it: whatever was idle is nowhere afterwards. */
  lemma ShutdownEmpties(steps: seq<Step>, i: nat)
    requires IsRun(START, steps) && !After(START, steps).stopping
    ensures var s1 := Apply(After(START, steps), Stop);
            !s1.pool.running && Enabled(s1, Stopped) && Apply(s1, Stopped).pool.idle == []
    ensures var s := After(START, steps);
            i < |s.pool.idle| ==> forall p :: !At(Apply(Apply(s, Stop), Stopped), p, s.pool.idle[i].connection)
  {
    RunKeeps(START, steps);
    var s := After(START, steps);
    if i < |s.pool.idle| {
      assert At(s, InIdle(i), s.pool.idle[i].connection);
      forall p
        ensures !At(Apply(Apply(s, Stop), Stopped), p, s.pool.idle[i].connection)
      {
        if At(Apply(Apply(s, Stop), Stopped), p, s.pool.idle[i].connection) {
          assert At(s, p, s.pool.idle[i].connection);
        }
      }
    }
  }

  /** In every reachable state the sweep is the closed form: the idle queue is in return order. */
  lemma SweepInEveryRun(steps: seq<Step>)
    requires IsRun(START, steps)
    ensures var s := After(START, steps);
            var k := Min(|s.pool.idle|, s.pool.config.minConnections);
            Sweep(s.pool.idle, 0, s.pool.config, s.clock)
              == s.pool.idle[..k] + s.pool.idle[FirstFresh(s.pool.idle, k, s.pool.config, s.clock)..]
    ensures var s := After(START, steps);
            var k := Min(|s.pool.idle|, s.pool.config.minConnections);
            var f := FirstFresh(s.pool.idle, k, s.pool.config, s.clock);
            && (forall i :: k <= i < f ==> s.clock - s.pool.idle[i].since >= s.pool.config.idleTimeout)
            && (forall i :: f <= i < |s.pool.idle| ==> s.clock - s.pool.idle[i].since < s.pool.config.idleTimeout)
  {
    RunKeeps(START, steps);
    InOrderIsOrdered(After(START, steps).pool.idle, After(START, steps).clock);
    SweepClosedForm(After(START, steps).pool.idle, After(START, steps).pool.config, After(START, steps).clock);
  }
}
