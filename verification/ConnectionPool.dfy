/**
 The database connection pool. The functions specify the critical sections (each runs under the
 pool's mutex); class Pool holds the fields those sections update. Module PoolProtocol interleaves them
 with the work done outside the lock.
 */
module ConnectionPool {

  const SIZE_T: nat := 0x1_0000_0000_0000_0000

  /** `epoch` counts the successful initialisations before the connection was created. */
  datatype Connection = Connection(id: nat, epoch: nat)

  datatype IdleEntry = IdleEntry(connection: Connection, since: nat)

  datatype Config = Config(minConnections: nat, maxConnections: nat, idleTimeout: nat)

  datatype State = State(config: Config, running: bool, active: nat, idle: seq<IdleEntry>)

  predicate ValidConfig(c: Config) { c.maxConnections != 0 && c.minConnections <= c.maxConnections }

  // ----- the critical sections -----

  /** size_t arithmetic: decrementing zero wraps around. */
  function Decrement(n: nat): nat { if n == 0 then SIZE_T - 1 else n - 1 }

  datatype InitOutcome = Started | AlreadyRunning | InvalidLimits | HandlesOutstanding | ThreadFailed

  /** `created` are the connections the factory produced before its first failure. */
  function Init(p: State, config: Config, created: seq<IdleEntry>, threadStarts: bool): (State, InitOutcome) {
    if !ValidConfig(config) then (p, InvalidLimits)
    else if p.running then (p, AlreadyRunning)
    else if p.active != 0 then (p, HandlesOutstanding)
    else if threadStarts then (State(config, true, p.active, p.idle + created), Started)
    else (State(config, false, p.active, []), ThreadFailed)
  }

  /** The condition GetDatabase waits for. */
  predicate CanReserve(p: State) {
    !p.running || p.idle != [] || p.active < p.config.maxConnections
  }

  datatype Reservation = Refused | MustCreate | MustCheck(connection: Connection)

  function Reserve(p: State): (State, Reservation) {
    if !p.running then (p, Refused)
    else if p.idle == [] then (p.(active := p.active + 1), MustCreate)
    else (p.(active := p.active + 1, idle := p.idle[1..]), MustCheck(p.idle[0].connection))
  }

  /** True when the connection is handed to the caller, false when the pool has stopped. */
  function FinishCheckout(p: State): (State, bool) {
    if p.running then (p, true) else (p.(active := Decrement(p.active)), false)
  }

  function ReleaseReservation(p: State): State {
    p.(active := Decrement(p.active))
  }

  function ReturnDatabase(p: State, connection: Connection, now: nat): State {
    if p.active == 0 then p
    else if p.running then p.(active := p.active - 1, idle := p.idle + [IdleEntry(connection, now)])
    else p.(active := p.active - 1)
  }

  function Sweep(idle: seq<IdleEntry>, kept: nat, c: Config, now: nat): seq<IdleEntry> {
    if idle == [] then []
    else if kept < c.minConnections || now - idle[0].since < c.idleTimeout
    then [idle[0]] + Sweep(idle[1..], kept + 1, c, now)
    else Sweep(idle[1..], kept, c, now)
  }

  // ----- the sweep in closed form -----

  ghost predicate Ordered(idle: seq<IdleEntry>) {
    forall i, j :: 0 <= i < j < |idle| ==> idle[i].since <= idle[j].since
  }

  predicate Expired(e: IdleEntry, c: Config, now: nat) { now - e.since >= c.idleTimeout }

  /** The first entry from position k on that has not expired. */
  function FirstFresh(idle: seq<IdleEntry>, k: nat, c: Config, now: nat): (f: nat)
    requires k <= |idle|
    ensures k <= f <= |idle|
    ensures forall i :: k <= i < f ==> Expired(idle[i], c, now)
    ensures f < |idle| ==> !Expired(idle[f], c, now)
    decreases |idle| - k
  {
    if k == |idle| || !Expired(idle[k], c, now) then k else FirstFresh(idle, k + 1, c, now)
  }

  lemma {:induction false} SweepKeepsFresh(idle: seq<IdleEntry>, kept: nat, c: Config, now: nat)
    requires forall i :: 0 <= i < |idle| ==> !Expired(idle[i], c, now)
    ensures Sweep(idle, kept, c, now) == idle
  {
    if idle != [] {
      SweepKeepsFresh(idle[1..], kept + 1, c, now);
    }
  }

  lemma {:induction false} SweepBeyondMinimum(idle: seq<IdleEntry>, kept: nat, c: Config, now: nat)
    requires Ordered(idle) && kept >= c.minConnections
    ensures Sweep(idle, kept, c, now) == idle[FirstFresh(idle, 0, c, now)..]
  {
    if idle != [] {
      if Expired(idle[0], c, now) {
        SweepBeyondMinimum(idle[1..], kept, c, now);
        ShiftFresh(idle, 0, c, now);
      } else {
        SweepKeepsFresh(idle, kept, c, now);
      }
    }
  }

  lemma {:induction false} ShiftFresh(idle: seq<IdleEntry>, k: nat, c: Config, now: nat)
    requires k < |idle|
    ensures FirstFresh(idle[1..], k, c, now) + 1 == FirstFresh(idle, k + 1, c, now)
    decreases |idle| - k
  {
    if k + 1 < |idle| && Expired(idle[k + 1], c, now) {
      ShiftFresh(idle, k + 1, c, now);
    }
  }

  function Min(a: nat, b: nat): nat { if a < b then a else b }

  lemma HeadBack(s: seq<IdleEntry>, k: nat, g: nat)
    requires 0 < k <= g + 1 <= |s|
    ensures [s[0]] + (s[1..][..k - 1] + s[1..][g..]) == s[..k] + s[g + 1..]
  {
  }

  lemma SweepStep(idle: seq<IdleEntry>, kept: nat, c: Config, now: nat, k: nat, g: nat)
    requires 0 < k <= g + 1 <= |idle| && kept < c.minConnections
    requires Sweep(idle[1..], kept + 1, c, now) == idle[1..][..k - 1] + idle[1..][g..]
    ensures Sweep(idle, kept, c, now) == idle[..k] + idle[g + 1..]
  {
    HeadBack(idle, k, g);
  }

  lemma OrderedTail(idle: seq<IdleEntry>)
    requires Ordered(idle) && idle != []
    ensures Ordered(idle[1..])
  {
  }

  lemma SweepOneMore(idle: seq<IdleEntry>, kept: nat, c: Config, now: nat, k: nat)
    requires 0 < k <= |idle| && kept < c.minConnections
    requires Sweep(idle[1..], kept + 1, c, now) == idle[1..][..k - 1] + idle[1..][FirstFresh(idle[1..], k - 1, c, now)..]
    ensures Sweep(idle, kept, c, now) == idle[..k] + idle[FirstFresh(idle, k, c, now)..]
  {
    SweepStep(idle, kept, c, now, k, FirstFresh(idle[1..], k - 1, c, now));
    ShiftFresh(idle, k - 1, c, now);
  }

  lemma {:induction false} SweepFrom(idle: seq<IdleEntry>, kept: nat, c: Config, now: nat, k: nat)
    requires Ordered(idle) && kept <= c.minConnections && k == Min(|idle|, c.minConnections - kept)
    ensures Sweep(idle, kept, c, now) == idle[..k] + idle[FirstFresh(idle, k, c, now)..]
    decreases k
  {
    if k > 0 {
      OrderedTail(idle);
      SweepFrom(idle[1..], kept + 1, c, now, k - 1);
      SweepOneMore(idle, kept, c, now, k);
    } else {
      NoneKept(idle, kept, c, now);
    }
  }

  lemma NoneKept(idle: seq<IdleEntry>, kept: nat, c: Config, now: nat)
    requires Ordered(idle) && (idle == [] || kept >= c.minConnections)
    ensures Sweep(idle, kept, c, now) == idle[..0] + idle[FirstFresh(idle, 0, c, now)..]
  {
    if idle != [] {
      SweepBeyondMinimum(idle, kept, c, now);
    }
  }

  lemma {:induction false} SweepShrinks(idle: seq<IdleEntry>, kept: nat, c: Config, now: nat)
    ensures |Sweep(idle, kept, c, now)| <= |idle|
    ensures forall e <- Sweep(idle, kept, c, now) :: e in idle
  {
    if idle != [] {
      SweepShrinks(idle[1..], kept, c, now);
      SweepShrinks(idle[1..], kept + 1, c, now);
    }
  }

  lemma OrderedParts(idle: seq<IdleEntry>, k: nat, f: nat)
    requires Ordered(idle) && k <= f <= |idle|
    ensures Ordered(idle[..k] + idle[f..])
  {
  }

  /** On an idle queue ordered by return time the sweep keeps the first min(n, minConnections) entries
      and the unexpired suffix of the rest: only expired entries go, never below that minimum. */
  lemma SweepClosedForm(idle: seq<IdleEntry>, c: Config, now: nat)
    requires Ordered(idle)
    ensures var k := Min(|idle|, c.minConnections);
            var f := FirstFresh(idle, k, c, now);
            && Sweep(idle, 0, c, now) == idle[..k] + idle[f..]
            && (forall i :: k <= i < f ==> Expired(idle[i], c, now))
            && (forall i :: f <= i < |idle| ==> !Expired(idle[i], c, now))
            && |Sweep(idle, 0, c, now)| >= k
            && Ordered(Sweep(idle, 0, c, now))
  {
    var k := Min(|idle|, c.minConnections);
    SweepFrom(idle, 0, c, now, k);
    OrderedParts(idle, k, FirstFresh(idle, k, c, now));
  }

  // ----- the pool object -----

  class Pool {
    var config: Config
    var running: bool
    var active: nat
    var idle: seq<IdleEntry>

    ghost function View(): State
      reads this
    {
      State(config, running, active, idle)
    }

    constructor ()
      ensures View() == State(Config(5, 50, 300), false, 0, [])
    {
      config, running, active, idle := Config(5, 50, 300), false, 0, [];
    }

    /** `results` are the factory's answers in order; the first missing one ends the filling. */
    method Initialize(newConfig: Config, results: seq<IdleEntry>, threadStarts: bool) returns (outcome: InitOutcome)
      modifies this
      ensures var created := results[..Min(|results|, newConfig.minConnections)];
              (View(), outcome) == Init(old(View()), newConfig, created, threadStarts)
    {
      if !ValidConfig(newConfig) { return InvalidLimits; }
      if running { return AlreadyRunning; }
      if active != 0 { return HandlesOutstanding; }
      config := newConfig;
      running := true;
      var i := 0;
      while i < config.minConnections
        invariant 0 <= i <= Min(|results|, newConfig.minConnections)
        invariant config == newConfig && running && active == 0
        invariant idle == old(idle) + results[..i]
      {
        if i == |results| { break; }
        idle := idle + [results[i]];
        i := i + 1;
      }
      if threadStarts { return Started; }
      running := false;
      ClearIdle();
      return ThreadFailed;
    }

    method ClearIdle()
      modifies this`idle
      ensures idle == []
    {
      while idle != []
        decreases |idle|
      {
        idle := idle[1..];
      }
    }

    method TakeReservation() returns (r: Reservation)
      requires CanReserve(View())
      modifies this`active, this`idle
      ensures (View(), r) == Reserve(old(View()))
    {
      if !running { return Refused; }
      if idle == [] {
        active := active + 1;
        return MustCreate;
      }
      r := MustCheck(idle[0].connection);
      idle := idle[1..];
      active := active + 1;
    }

    method Finish() returns (handedOut: bool)
      modifies this`active
      ensures (View(), handedOut) == FinishCheckout(old(View()))
    {
      if running { return true; }
      active := Decrement(active);
      return false;
    }

    method Release()
      modifies this`active
      ensures View() == ReleaseReservation(old(View()))
    {
      active := Decrement(active);
    }

    method Return(connection: Connection, now: nat)
      modifies this`active, this`idle
      ensures View() == ReturnDatabase(old(View()), connection, now)
    {
      if active == 0 { return; }
      active := active - 1;
      if running {
        idle := idle + [IdleEntry(connection, now)];
      }
    }

    method HealthSweep(now: nat)
      modifies this`idle
      ensures idle == Sweep(old(idle), 0, config, now)
    {
      var retained: seq<IdleEntry> := [];
      while idle != []
        invariant Sweep(old(idle), 0, config, now) == retained + Sweep(idle, |retained|, config, now)
        decreases |idle|
      {
        var item := idle[0];
        idle := idle[1..];
        if |retained| < config.minConnections || now - item.since < config.idleTimeout {
          retained := retained + [item];
        }
      }
      idle := retained;
    }

    /** The first critical section of Shutdown; ClearIdle is the last one. */
    method StopRunning()
      modifies this`running
      ensures View() == old(View()).(running := false)
    {
      running := false;
    }
  }
}
