/**
 The message-queue consumer: what each posted command and each channel callback does to its
 fields and which frames it writes to the live channel. All of it runs on one event thread,
 so every function below is one atomic step.

 Tags are counted from 0 here; tag t stands for AMQP delivery tag t + 1.
 */
module MqConsumer {
  import opened Basics
  import Decimal

  datatype DeliveryContext = DeliveryContext(tag: nat, generation: nat)

  datatype Kind = ToRetry | ToDeadLetter

  /** One publication of a delivery's body to the retry or the dead-letter exchange.
      `expiration` is the per-message time to live; only retries carry one. */
  datatype Forward = Forward(kind: Kind, delivery: DeliveryContext, body: string, count: nat,
                             expiration: nat, id: string)

  datatype Command =
    | AckCommand(delivery: DeliveryContext)
    | RequeueCommand(delivery: DeliveryContext)
    | ForwardCommand(kind: Kind, delivery: DeliveryContext, body: string, retryAfterMs: nat, count: nat)

  datatype Frame =
    | AckFrame(tag: nat)
    | RequeueFrame(tag: nat)
    | PublishFrame(seqno: nat, forward: Forward)

  /** `pending` holds the confirm handlers of the live publisher, keyed by publish sequence number,
      and `published` is the next such number. */
  datatype Consumer = Consumer(
    generation: nat, connected: bool, hasChannel: bool, returned: set<string>,
    pending: map<nat, Forward>, published: nat, commands: seq<Command>,
    reconnectPending: bool, closing: bool)

  type Effect = (Consumer, seq<Frame>)

  const INITIAL := Consumer(0, false, false, {}, map[], 0, [], false, false)

  // ----- message identifiers -----

  function KindPrefix(kind: Kind): (s: string)
    ensures '-' !in s
  {
    match kind case ToRetry => "retry" case ToDeadLetter => "dead"
  }

  function ForwardId(kind: Kind, generation: nat, tag: nat, count: nat): string {
    KindPrefix(kind) + "-" + (Decimal.Print(generation) + "-" + (Decimal.Print(tag) + "-" + Decimal.Print(count)))
  }

  lemma ForwardIdInjective(k1: Kind, g1: nat, t1: nat, c1: nat, k2: Kind, g2: nat, t2: nat, c2: nat)
    requires ForwardId(k1, g1, t1, c1) == ForwardId(k2, g2, t2, c2)
    ensures k1 == k2 && g1 == g2 && t1 == t2 && c1 == c2
  {
    var tail1, tail2 := Decimal.Print(t1) + "-" + Decimal.Print(c1), Decimal.Print(t2) + "-" + Decimal.Print(c2);
    var rest1, rest2 := Decimal.Print(g1) + "-" + tail1, Decimal.Print(g2) + "-" + tail2;
    Decimal.SplitAtSeparator(KindPrefix(k1), rest1, KindPrefix(k2), rest2, '-');
    Decimal.SplitAtSeparator(Decimal.Print(g1), tail1, Decimal.Print(g2), tail2, '-');
    Decimal.SplitAtSeparator(Decimal.Print(t1), Decimal.Print(c1), Decimal.Print(t2), Decimal.Print(c2), '-');
    assert k1 != k2 ==> |KindPrefix(k1)| != |KindPrefix(k2)|;
    Decimal.PrintInjective(g1, g2);
    Decimal.PrintInjective(t1, t2);
    Decimal.PrintInjective(c1, c2);
  }

  // ----- specification of the steps -----

  predicate IsCurrent(c: Consumer, delivery: DeliveryContext) {
    delivery.generation == c.generation && c.hasChannel && c.connected
  }

  function Recover(c: Consumer, delivery: DeliveryContext): seq<Frame> {
    if IsCurrent(c, delivery) then [RequeueFrame(delivery.tag)] else []
  }

  function ClampExpiration(ms: nat): (r: nat)
    ensures 1 <= r <= 86400000
    ensures 1 <= ms <= 86400000 ==> r == ms
  {
    if ms < 1 then 1 else if ms > 86400000 then 86400000 else ms
  }

  function MakeForward(kind: Kind, delivery: DeliveryContext, body: string, retryAfterMs: nat, count: nat): Forward {
    Forward(kind, delivery, body, count,
            if kind.ToRetry? then ClampExpiration(retryAfterMs) else 0,
            ForwardId(kind, delivery.generation, delivery.tag, count))
  }

  function Execute(c: Consumer, command: Command): Effect {
    if !IsCurrent(c, command.delivery) then (c, [])
    else
      match command
      case AckCommand(d) => (c, [AckFrame(d.tag)])
      case RequeueCommand(d) => (c, [RequeueFrame(d.tag)])
      case ForwardCommand(kind, d, body, ms, count) =>
        var f := MakeForward(kind, d, body, ms, count);
        (c.(pending := c.pending[c.published := f], published := c.published + 1),
         [PublishFrame(c.published, f)])
  }

  function ExecuteAll(c: Consumer, commands: seq<Command>): Effect
    decreases |commands|
  {
    if commands == [] then (c, [])
    else
      var (c1, f1) := Execute(c, commands[0]);
      var (c2, f2) := ExecuteAll(c1, commands[1..]);
      (c2, f1 + f2)
  }

  /** What the caller of a forward is told through its callback. */
  datatype Notice = Notice(ok: bool, reason: string)

  function Refusal(c: Consumer, command: Command): seq<Notice> {
    if command.ForwardCommand? && !IsCurrent(c, command.delivery) then [Notice(false, "NOT_CONNECTED")] else []
  }

  function Refusals(c: Consumer, commands: seq<Command>): seq<Notice>
    decreases |commands|
  {
    if commands == [] then [] else Refusal(c, commands[0]) + Refusals(Execute(c, commands[0]).0, commands[1..])
  }

  lemma RefusalsFirst(c: Consumer, commands: seq<Command>, told: seq<Notice>)
    requires commands != []
    ensures told + Refusals(c, commands)
         == (told + Refusal(c, commands[0])) + Refusals(Execute(c, commands[0]).0, commands[1..])
  {
    var a, b := Refusal(c, commands[0]), Refusals(Execute(c, commands[0]).0, commands[1..]);
    assert told + (a + b) == (told + a) + b;
  }

  /** Told of a confirm: routed, or handed back. */
  function Verdict(c: Consumer, seqno: nat): seq<Notice> {
    if seqno !in c.pending then []
    else if c.pending[seqno].id !in c.returned then [Notice(true, "")] else [Notice(false, "UNROUTABLE")]
  }

  lemma ExecuteFirst(c: Consumer, commands: seq<Command>, done: seq<Frame>)
    requires commands != []
    ensures var (c1, f1) := Execute(c, commands[0]);
            && ExecuteAll(c, commands).0 == ExecuteAll(c1, commands[1..]).0
            && done + ExecuteAll(c, commands).1 == (done + f1) + ExecuteAll(c1, commands[1..]).1
  {
    var (c1, f1) := Execute(c, commands[0]);
    Regroup(done, f1, ExecuteAll(c1, commands[1..]).1);
  }

  lemma Regroup(a: seq<Frame>, b: seq<Frame>, c: seq<Frame>)
    ensures a + (b + c) == (a + b) + c
  {
  }

  /** The broker confirmed publication `seqno`: the verdict is "routed" unless its id was returned. */
  function OnConfirm(c: Consumer, seqno: nat): Effect {
    if seqno !in c.pending then (c, [])
    else
      var f := c.pending[seqno];
      var c' := c.(pending := c.pending - {seqno}, returned := c.returned - {f.id});
      if f.id !in c.returned
      then (c', if IsCurrent(c', f.delivery) then [AckFrame(f.delivery.tag)] else [])
      else (c', Recover(c', f.delivery))
  }

  /** A negative confirm, or an error reported for one publication. */
  function OnPublishFailure(c: Consumer, seqno: nat): Effect {
    if seqno !in c.pending then (c, [])
    else
      var c' := c.(pending := c.pending - {seqno});
      (c', Recover(c', c.pending[seqno].delivery))
  }

  function OnReturned(c: Consumer, id: string): Consumer {
    c.(returned := c.returned + {id})
  }

  function ScheduleReconnect(c: Consumer): Consumer {
    if c.closing || c.reconnectPending then c else c.(reconnectPending := true)
  }

  function OnChannelError(c: Consumer): Consumer {
    ScheduleReconnect(c.(connected := false))
  }

  function InitializeChannel(c: Consumer): Consumer {
    c.(generation := c.generation + 1, hasChannel := true, pending := map[], published := 0)
  }

  function OnReconnectTimer(c: Consumer): Consumer {
    var c' := c.(reconnectPending := false);
    if c.closing then c' else InitializeChannel(c')
  }

  function OnReady(c: Consumer, generation: nat): Consumer {
    if c.generation == generation then c.(connected := true) else c
  }

  function Post(c: Consumer, command: Command): Consumer {
    if c.closing then c else c.(commands := c.commands + [command])
  }

  /** Close is two steps: any thread clears the connected flag, and a command stops the loop. */
  function Disconnect(c: Consumer): Consumer {
    c.(connected := false)
  }

  function StopLoop(c: Consumer): Consumer {
    c.(closing := true)
  }

  /** Running the head command alone, and doing so `n` times. */
  function ExecuteHead(c: Consumer): Effect {
    if c.commands == [] then (c, []) else Execute(c.(commands := c.commands[1..]), c.commands[0])
  }

  function ExecuteHeads(c: Consumer, n: nat): Effect
    decreases n
  {
    if n == 0 then (c, [])
    else
      var (c1, f1) := ExecuteHead(c);
      var (c2, f2) := ExecuteHeads(c1, n - 1);
      (c2, f1 + f2)
  }

  /** Draining the whole command queue is running its head once per queued command, and commands
      posted meanwhile (`later`) stay queued behind: single-command steps lose no behaviour. */
  lemma {:induction false} DrainIsHeadSteps(c: Consumer, later: seq<Command>)
    ensures ExecuteHeads(c.(commands := c.commands + later), |c.commands|)
         == ExecuteAll(c.(commands := later), c.commands)
    decreases |c.commands|
  {
    if c.commands == [] {
      assert c.commands + later == later;
    } else {
      var all := c.commands + later;
      assert all[1..] == c.commands[1..] + later && all[0] == c.commands[0];
      var start := c.(commands := later);
      var (c1, f1) := Execute(start, c.commands[0]);
      assert ExecuteHead(c.(commands := all)) == (c1.(commands := c.commands[1..] + later), f1);
      DrainIsHeadSteps(c1.(commands := c.commands[1..]), later);
      assert c1.(commands := later) == c1;
    }
  }

  // ----- the consumer object -----

  class Client {
    var generation: nat
    var connected: bool
    var hasChannel: bool
    var returned: set<string>
    var pending: map<nat, Forward>
    var published: nat
    var commands: seq<Command>
    var reconnectPending: bool
    var closing: bool
    /** Frames written to the live channel object, oldest first. */
    var wire: seq<Frame>

    ghost function View(): Consumer
      reads this
    {
      Consumer(generation, connected, hasChannel, returned, pending, published, commands, reconnectPending, closing)
    }

    constructor ()
      ensures View() == INITIAL && wire == []
    {
      generation, connected, hasChannel, returned := 0, false, false, {};
      pending, published, commands := map[], 0, [];
      reconnectPending, closing, wire := false, false, [];
    }

    predicate Current(delivery: DeliveryContext)
      reads this
    {
      delivery.generation == generation && hasChannel && connected
    }

    method PostCommand(command: Command) returns (accepted: bool)
      modifies this`commands
      ensures View() == Post(old(View()), command)
      ensures accepted == !closing
    {
      if closing { return false; }
      commands := commands + [command];
      return true;
    }

    method RecoverForwardFailure(delivery: DeliveryContext)
      modifies this`wire
      ensures wire == old(wire) + Recover(View(), delivery)
    {
      if Current(delivery) {
        wire := wire + [RequeueFrame(delivery.tag)];
      }
    }

    method Run(command: Command) returns (told: seq<Notice>)
      modifies this`wire, this`pending, this`published
      ensures View() == Execute(old(View()), command).0
      ensures wire == old(wire) + Execute(old(View()), command).1
      ensures told == Refusal(old(View()), command)
    {
      told := [];
      if Current(command.delivery) {
        match command {
          case AckCommand(d) =>
            wire := wire + [AckFrame(d.tag)];
          case RequeueCommand(d) =>
            wire := wire + [RequeueFrame(d.tag)];
          case ForwardCommand(kind, d, body, ms, count) =>
            var f := MakeForward(kind, d, body, ms, count);
            wire := wire + [PublishFrame(published, f)];
            pending := pending[published := f];
            published := published + 1;
        }
      } else if command.ForwardCommand? {
        told := [Notice(false, "NOT_CONNECTED")];
      }
    }

    /** Swaps the queue out and runs what was in it, in order. */
    method DrainCommands() returns (told: seq<Notice>)
      modifies this`wire, this`pending, this`published, this`commands
      ensures told == Refusals(old(View()).(commands := []), old(commands))
      ensures View() == ExecuteAll(old(View()).(commands := []), old(commands)).0
      ensures wire == old(wire) + ExecuteAll(old(View()).(commands := []), old(commands)).1
    {
      var queue := commands;
      commands := [];
      ghost var goal := ExecuteAll(View(), queue);
      ghost var done: seq<Frame> := [];
      ghost var refusals := Refusals(View(), queue);
      told := [];
      while queue != []
        invariant wire == old(wire) + done
        invariant told + Refusals(View(), queue) == refusals
        invariant ExecuteAll(View(), queue).0 == goal.0
        invariant done + ExecuteAll(View(), queue).1 == goal.1
        decreases |queue|
      {
        ExecuteFirst(View(), queue, done);
        RefusalsFirst(View(), queue, told);
        done := done + Execute(View(), queue[0]).1;
        var refusal := Run(queue[0]);
        told := told + refusal;
        queue := queue[1..];
      }
    }

    method Confirmed(seqno: nat) returns (told: seq<Notice>)
      modifies this`wire, this`pending, this`returned
      ensures View() == OnConfirm(old(View()), seqno).0
      ensures wire == old(wire) + OnConfirm(old(View()), seqno).1
      ensures told == Verdict(old(View()), seqno)
    {
      told := [];
      if seqno in pending {
        var f := pending[seqno];
        var routed := f.id !in returned;
        pending := pending - {seqno};
        returned := returned - {f.id};
        if routed && Current(f.delivery) {
          wire := wire + [AckFrame(f.delivery.tag)];
        } else if !routed {
          RecoverForwardFailure(f.delivery);
        }
        told := [Notice(routed, if routed then "" else "UNROUTABLE")];
      }
    }

    /** A nack, or an error with or without a text. */
    method PublishFailed(seqno: nat, nacked: bool, error: Option<string>) returns (told: seq<Notice>)
      modifies this`wire, this`pending
      ensures View() == OnPublishFailure(old(View()), seqno).0
      ensures wire == old(wire) + OnPublishFailure(old(View()), seqno).1
      ensures seqno !in old(pending) ==> told == []
      ensures seqno in old(pending) ==>
                told == [Notice(false, if nacked then "NACK" else if error.Some? then error.value else "PUBLISH_ERROR")]
    {
      told := [];
      if seqno in pending {
        var delivery := pending[seqno].delivery;
        pending := pending - {seqno};
        RecoverForwardFailure(delivery);
        var text := if error.Some? then error.value else "PUBLISH_ERROR";
        told := [Notice(false, if nacked then "NACK" else text)];
      }
    }

    method MessageReturned(id: string)
      modifies this`returned
      ensures View() == OnReturned(old(View()), id)
    {
      returned := returned + {id};
    }

    /** The error handler is told the error's text, or a standard one. */
    method ChannelFailed(error: Option<string>) returns (message: string)
      modifies this`connected, this`reconnectPending
      ensures View() == OnChannelError(old(View()))
      ensures message == if error.Some? then error.value else "MQ_CHANNEL_ERROR"
    {
      connected := false;
      message := if error.Some? then error.value else "MQ_CHANNEL_ERROR";
      if !closing && !reconnectPending {
        reconnectPending := true;
      }
    }

    method Initialize()
      modifies this`generation, this`hasChannel, this`pending, this`published, this`wire
      ensures View() == InitializeChannel(old(View())) && wire == []
    {
      generation := generation + 1;
      hasChannel := true;
      pending, published, wire := map[], 0, [];
    }

    method ReconnectTimerFired()
      modifies this`generation, this`hasChannel, this`pending, this`published, this`wire, this`reconnectPending
      ensures View() == OnReconnectTimer(old(View()))
      ensures wire == if old(closing) then old(wire) else []
    {
      reconnectPending := false;
      if !closing {
        Initialize();
      }
    }

    method ChannelReady(readyGeneration: nat)
      modifies this`connected
      ensures View() == OnReady(old(View()), readyGeneration)
    {
      if generation == readyGeneration {
        connected := true;
      }
    }

    method ClearConnected()
      modifies this`connected
      ensures View() == Disconnect(old(View()))
    {
      connected := false;
    }

    method RunCloseCommand()
      modifies this`closing
      ensures View() == StopLoop(old(View()))
    {
      closing := true;
    }
  }
}
