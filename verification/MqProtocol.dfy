/**
 The consumer of module MqConsumer together with the broker it talks to, as a step machine.

 A message copy is an entry of `copies`; its index orders copies by creation. `origin` is the
 index of the copy the producer published, so a retry or dead-letter forward shares the origin
 of the delivery it was made from. Every channel the consumer ever opened stays in `channels`,
 indexed by generation (entry 0 is a closed placeholder): the broker may still process frames
 of a channel the consumer has already given up.

 Frames and events in flight are sets: they may overtake one another. The one ordering that is
 kept is the publisher-confirm rule that a return is taken before its confirm.

 `phases`, `sent` and `settles` are histories: steps extend them and never branch on them.
 */
module MqProtocol {
  import opened MqConsumer

  datatype Place =
    | MainQueue
    | RetryQueue
    | DeadQueue
    | Unacked(generation: nat, tag: nat)
    | Settled   // acknowledged to the broker, which has deleted it
    | Dropped   // lost by the broker before it was confirmed

  datatype Copy = Copy(origin: nat, body: string, count: nat, place: Place, confirmed: bool)

  /** What the broker decided about one publication. */
  datatype Fate = Routed(copy: nat) | Returned | Refused

  datatype Event = Delivered(tag: nat) | ReturnedEvent(id: string) | ConfirmedEvent(seqno: nat) | NackedEvent(seqno: nat)

  /** How far a delivery has got on its way through the consumer. */
  datatype Phase = OnTheWay | WithApplication | Queued | Forwarded(seqno: nat) | Finished

  datatype Channel = Channel(
    open: bool, consuming: bool, up: set<Frame>, down: set<Event>, deliveries: seq<nat>,
    phases: seq<Phase>, sent: seq<Forward>, fate: map<nat, Fate>, settles: seq<nat>)

  /** `todo`: deliveries handed to the application and not resolved yet.
      `acked`: origins for which the application called Ack. */
  datatype System = System(
    consumer: Consumer, copies: seq<Copy>, channels: seq<Channel>,
    todo: set<DeliveryContext>, acked: set<nat>)

  datatype Step =
    | Produce(body: string)
    | Expire(copy: nat)
    | Lose(copy: nat)
    | Deliver(generation: nat, copy: nat)
    | TakeSettle(generation: nat, frame: Frame)
    | TakePublish(generation: nat, frame: Frame, fate: Fate)
    | EmitConfirm(generation: nat, seqno: nat)
    | EmitNack(generation: nat, seqno: nat)
    | CloseChannel(generation: nat)
    | Receive(event: Event)
    | PublishError(seqno: nat)
    | Resolve(command: Command)
    | RunCommand
    | ChannelError
    | Ready(generation: nat)
    | Start
    | Reconnect
    | ClearConnected
    | StopAccepting

  const CLOSED := Channel(false, false, {}, {}, [], [], [], map[], [])
  const FRESH := CLOSED.(open := true)
  const START := System(INITIAL, [], [CLOSED], {}, {})

  // ----- pieces of the steps -----

  function Move(copies: seq<Copy>, c: nat, place: Place): seq<Copy>
    requires c < |copies|
  {
    copies[c := copies[c].(place := place)]
  }

  function EmitFrame(ch: Channel, frame: Frame): Channel {
    var up := if ch.open then ch.up + {frame} else ch.up;
    if frame.PublishFrame? then ch.(up := up, sent := ch.sent + [frame.forward])
    else ch.(up := up, settles := ch.settles + [frame.tag])
  }

  function Emit(ch: Channel, frames: seq<Frame>): Channel
    decreases |frames|
  {
    if frames == [] then ch else Emit(EmitFrame(ch, frames[0]), frames[1..])
  }

  /** The consumer changes state and writes frames to its live channel. */
  function WithEffect(s: System, effect: Effect): System
    requires effect.0.generation < |s.channels|
  {
    var g := effect.0.generation;
    s.(consumer := effect.0, channels := s.channels[g := Emit(s.channels[g], effect.1)])
  }

  /** The context names a delivery the broker really made on that channel. */
  predicate Known(s: System, d: DeliveryContext) {
    d.generation < |s.channels| &&
    d.tag < |s.channels[d.generation].deliveries| == |s.channels[d.generation].phases|
  }

  function WithPhase(s: System, d: DeliveryContext, phase: Phase): System {
    if !Known(s, d) then s
    else
      var ch := s.channels[d.generation];
      s.(channels := s.channels[d.generation := ch.(phases := ch.phases[d.tag := phase])])
  }

  /** The copy a delivery context names. */
  function CopyOf(s: System, d: DeliveryContext): nat {
    if Known(s, d) then s.channels[d.generation].deliveries[d.tag] else |s.copies|
  }

  function OriginOf(s: System, d: DeliveryContext): nat {
    if CopyOf(s, d) < |s.copies| then s.copies[CopyOf(s, d)].origin else |s.copies|
  }

  /** Closing a channel puts its unacknowledged copies back into the main queue. */
  function Requeue(copies: seq<Copy>, g: nat): (r: seq<Copy>)
    ensures |r| == |copies|
    ensures forall c :: 0 <= c < |r| ==>
      r[c] == if copies[c].place.Unacked? && copies[c].place.generation == g
              then copies[c].(place := MainQueue) else copies[c]
  {
    if copies == [] then []
    else
      var last := copies[|copies| - 1];
      Requeue(copies[..|copies| - 1], g) +
      [if last.place.Unacked? && last.place.generation == g then last.(place := MainQueue) else last]
  }

  function Destination(kind: Kind): Place {
    match kind case ToRetry => RetryQueue case ToDeadLetter => DeadQueue
  }

  // ----- the steps -----

  predicate Enabled(s: System, step: Step) {
    match step
    case Produce(_) => true
    case Expire(c) => c < |s.copies| && s.copies[c].place == RetryQueue
    case Lose(c) => c < |s.copies| && !s.copies[c].confirmed && s.copies[c].place in {MainQueue, RetryQueue, DeadQueue}
    case Deliver(g, c) =>
      g < |s.channels| && s.channels[g].open && s.channels[g].consuming &&
      c < |s.copies| && s.copies[c].place == MainQueue
    case TakeSettle(g, frame) =>
      g < |s.channels| && !frame.PublishFrame? && frame in s.channels[g].up
    case TakePublish(g, frame, fate) =>
      g < |s.channels| && frame.PublishFrame? && frame in s.channels[g].up &&
      (fate.Routed? ==> fate.copy == |s.copies|)
    case EmitConfirm(g, n) =>
      g < |s.channels| && s.channels[g].open && n in s.channels[g].fate &&
      (match s.channels[g].fate[n]
       case Routed(c) => c < |s.copies| && s.copies[c].place != Dropped
       case Returned => true
       case Refused => false)
    case EmitNack(g, n) => g < |s.channels| && s.channels[g].open && n in s.channels[g].fate
    case CloseChannel(g) => g < |s.channels| && s.channels[g].open
    case Receive(e) =>
      var g := s.consumer.generation;
      g < |s.channels| && e in s.channels[g].down &&
      (e.ConfirmedEvent? ==> ReturnTaken(s.channels[g], e.seqno))
    case PublishError(n) => n in s.consumer.pending && s.consumer.generation < |s.channels|
    case Resolve(command) =>
      command.delivery in s.todo &&
      (command.ForwardCommand? && CopyOf(s, command.delivery) < |s.copies| ==>
         command.body == s.copies[CopyOf(s, command.delivery)].body)
    case RunCommand =>
      s.consumer.commands != [] && s.consumer.generation < |s.channels|
    case ChannelError => s.consumer.hasChannel
    case Ready(g) => g < |s.channels|
    case Start => s.consumer.generation == 0
    case Reconnect => s.consumer.reconnectPending
    case ClearConnected => true
    case StopAccepting => true
  }

  /** A confirm is taken only after the return of the same publication, if there was one. */
  predicate ReturnTaken(ch: Channel, n: nat) {
    n in ch.fate && ch.fate[n].Returned? && n < |ch.sent| ==> ReturnedEvent(ch.sent[n].id) !in ch.down
  }

  function Apply(s: System, step: Step): System
    requires Enabled(s, step)
  {
    match step
    case Produce(body) =>
      s.(copies := s.copies + [Copy(|s.copies|, body, 0, MainQueue, true)])
    case Expire(c) =>
      s.(copies := Move(s.copies, c, MainQueue))
    case Lose(c) =>
      s.(copies := Move(s.copies, c, Dropped))
    case Deliver(g, c) =>
      var ch := s.channels[g];
      var tag := |ch.deliveries|;
      s.(copies := Move(s.copies, c, Unacked(g, tag)),
         channels := s.channels[g := ch.(deliveries := ch.deliveries + [c], phases := ch.phases + [OnTheWay],
                                         down := ch.down + {Delivered(tag)})])
    case TakeSettle(g, frame) =>
      ApplySettle(s, g, frame)
    case TakePublish(g, frame, fate) =>
      ApplyPublish(s, g, frame, fate)
    case EmitConfirm(g, n) =>
      var ch := s.channels[g];
      var s' := s.(channels := s.channels[g := ch.(down := ch.down + {ConfirmedEvent(n)})]);
      if ch.fate[n].Routed? then s'.(copies := s.copies[ch.fate[n].copy := s.copies[ch.fate[n].copy].(confirmed := true)])
      else s'
    case EmitNack(g, n) =>
      var ch := s.channels[g];
      s.(channels := s.channels[g := ch.(down := ch.down + {NackedEvent(n)})])
    case CloseChannel(g) =>
      ApplyClose(s, g)
    case Receive(e) =>
      ApplyReceive(s, e)
    case PublishError(n) =>
      WithEffect(s, OnPublishFailure(s.consumer, n))
    case Resolve(command) =>
      var d := command.delivery;
      var s' := WithPhase(s, d, if s.consumer.closing then Finished else Queued);
      s'.(consumer := Post(s.consumer, command), todo := s.todo - {d},
          acked := if command.AckCommand? then s.acked + {OriginOf(s, d)} else s.acked)
    case RunCommand =>
      var command := s.consumer.commands[0];
      var phase := if IsCurrent(s.consumer, command.delivery) && command.ForwardCommand?
                   then Forwarded(s.consumer.published) else Finished;
      WithPhase(WithEffect(s, ExecuteHead(s.consumer)), command.delivery, phase)
    case ChannelError =>
      s.(consumer := OnChannelError(s.consumer))
    case Ready(g) =>
      s.(consumer := OnReady(s.consumer, g),
         channels := if g == s.consumer.generation then s.channels[g := s.channels[g].(consuming := true)] else s.channels)
    case Start =>
      s.(consumer := InitializeChannel(s.consumer), channels := s.channels + [FRESH])
    case Reconnect =>
      s.(consumer := OnReconnectTimer(s.consumer),
         channels := if s.consumer.closing then s.channels else s.channels + [FRESH])
    case ClearConnected =>
      s.(consumer := Disconnect(s.consumer))
    case StopAccepting =>
      s.(consumer := StopLoop(s.consumer))
  }

  predicate Outstanding(s: System, g: nat, tag: nat)
    requires g < |s.channels|
  {
    var ch := s.channels[g];
    tag < |ch.deliveries| && ch.deliveries[tag] < |s.copies| && s.copies[ch.deliveries[tag]].place == Unacked(g, tag)
  }

  /** basic.ack and basic.reject: a tag that is not outstanding on the channel is a protocol error,
      which closes the channel (AMQP 0-9-1, sections 1.8.3.13 and 1.8.3.14). */
  function ApplySettle(s: System, g: nat, frame: Frame): System
    requires Enabled(s, TakeSettle(g, frame))
  {
    var ch := s.channels[g];
    if !Outstanding(s, g, frame.tag) then ApplyClose(s, g)
    else
      var c := ch.deliveries[frame.tag];
      s.(copies := Move(s.copies, c, if frame.AckFrame? then Settled else MainQueue),
         channels := s.channels[g := ch.(up := ch.up - {frame})])
  }

  function ApplyPublish(s: System, g: nat, frame: Frame, fate: Fate): System
    requires Enabled(s, TakePublish(g, frame, fate))
  {
    var ch := s.channels[g];
    var f := frame.forward;
    var ch' := ch.(up := ch.up - {frame}, fate := ch.fate[frame.seqno := fate],
                   down := if fate.Returned? then ch.down + {ReturnedEvent(f.id)} else ch.down);
    s.(copies := if fate.Routed?
                 then s.copies + [Copy(OriginOf(s, f.delivery), f.body, f.count, Destination(f.kind), false)]
                 else s.copies,
       channels := s.channels[g := ch'])
  }

  function ApplyClose(s: System, g: nat): System
    requires g < |s.channels|
  {
    s.(copies := Requeue(s.copies, g), channels := s.channels[g := s.channels[g].(open := false, up := {})])
  }

  function ApplyReceive(s: System, e: Event): System
    requires Enabled(s, Receive(e))
  {
    var g := s.consumer.generation;
    var ch := s.channels[g];
    var s' := s.(channels := s.channels[g := ch.(down := ch.down - {e})]);
    match e
    case Delivered(tag) =>
      var d := DeliveryContext(tag, g);
      WithPhase(s'.(todo := s.todo + {d}), d, WithApplication)
    case ReturnedEvent(id) => s'.(consumer := OnReturned(s.consumer, id))
    case ConfirmedEvent(n) => WithEffect(s', OnConfirm(s.consumer, n))
    case NackedEvent(n) => WithEffect(s', OnPublishFailure(s.consumer, n))
  }

  // ----- runs -----

  ghost predicate IsRun(s: System, steps: seq<Step>)
    decreases |steps|
  {
    steps == [] || (Enabled(s, steps[0]) && IsRun(Apply(s, steps[0]), steps[1..]))
  }

  ghost function After(s: System, steps: seq<Step>): System
    requires IsRun(s, steps)
    decreases |steps|
  {
    if steps == [] then s else After(Apply(s, steps[0]), steps[1..])
  }
}
