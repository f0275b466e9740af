/** No delivery of the live channel is forgotten: in every run each of them is on its way, with the application, in the
    command queue, behind a pending publication or behind a travelling ack or reject, or was given up because the
    consumer was disconnected when its turn came. */
module MqTracking {
  import opened MqConsumer
  import opened MqProtocol
  import opened MqSafety
  import MqGuarantees

  function Live(s: System): Channel
    requires s.consumer.generation < |s.channels|
  {
    s.channels[s.consumer.generation]
  }

  predicate HasCommand(commands: seq<Command>, d: DeliveryContext) {
    exists i :: 0 <= i < |commands| && commands[i].delivery == d
  }

  /** Delivery t of a channel is where its phase says. */
  ghost predicate Accounted(ch: Channel, g: nat, todo: set<DeliveryContext>, commands: seq<Command>,
                            pending: map<nat, Forward>, t: nat)
    requires t < |ch.phases|
  {
    match ch.phases[t]
    case OnTheWay => Delivered(t) in ch.down
    case WithApplication => DeliveryContext(t, g) in todo
    case Queued => HasCommand(commands, DeliveryContext(t, g))
    case Forwarded(n) => n in pending || t in ch.settles
    case Finished => t in ch.settles
  }

  ghost predicate AllAccounted(ch: Channel, g: nat, todo: set<DeliveryContext>, commands: seq<Command>,
                               pending: map<nat, Forward>, gone: set<DeliveryContext>) {
    forall t :: 0 <= t < |ch.phases| ==> Accounted(ch, g, todo, commands, pending, t) || DeliveryContext(t, g) in gone
  }

  ghost predicate ForwardsMatch(ch: Channel) {
    forall t :: 0 <= t < |ch.phases| && ch.phases[t].Forwarded? ==>
      ch.phases[t].seqno < |ch.sent| && ch.sent[ch.phases[t].seqno].delivery.tag == t
  }

  predicate Holds(copies: seq<Copy>, ch: Channel, g: nat, t: nat) {
    ch.open && t < |ch.deliveries| && ch.deliveries[t] < |copies| && copies[ch.deliveries[t]].place == Unacked(g, t)
  }

  /** What was settled and is still held is settled by a frame under way. */
  ghost predicate Travelling(copies: seq<Copy>, ch: Channel, g: nat) {
    forall t :: t in ch.settles && Holds(copies, ch, g, t) ==> AckFrame(t) in ch.up || RequeueFrame(t) in ch.up
  }

  ghost predicate Tracked(s: System, gone: set<DeliveryContext>) {
    s.consumer.generation < |s.channels| &&
    var g, ch := s.consumer.generation, Live(s);
    && AllAccounted(ch, g, s.todo, s.consumer.commands, s.consumer.pending, gone)
    && ForwardsMatch(ch) && Travelling(s.copies, ch, g)
  }

  /** The deliveries given up in a step: their turn came and the consumer was closing or not connected. */
  function Drops(s: System, step: Step): set<DeliveryContext> {
    match step
    case Resolve(command) => if s.consumer.closing then {command.delivery} else {}
    case RunCommand =>
      if s.consumer.commands != [] && !IsCurrent(s.consumer, s.consumer.commands[0].delivery)
      then {s.consumer.commands[0].delivery} else {}
    case Receive(e) => if e.ConfirmedEvent? || e.NackedEvent? then Unanswered(s.consumer, e.seqno) else {}
    case PublishError(n) => Unanswered(s.consumer, n)
    case _ => {}
  }

  function Unanswered(c: Consumer, n: nat): set<DeliveryContext> {
    if n in c.pending && !IsCurrent(c, c.pending[n].delivery) then {c.pending[n].delivery} else {}
  }

  ghost function GivenUp(s: System, steps: seq<Step>): set<DeliveryContext>
    requires IsRun(s, steps)
    decreases |steps|
  {
    if steps == [] then {} else Drops(s, steps[0]) + GivenUp(Apply(s, steps[0]), steps[1..])
  }

  // ----- the broker's steps -----

  /** The channel as the tracking sees it: new deliveries are on their way. */
  ghost predicate Continues(copies: seq<Copy>, ch: Channel, copies': seq<Copy>, ch': Channel, g: nat) {
    && |ch.phases| <= |ch'.phases| && (forall t :: 0 <= t < |ch.phases| ==> ch'.phases[t] == ch.phases[t])
    && (forall t :: |ch.phases| <= t < |ch'.phases| ==> ch'.phases[t] == OnTheWay && Delivered(t) in ch'.down)
    && (forall e :: e in ch.down ==> e in ch'.down) && ch'.settles == ch.settles && ch'.sent == ch.sent
    && (forall t: nat :: t in ch.settles && Holds(copies', ch', g, t) ==>
          Holds(copies, ch, g, t) && (AckFrame(t) in ch.up ==> AckFrame(t) in ch'.up) &&
          (RequeueFrame(t) in ch.up ==> RequeueFrame(t) in ch'.up))
  }

  lemma ContinuesTracked(s: System, s': System, gone: set<DeliveryContext>)
    requires Tracked(s, gone) && s'.consumer.generation == s.consumer.generation < |s'.channels|
    requires s'.todo == s.todo && s'.consumer.commands == s.consumer.commands && s'.consumer.pending == s.consumer.pending
    requires Continues(s.copies, Live(s), s'.copies, Live(s'), s.consumer.generation)
    ensures Tracked(s', gone)
  {
  }

  lemma SettlesAreDelivered(s: System, g: nat)
    requires Inv(s) && g < |s.channels|
    ensures var ch := s.channels[g]; |ch.phases| == |ch.deliveries| && forall t :: t in ch.settles ==> t < |ch.deliveries|
  {
    assert ChannelOk(g, s.channels[g], s.copies, s.acked);
  }

  lemma CopiesContinue(s: System, copies': seq<Copy>)
    requires s.consumer.generation < |s.channels|
    requires forall c :: 0 <= c < |copies'| && copies'[c].place.Unacked? ==> c < |s.copies| && s.copies[c].place == copies'[c].place
    ensures Continues(s.copies, Live(s), copies', Live(s), s.consumer.generation)
  {
  }

  lemma DeliverContinues(s: System, g: nat, c: nat)
    requires Inv(s) && Enabled(s, Deliver(g, c))
    ensures var s' := Apply(s, Deliver(g, c)); Continues(s.copies, Live(s), s'.copies, Live(s'), s.consumer.generation)
  {
    SettlesAreDelivered(s, s.consumer.generation);
    SettlesAreDelivered(s, g);
  }

  lemma SettledContinues(s: System, g: nat, frame: Frame, place: Place)
    requires s.consumer.generation < |s.channels| && g < |s.channels| && !place.Unacked?
    requires !frame.PublishFrame? && Outstanding(s, g, frame.tag)
    ensures var ch := s.channels[g];
            var copies', channels' := Move(s.copies, ch.deliveries[frame.tag], place), s.channels[g := ch.(up := ch.up - {frame})];
            Continues(s.copies, Live(s), copies', channels'[s.consumer.generation], s.consumer.generation)
  {
  }

  lemma SettleContinues(s: System, g: nat, frame: Frame)
    requires Inv(s) && Enabled(s, TakeSettle(g, frame))
    ensures var s' := Apply(s, TakeSettle(g, frame)); Continues(s.copies, Live(s), s'.copies, Live(s'), s.consumer.generation)
  {
    SettleIsOutstanding(s, g, frame);
    SettledContinues(s, g, frame, if frame.AckFrame? then Settled else MainQueue);
  }

  lemma PublishContinues(s: System, g: nat, frame: Frame, fate: Fate)
    requires s.consumer.generation < |s.channels| && Enabled(s, TakePublish(g, frame, fate))
    requires forall t :: 0 <= t < |Live(s).deliveries| ==> Live(s).deliveries[t] < |s.copies|
    ensures var s' := ApplyPublish(s, g, frame, fate);
            && s'.consumer == s.consumer && s.consumer.generation < |s'.channels|
            && Continues(s.copies, Live(s), s'.copies, Live(s'), s.consumer.generation)
  {
  }

  lemma DeliveriesExist(s: System)
    requires Inv(s)
    ensures forall t :: 0 <= t < |Live(s).deliveries| ==> Live(s).deliveries[t] < |s.copies|
  {
    assert ChannelOk(s.consumer.generation, Live(s), s.copies, s.acked);
  }

  lemma CloseContinues(s: System, g: nat)
    requires s.consumer.generation < |s.channels| && g < |s.channels|
    ensures Continues(s.copies, Live(s), ApplyClose(s, g).copies, Live(ApplyClose(s, g)), s.consumer.generation)
  {
  }

  lemma NotifyContinues(s: System, step: Step)
    requires s.consumer.generation < |s.channels| && Enabled(s, step) && (step.EmitConfirm? || step.EmitNack?)
    ensures Continues(s.copies, Live(s), Apply(s, step).copies, Live(Apply(s, step)), s.consumer.generation)
  {
  }

  lemma BrokerLeavesConsumer(s: System, step: Step)
    requires Enabled(s, step) && OfBroker(step)
    ensures Apply(s, step).consumer == s.consumer && Apply(s, step).todo == s.todo
    ensures |Apply(s, step).channels| == |s.channels|
  {
  }

  lemma BrokerContinues(s: System, step: Step)
    requires Inv(s) && Enabled(s, step) && OfBroker(step) && s.consumer.generation < |Apply(s, step).channels|
    requires Apply(s, step).consumer == s.consumer
    ensures Continues(s.copies, Live(s), Apply(s, step).copies, Live(Apply(s, step)), s.consumer.generation)
  {
    match step {
      case Produce(body) => CopiesContinue(s, Apply(s, step).copies);
      case Expire(c) => CopiesContinue(s, Apply(s, step).copies);
      case Lose(c) => CopiesContinue(s, Apply(s, step).copies);
      case Deliver(g, c) => DeliverContinues(s, g, c);
      case TakeSettle(g, frame) => SettleContinues(s, g, frame);
      case TakePublish(g, frame, fate) =>
        DeliveriesExist(s);
        PublishContinues(s, g, frame, fate);
      case EmitConfirm(g, n) => NotifyContinues(s, step);
      case EmitNack(g, n) => NotifyContinues(s, step);
      case CloseChannel(g) => CloseContinues(s, g);
    }
  }

  lemma BrokerTracked(s: System, step: Step, gone: set<DeliveryContext>)
    requires Inv(s) && Enabled(s, step) && OfBroker(step) && Tracked(s, gone)
    ensures Tracked(Apply(s, step), gone)
  {
    BrokerLeavesConsumer(s, step);
    BrokerContinues(s, step);
    ContinuesTracked(s, Apply(s, step), gone);
  }

  // ----- answers -----

  /** Publication n is answered: its delivery is settled by a frame, or given up. */
  lemma AnswerTracked(copies: seq<Copy>, ch: Channel, ch': Channel, g: nat, todo: set<DeliveryContext>,
                      commands: seq<Command>, pending: map<nat, Forward>, n: nat, gone: set<DeliveryContext>)
    requires AllAccounted(ch, g, todo, commands, pending, gone) && ForwardsMatch(ch) && Travelling(copies, ch, g)
    requires n in pending && n < |ch.sent| && pending[n] == ch.sent[n] && pending[n].delivery.generation == g
    requires ch'.phases == ch.phases && ch'.sent == ch.sent && ch'.deliveries == ch.deliveries && ch'.open == ch.open
    requires forall t: nat :: Delivered(t) in ch.down ==> Delivered(t) in ch'.down
    requires forall t: nat :: t in ch.settles ==> t in ch'.settles
    requires forall frame :: frame in ch.up ==> frame in ch'.up
    requires var tag := ch.sent[n].delivery.tag;
             && (forall t: nat :: t in ch'.settles ==> t in ch.settles || t == tag)
             && (tag in ch'.settles ==> tag in ch.settles || !ch.open || AckFrame(tag) in ch'.up || RequeueFrame(tag) in ch'.up)
             && (tag in ch'.settles || pending[n].delivery in gone)
    ensures AllAccounted(ch', g, todo, commands, pending - {n}, gone) && ForwardsMatch(ch') && Travelling(copies, ch', g)
  {
    forall t | 0 <= t < |ch'.phases|
      ensures Accounted(ch', g, todo, commands, pending - {n}, t) || DeliveryContext(t, g) in gone
    {
      assert Accounted(ch, g, todo, commands, pending, t) || DeliveryContext(t, g) in gone;
    }
  }

  lemma Widened(s: System, gone: set<DeliveryContext>, more: set<DeliveryContext>)
    requires Tracked(s, gone)
    ensures Tracked(s, gone + more)
  {
  }

  lemma PendingIsOwn(s: System, n: nat)
    requires Inv(s) && n in s.consumer.pending
    ensures n < |Live(s).sent| && s.consumer.pending[n] == Live(s).sent[n]
    ensures s.consumer.pending[n].delivery.generation == s.consumer.generation
  {
    assert ChannelOk(s.consumer.generation, Live(s), s.copies, s.acked);
  }

  /** The channel after an answer's effect: at most one settling frame for the delivery behind it. */
  lemma EffectOnLive(ch: Channel, e: Event, frames: seq<Frame>, tag: nat)
    requires |frames| <= 1 && (|frames| == 1 ==> !frames[0].PublishFrame? && frames[0].tag == tag) && !e.Delivered?
    ensures var ch' := Emit(ch.(down := ch.down - {e}), frames);
            && ch'.phases == ch.phases && ch'.sent == ch.sent && ch'.deliveries == ch.deliveries && ch'.open == ch.open
            && (forall t: nat :: Delivered(t) in ch.down ==> Delivered(t) in ch'.down)
            && (forall t: nat :: t in ch'.settles <==> t in ch.settles || (t == tag && frames != []))
            && (forall frame :: frame in ch.up ==> frame in ch'.up)
            && (frames != [] && ch.open ==> AckFrame(tag) in ch'.up || RequeueFrame(tag) in ch'.up)
  {
    MqGuarantees.OneFrame(ch.(down := ch.down - {e}), frames);
  }

  lemma AnsweredTracked(s: System, e: Event, n: nat, effect: Effect, gone: set<DeliveryContext>)
    requires Inv(s) && Tracked(s, gone) && n in s.consumer.pending && !e.Delivered? && |effect.1| <= 1
    requires effect.0.generation == s.consumer.generation && effect.0.commands == s.consumer.commands
    requires effect.0.pending == s.consumer.pending - {n}
    requires |effect.1| == 1 ==> !effect.1[0].PublishFrame? && effect.1[0].tag == s.consumer.pending[n].delivery.tag
    requires IsCurrent(s.consumer, s.consumer.pending[n].delivery) ==> effect.1 != []
    ensures var g := s.consumer.generation;
            var s1 := s.(channels := s.channels[g := s.channels[g].(down := s.channels[g].down - {e})]);
            Tracked(WithEffect(s1, effect), gone + Unanswered(s.consumer, n))
  {
    var g, ch, tag := s.consumer.generation, Live(s), s.consumer.pending[n].delivery.tag;
    PendingIsOwn(s, n);
    Widened(s, gone, Unanswered(s.consumer, n));
    EffectOnLive(ch, e, effect.1, tag);
    var ch' := Emit(ch.(down := ch.down - {e}), effect.1);
    AnswerTracked(s.copies, ch, ch', g, s.todo, s.consumer.commands, s.consumer.pending, n, gone + Unanswered(s.consumer, n));
  }

  /** Taking an event that is no delivery and has no other effect. */
  lemma IgnoredTracked(s: System, c: Consumer, e: Event, gone: set<DeliveryContext>)
    requires Tracked(s, gone) && !e.Delivered? && c.generation == s.consumer.generation
    requires c.commands == s.consumer.commands && c.pending == s.consumer.pending
    ensures var g := s.consumer.generation;
            Tracked(s.(consumer := c, channels := s.channels[g := s.channels[g].(down := s.channels[g].down - {e})]), gone)
  {
  }

  function Without(s: System, e: Event): System
    requires s.consumer.generation < |s.channels|
  {
    var g := s.consumer.generation;
    s.(channels := s.channels[g := s.channels[g].(down := s.channels[g].down - {e})])
  }

  function Answer(c: Consumer, e: Event): Effect
    requires e.ConfirmedEvent? || e.NackedEvent?
  {
    if e.ConfirmedEvent? then OnConfirm(c, e.seqno) else OnPublishFailure(c, e.seqno)
  }

  lemma EventIs(s: System, e: Event)
    requires Enabled(s, Receive(e)) && (e.ConfirmedEvent? || e.NackedEvent?)
    ensures Apply(s, Receive(e)) == WithEffect(Without(s, e), Answer(s.consumer, e))
  {
  }

  lemma AnswerFrames(c: Consumer, e: Event)
    requires (e.ConfirmedEvent? || e.NackedEvent?) && e.seqno in c.pending
    ensures var effect, d := Answer(c, e), c.pending[e.seqno].delivery;
            && effect.0.generation == c.generation && effect.0.commands == c.commands && effect.0.pending == c.pending - {e.seqno}
            && |effect.1| <= 1 && (|effect.1| == 1 ==> !effect.1[0].PublishFrame? && effect.1[0].tag == d.tag)
            && (IsCurrent(c, d) ==> effect.1 != [])
  {
  }

  lemma UnknownIgnored(s: System, e: Event, gone: set<DeliveryContext>)
    requires Tracked(s, gone) && (e.ConfirmedEvent? || e.NackedEvent?) && e.seqno !in s.consumer.pending
    ensures Tracked(WithEffect(Without(s, e), Answer(s.consumer, e)), gone + Unanswered(s.consumer, e.seqno))
  {
    IgnoredTracked(s, s.consumer, e, gone);
    assert Without(s, e).(consumer := s.consumer) == Without(s, e);
    NoEffect(Without(s, e));
    Widened(Without(s, e), gone, {});
  }

  lemma EventAnswered(s: System, e: Event, gone: set<DeliveryContext>)
    requires Inv(s) && Tracked(s, gone) && Enabled(s, Receive(e)) && (e.ConfirmedEvent? || e.NackedEvent?)
    ensures Tracked(Apply(s, Receive(e)), gone + Drops(s, Receive(e)))
  {
    EventIs(s, e);
    if e.seqno in s.consumer.pending {
      AnswerFrames(s.consumer, e);
      AnsweredTracked(s, e, e.seqno, Answer(s.consumer, e), gone);
    } else {
      UnknownIgnored(s, e, gone);
    }
  }

  lemma ErrorAnswered(s: System, n: nat, gone: set<DeliveryContext>)
    requires Inv(s) && Tracked(s, gone) && Enabled(s, PublishError(n))
    ensures Tracked(Apply(s, PublishError(n)), gone + Drops(s, PublishError(n)))
  {
    var g, ch, effect := s.consumer.generation, Live(s), OnPublishFailure(s.consumer, n);
    var tag := s.consumer.pending[n].delivery.tag;
    PendingIsOwn(s, n);
    Widened(s, gone, Unanswered(s.consumer, n));
    MqGuarantees.OneFrame(ch, effect.1);
    AnswerTracked(s.copies, ch, Emit(ch, effect.1), g, s.todo, s.consumer.commands, s.consumer.pending, n,
                  gone + Unanswered(s.consumer, n));
  }

  // ----- arrivals, calls and commands -----

  lemma ArrivalIs(s: System, t: nat)
    requires Enabled(s, Receive(Delivered(t))) && Known(s, DeliveryContext(t, s.consumer.generation))
    ensures var s', ch, g := Apply(s, Receive(Delivered(t))), Live(s), s.consumer.generation;
            && s'.consumer == s.consumer && s'.copies == s.copies && s'.todo == s.todo + {DeliveryContext(t, g)}
            && g < |s'.channels| && Live(s') == ch.(down := ch.down - {Delivered(t)}, phases := ch.phases[t := WithApplication])
  {
  }

  lemma ArrivedAccounted(copies: seq<Copy>, ch: Channel, g: nat, todo: set<DeliveryContext>, commands: seq<Command>,
                         pending: map<nat, Forward>, gone: set<DeliveryContext>, t: nat)
    requires AllAccounted(ch, g, todo, commands, pending, gone) && ForwardsMatch(ch) && Travelling(copies, ch, g)
    requires t < |ch.phases| && ch.phases[t] == OnTheWay
    ensures var ch' := ch.(down := ch.down - {Delivered(t)}, phases := ch.phases[t := WithApplication]);
            && AllAccounted(ch', g, todo + {DeliveryContext(t, g)}, commands, pending, gone)
            && ForwardsMatch(ch') && Travelling(copies, ch', g)
  {
    var ch' := ch.(down := ch.down - {Delivered(t)}, phases := ch.phases[t := WithApplication]);
    forall u | 0 <= u < |ch'.phases|
      ensures Accounted(ch', g, todo + {DeliveryContext(t, g)}, commands, pending, u) || DeliveryContext(u, g) in gone
    {
      assert Accounted(ch, g, todo, commands, pending, u) || DeliveryContext(u, g) in gone;
    }
  }

  lemma ArrivalTracked(s: System, t: nat, gone: set<DeliveryContext>)
    requires Inv(s) && Tracked(s, gone) && Enabled(s, Receive(Delivered(t)))
    ensures Tracked(Apply(s, Receive(Delivered(t))), gone)
  {
    var g := s.consumer.generation;
    assert ChannelOk(g, Live(s), s.copies, s.acked);
    ArrivalIs(s, t);
    ArrivedAccounted(s.copies, Live(s), g, s.todo, s.consumer.commands, s.consumer.pending, gone, t);
  }

  lemma Appended(commands: seq<Command>, command: Command, d: DeliveryContext)
    ensures HasCommand(commands + [command], d) <==> HasCommand(commands, d) || command.delivery == d
  {
    if HasCommand(commands, d) {
      var i :| 0 <= i < |commands| && commands[i].delivery == d;
      assert (commands + [command])[i].delivery == d;
    }
    if command.delivery == d {
      assert (commands + [command])[|commands|].delivery == d;
    }
  }

  lemma ResolveIs(s: System, command: Command)
    requires Enabled(s, Resolve(command)) && Known(s, command.delivery) && s.consumer.generation < |s.channels|
    ensures var s', ch, g, d := Apply(s, Resolve(command)), Live(s), s.consumer.generation, command.delivery;
            && s'.consumer == Post(s.consumer, command) && s'.copies == s.copies && s'.todo == s.todo - {d}
            && g < |s'.channels| && s'.channels[g] == (if d.generation == g
                 then ch.(phases := ch.phases[d.tag := if s.consumer.closing then Finished else Queued]) else ch)
  {
  }

  lemma ResolvedAccounted(copies: seq<Copy>, ch: Channel, g: nat, todo: set<DeliveryContext>, commands: seq<Command>,
                          pending: map<nat, Forward>, gone: set<DeliveryContext>, command: Command, closing: bool)
    requires AllAccounted(ch, g, todo, commands, pending, gone) && ForwardsMatch(ch) && Travelling(copies, ch, g)
    requires command.delivery.generation == g ==> command.delivery.tag < |ch.phases|
    ensures var d := command.delivery;
            var ch' := if d.generation == g then ch.(phases := ch.phases[d.tag := if closing then Finished else Queued]) else ch;
            && AllAccounted(ch', g, todo - {d}, if closing then commands else commands + [command], pending,
                            gone + if closing then {d} else {})
            && ForwardsMatch(ch') && Travelling(copies, ch', g)
  {
    var d := command.delivery;
    var ch' := if d.generation == g then ch.(phases := ch.phases[d.tag := if closing then Finished else Queued]) else ch;
    var commands', gone' := if closing then commands else commands + [command], gone + if closing then {d} else {};
    forall t | 0 <= t < |ch'.phases|
      ensures Accounted(ch', g, todo - {d}, commands', pending, t) || DeliveryContext(t, g) in gone'
    {
      assert Accounted(ch, g, todo, commands, pending, t) || DeliveryContext(t, g) in gone;
      Appended(commands, command, DeliveryContext(t, g));
    }
  }

  lemma ResolveTracked(s: System, command: Command, gone: set<DeliveryContext>)
    requires Inv(s) && Tracked(s, gone) && Enabled(s, Resolve(command))
    ensures Tracked(Apply(s, Resolve(command)), gone + Drops(s, Resolve(command)))
  {
    assert HasPhase(s, command.delivery, WithApplication);
    ResolveIs(s, command);
    ResolvedAccounted(s.copies, Live(s), s.consumer.generation, s.todo, s.consumer.commands, s.consumer.pending, gone,
                      command, s.consumer.closing);
  }

  /** Taking the head off the queue leaves every other delivery's command there. */
  lemma Dequeued(s: System, d: DeliveryContext)
    requires TokensOk(s) && s.consumer.commands != [] && d != s.consumer.commands[0].delivery
    ensures HasCommand(s.consumer.commands, d) ==> HasCommand(s.consumer.commands[1..], d)
  {
    if HasCommand(s.consumer.commands, d) {
      var i :| 0 <= i < |s.consumer.commands| && s.consumer.commands[i].delivery == d;
      assert s.consumer.commands[1..][i - 1] == s.consumer.commands[i];
    }
  }

  lemma HeadIsQueued(s: System)
    requires Inv(s) && s.consumer.commands != []
    ensures var d := s.consumer.commands[0].delivery; Known(s, d) && s.channels[d.generation].phases[d.tag] == Queued
    ensures s.consumer.published == |Live(s).sent|
  {
    assert CommandOk(s, s.consumer.commands[0]);
  }

  /** What running the head leaves of the live channel. */
  lemma RunResult(s: System)
    requires Enabled(s, RunCommand) && Known(s, s.consumer.commands[0].delivery) && s.consumer.published == |Live(s).sent|
    ensures var s', g, ch, head := Apply(s, RunCommand), s.consumer.generation, Live(s), s.consumer.commands[0];
            var d, current := head.delivery, IsCurrent(s.consumer, head.delivery);
            && s'.consumer.generation == g && s'.consumer.commands == s.consumer.commands[1..]
            && s'.copies == s.copies && s'.todo == s.todo && |s'.channels| == |s.channels|
            && Live(s').deliveries == ch.deliveries && Live(s').open == ch.open && Live(s').down == ch.down
            && (forall n :: n in s.consumer.pending ==> n in s'.consumer.pending)
            && Live(s').phases == (if d.generation == g
                 then ch.phases[d.tag := if current && head.ForwardCommand? then Forwarded(|ch.sent|) else Finished]
                 else ch.phases)
            && (current && head.ForwardCommand? ==> |ch.sent| in s'.consumer.pending)
  {
    MqGuarantees.OneFrame(Live(s), ExecuteHead(s.consumer).1);
  }

  lemma RunIs(s: System)
    requires Inv(s) && Enabled(s, RunCommand)
    ensures var s', g, ch, head := Apply(s, RunCommand), s.consumer.generation, Live(s), s.consumer.commands[0];
            var d, current := head.delivery, IsCurrent(s.consumer, head.delivery);
            && s'.consumer.generation == g && s'.consumer.commands == s.consumer.commands[1..]
            && s'.copies == s.copies && s'.todo == s.todo && |s'.channels| == |s.channels|
            && Known(s, d) && s.channels[d.generation].phases[d.tag] == Queued
            && Live(s').deliveries == ch.deliveries && Live(s').open == ch.open && Live(s').down == ch.down
            && (forall n :: n in s.consumer.pending ==> n in s'.consumer.pending)
            && Live(s').phases == (if d.generation == g
                 then ch.phases[d.tag := if current && head.ForwardCommand? then Forwarded(|ch.sent|) else Finished]
                 else ch.phases)
            && (current && head.ForwardCommand? ==> |ch.sent| in s'.consumer.pending)
  {
    HeadIsQueued(s);
    RunResult(s);
  }

  /** The live channel after the head was carried out, but for the phase. */
  lemma HeadWrites(s: System)
    requires Enabled(s, RunCommand)
    ensures var ch, head, effect := Live(s), s.consumer.commands[0], ExecuteHead(s.consumer);
            var d, current, ch' := head.delivery, IsCurrent(s.consumer, head.delivery), Emit(Live(s), effect.1);
            && (forall frame :: frame in ch.up ==> frame in ch'.up)
            && (current && head.ForwardCommand? ==> ch'.settles == ch.settles)
            && (current && head.ForwardCommand? ==> exists f: Forward :: f.delivery == d && ch'.sent == ch.sent + [f])
            && (!(current && head.ForwardCommand?) ==> ch'.sent == ch.sent)
            && (current && !head.ForwardCommand? ==> ch'.settles == ch.settles + [d.tag])
            && (!current ==> ch' == ch)
            && (current && !head.ForwardCommand? && ch.open ==> AckFrame(d.tag) in ch'.up || RequeueFrame(d.tag) in ch'.up)
  {
    MqGuarantees.OneFrame(Live(s), ExecuteHead(s.consumer).1);
  }

  lemma PhaseOnly(s: System, d: DeliveryContext, phase: Phase, g: nat)
    requires g < |s.channels|
    ensures var s' := WithPhase(s, d, phase);
            && g < |s'.channels| && s'.channels[g].(phases := s.channels[g].phases) == s.channels[g] && s'.consumer == s.consumer
  {
  }

  lemma RunWrites(s: System)
    requires Enabled(s, RunCommand)
    ensures var s', ch, head := Apply(s, RunCommand), Live(s), s.consumer.commands[0];
            var d, current := head.delivery, IsCurrent(s.consumer, head.delivery);
            && s'.consumer.generation < |s'.channels|
            && (forall frame :: frame in ch.up ==> frame in Live(s').up)
            && (if current && head.ForwardCommand?
                then Live(s').settles == ch.settles && |Live(s').sent| == |ch.sent| + 1 &&
                     Live(s').sent[..|ch.sent|] == ch.sent && Live(s').sent[|ch.sent|].delivery == d
                else Live(s').sent == ch.sent && Live(s').settles == (if current then ch.settles + [d.tag] else ch.settles))
            && (current && !head.ForwardCommand? && ch.open ==> AckFrame(d.tag) in Live(s').up || RequeueFrame(d.tag) in Live(s').up)
  {
    HeadWrites(s);
    var head, effect := s.consumer.commands[0], ExecuteHead(s.consumer);
    var phase := if IsCurrent(s.consumer, head.delivery) && head.ForwardCommand?
                 then Forwarded(s.consumer.published) else Finished;
    PhaseOnly(WithEffect(s, effect), head.delivery, phase, s.consumer.generation);
    var ch := WithEffect(s, effect).channels[s.consumer.generation];
    assert Live(Apply(s, RunCommand)).sent == ch.sent && Live(Apply(s, RunCommand)).up == ch.up;
  }

  lemma HeadAccounted(s: System, gone: set<DeliveryContext>)
    requires Inv(s) && Enabled(s, RunCommand) && s.consumer.commands[0].delivery.generation == s.consumer.generation
    ensures var s', t := Apply(s, RunCommand), s.consumer.commands[0].delivery.tag;
            && s'.consumer.generation == s.consumer.generation < |s'.channels| && t < |Live(s').phases|
            && (Accounted(Live(s'), s'.consumer.generation, s'.todo, s'.consumer.commands, s'.consumer.pending, t) ||
                DeliveryContext(t, s.consumer.generation) in gone + Drops(s, RunCommand))
  {
    RunIs(s);
    RunWrites(s);
  }

  lemma OtherAccounted(s: System, t: nat)
    requires Inv(s) && Enabled(s, RunCommand) && t < |Live(s).phases|
    requires DeliveryContext(t, s.consumer.generation) != s.consumer.commands[0].delivery
    requires Accounted(Live(s), s.consumer.generation, s.todo, s.consumer.commands, s.consumer.pending, t)
    ensures var s' := Apply(s, RunCommand);
            && s'.consumer.generation == s.consumer.generation < |s'.channels| && t < |Live(s').phases|
            && Accounted(Live(s'), s'.consumer.generation, s'.todo, s'.consumer.commands, s'.consumer.pending, t)
  {
    RunIs(s);
    RunWrites(s);
    Dequeued(s, DeliveryContext(t, s.consumer.generation));
  }

  lemma RunAccounted(s: System, t: nat, gone: set<DeliveryContext>)
    requires Inv(s) && Tracked(s, gone) && Enabled(s, RunCommand) && t < |Live(s).phases|
    ensures var s' := Apply(s, RunCommand);
            && s'.consumer.generation == s.consumer.generation < |s'.channels| && t < |Live(s').phases|
            && (Accounted(Live(s'), s'.consumer.generation, s'.todo, s'.consumer.commands, s'.consumer.pending, t) ||
                DeliveryContext(t, s.consumer.generation) in gone + Drops(s, RunCommand))
  {
    var g, d := s.consumer.generation, DeliveryContext(t, s.consumer.generation);
    assert Accounted(Live(s), g, s.todo, s.consumer.commands, s.consumer.pending, t) || d in gone;
    if d == s.consumer.commands[0].delivery {
      HeadAccounted(s, gone);
    } else if d !in gone {
      OtherAccounted(s, t);
    } else {
      RunIs(s);
    }
  }

  lemma RunMatches(s: System, gone: set<DeliveryContext>)
    requires Inv(s) && Tracked(s, gone) && Enabled(s, RunCommand)
    ensures var s' := Apply(s, RunCommand);
            s'.consumer.generation < |s'.channels| && ForwardsMatch(Live(s')) && Travelling(s'.copies, Live(s'), s'.consumer.generation)
  {
    RunIs(s);
    RunWrites(s);
  }

  lemma RunTracked(s: System, gone: set<DeliveryContext>)
    requires Inv(s) && Tracked(s, gone) && Enabled(s, RunCommand)
    ensures Tracked(Apply(s, RunCommand), gone + Drops(s, RunCommand))
  {
    var s', gone' := Apply(s, RunCommand), gone + Drops(s, RunCommand);
    RunMatches(s, gone);
    RunIs(s);
    forall t | 0 <= t < |Live(s').phases|
      ensures Accounted(Live(s'), s'.consumer.generation, s'.todo, s'.consumer.commands, s'.consumer.pending, t) ||
              DeliveryContext(t, s'.consumer.generation) in gone'
    {
      RunAccounted(s, t, gone);
    }
  }

  // ----- flags and new channels -----

  lemma FreshTracked(s: System, c: Consumer, gone: set<DeliveryContext>)
    requires c.generation == |s.channels|
    ensures Tracked(s.(consumer := c, channels := s.channels + [FRESH]), gone)
  {
  }

  lemma FlagsTracked(s: System, c: Consumer, consuming: bool, gone: set<DeliveryContext>)
    requires Tracked(s, gone) && c.generation == s.consumer.generation
    requires c.commands == s.consumer.commands && c.pending == s.consumer.pending
    ensures Tracked(s.(consumer := c), gone)
    ensures var g := s.consumer.generation;
            Tracked(s.(consumer := c, channels := s.channels[g := s.channels[g].(consuming := consuming)]), gone)
  {
  }

  lemma ReadyTracked(s: System, g: nat, gone: set<DeliveryContext>)
    requires Inv(s) && Tracked(s, gone) && Enabled(s, Ready(g))
    ensures Tracked(Apply(s, Ready(g)), gone)
  {
    FlagsTracked(s, OnReady(s.consumer, g), true, gone);
    assert g != s.consumer.generation ==> Apply(s, Ready(g)) == s.(consumer := OnReady(s.consumer, g));
  }

  lemma OtherTracked(s: System, step: Step, gone: set<DeliveryContext>)
    requires Inv(s) && Tracked(s, gone) && Enabled(s, step)
    requires step.ChannelError? || step.Start? || step.Reconnect? || step.ClearConnected? || step.StopAccepting?
    ensures Tracked(Apply(s, step), gone)
  {
    match step
    case ChannelError => FlagsTracked(s, OnChannelError(s.consumer), true, gone);
    case Start => FreshTracked(s, InitializeChannel(s.consumer), gone);
    case Reconnect =>
      if s.consumer.closing {
        FlagsTracked(s, OnReconnectTimer(s.consumer), true, gone);
        assert Apply(s, Reconnect) == s.(consumer := OnReconnectTimer(s.consumer));
      } else {
        FreshTracked(s, OnReconnectTimer(s.consumer), gone);
      }
    case ClearConnected => FlagsTracked(s, Disconnect(s.consumer), true, gone);
    case StopAccepting => FlagsTracked(s, StopLoop(s.consumer), true, gone);
  }

  // ----- every run -----

  lemma ReceiveTracked(s: System, e: Event, gone: set<DeliveryContext>)
    requires Inv(s) && Tracked(s, gone) && Enabled(s, Receive(e))
    ensures Tracked(Apply(s, Receive(e)), gone + Drops(s, Receive(e)))
  {
    match e
    case Delivered(t) =>
      ArrivalTracked(s, t, gone);
      Widened(Apply(s, Receive(e)), gone, {});
    case ReturnedEvent(id) =>
      IgnoredTracked(s, OnReturned(s.consumer, id), e, gone);
      Widened(Apply(s, Receive(e)), gone, {});
    case ConfirmedEvent(n) => EventAnswered(s, e, gone);
    case NackedEvent(n) => EventAnswered(s, e, gone);
  }

  lemma StepTracked(s: System, step: Step, gone: set<DeliveryContext>)
    requires Inv(s) && Tracked(s, gone) && Enabled(s, step)
    ensures Tracked(Apply(s, step), gone + Drops(s, step))
  {
    if OfBroker(step) {
      BrokerTracked(s, step, gone);
      Widened(Apply(s, step), gone, {});
    } else if step.Receive? {
      ReceiveTracked(s, step.event, gone);
    } else if step.PublishError? {
      ErrorAnswered(s, step.seqno, gone);
    } else if step.Resolve? {
      ResolveTracked(s, step.command, gone);
    } else if step.RunCommand? {
      RunTracked(s, gone);
    } else if step.Ready? {
      ReadyTracked(s, step.generation, gone);
      Widened(Apply(s, step), gone, {});
    } else {
      OtherTracked(s, step, gone);
      Widened(Apply(s, step), gone, {});
    }
  }

  lemma {:induction false} RunKeepsTrack(s: System, steps: seq<Step>, gone: set<DeliveryContext>)
    requires Inv(s) && Tracked(s, gone) && IsRun(s, steps)
    ensures Tracked(After(s, steps), gone + GivenUp(s, steps))
    decreases |steps|
  {
    if steps == [] {
      assert gone + {} == gone;
    } else {
      StepKeeps(s, steps[0]);
      StepTracked(s, steps[0], gone);
      RunKeepsTrack(Apply(s, steps[0]), steps[1..], gone + Drops(s, steps[0]));
      assert gone + Drops(s, steps[0]) + GivenUp(Apply(s, steps[0]), steps[1..]) == gone + GivenUp(s, steps);
    }
  }

  /** Where a delivery of the live channel can be. */
  ghost predicate Somewhere(s: System, d: DeliveryContext)
    requires s.consumer.generation < |s.channels|
  {
    || Delivered(d.tag) in Live(s).down
    || d in s.todo
    || HasCommand(s.consumer.commands, d)
    || (exists n :: n in s.consumer.pending && s.consumer.pending[n].delivery == d)
    || AckFrame(d.tag) in Live(s).up
    || RequeueFrame(d.tag) in Live(s).up
  }

  /** In every run a delivery the broker still holds for the live channel is somewhere on its way through the consumer,
      unless it was given up while the consumer was disconnected or closing. */
  lemma NothingIsForgotten(steps: seq<Step>, t: nat)
    requires IsRun(START, steps)
    requires var s := After(START, steps);
             s.consumer.generation < |s.channels| && Live(s).open && Outstanding(s, s.consumer.generation, t)
    ensures var s := After(START, steps);
            var d := DeliveryContext(t, s.consumer.generation);
            Somewhere(s, d) || d in GivenUp(START, steps)
  {
    StartTracked();
    MqGuarantees.ReachableIsFine(steps);
    RunKeepsTrack(START, steps, {});
    FoundSomewhere(After(START, steps), t, {} + GivenUp(START, steps));
  }

  lemma StartTracked()
    ensures Inv(START) && Tracked(START, {})
  {
    MqGuarantees.StartIsFine();
  }

  lemma FoundSomewhere(s: System, t: nat, gone: set<DeliveryContext>)
    requires Inv(s) && Tracked(s, gone) && Live(s).open && Outstanding(s, s.consumer.generation, t)
    ensures Somewhere(s, DeliveryContext(t, s.consumer.generation)) || DeliveryContext(t, s.consumer.generation) in gone
  {
    var g, ch := s.consumer.generation, Live(s);
    assert ChannelOk(g, ch, s.copies, s.acked);
    assert Accounted(ch, g, s.todo, s.consumer.commands, s.consumer.pending, t) || DeliveryContext(t, g) in gone;
    if t in ch.settles {
      assert Holds(s.copies, ch, g, t);
    } else if ch.phases[t].Forwarded? && ch.phases[t].seqno in s.consumer.pending {
      PendingIsOwn(s, ch.phases[t].seqno);
    }
  }

  // ----- nothing is given up without an interruption -----

  predicate Interrupts(step: Step) { step.ChannelError? || step.ClearConnected? || step.StopAccepting? }

  /** One channel at most was opened, and it is consumed from only by a connected consumer. */
  ghost predicate Steady(s: System) {
    && !s.consumer.closing && !s.consumer.reconnectPending && |s.channels| == s.consumer.generation + 1 <= 2
    && !s.channels[0].open && s.channels[0].deliveries == []
    && (s.consumer.generation == 1 && s.channels[1].consuming ==> s.consumer.connected && s.consumer.hasChannel)
    && (s.consumer.generation == 1 && s.channels[1].deliveries != [] ==> s.channels[1].consuming)
  }

  lemma SteadyDropsNothing(s: System, step: Step)
    requires Inv(s) && Steady(s) && Enabled(s, step)
    ensures Drops(s, step) == {}
  {
    if step.RunCommand? {
      assert CommandOk(s, s.consumer.commands[0]);
      HandledIsCurrent(s, s.consumer.commands[0].delivery);
    } else if step.PublishError? && step.seqno in s.consumer.pending {
      PendingIsCurrent(s, step.seqno);
    } else if step.Receive? && (step.event.ConfirmedEvent? || step.event.NackedEvent?) && step.event.seqno in s.consumer.pending {
      PendingIsCurrent(s, step.event.seqno);
    }
  }

  lemma HandledIsCurrent(s: System, d: DeliveryContext)
    requires Steady(s) && Known(s, d)
    ensures IsCurrent(s.consumer, d)
  {
    assert s.channels[d.generation].deliveries != [];
  }

  lemma PendingIsCurrent(s: System, n: nat)
    requires Inv(s) && Steady(s) && n in s.consumer.pending
    ensures IsCurrent(s.consumer, s.consumer.pending[n].delivery)
  {
    PendingIsOwn(s, n);
    assert ChannelOk(s.consumer.generation, Live(s), s.copies, s.acked);
    HandledIsCurrent(s, s.consumer.pending[n].delivery);
  }

  predicate SameShape(a: Channel, b: Channel) {
    b.open == a.open && b.deliveries == a.deliveries && b.consuming == a.consuming
  }

  /** What the steps leave of the channels' outlines. */
  ghost predicate SameOutline(s: System, s': System) {
    && |s'.channels| == |s.channels| && (forall g :: 0 <= g < |s.channels| ==> SameShape(s.channels[g], s'.channels[g]))
    && s'.consumer.generation == s.consumer.generation && s'.consumer.connected == s.consumer.connected
    && s'.consumer.hasChannel == s.consumer.hasChannel && s'.consumer.closing == s.consumer.closing
    && s'.consumer.reconnectPending == s.consumer.reconnectPending
  }

  lemma EmitOutline(ch: Channel, frames: seq<Frame>)
    requires |frames| <= 1
    ensures SameShape(ch, Emit(ch, frames))
  {
    MqGuarantees.OneFrame(ch, frames);
  }

  lemma EffectOutline(s: System, effect: Effect)
    requires s.consumer.generation < |s.channels| && |effect.1| <= 1
    requires effect.0.(commands := [], pending := map[], published := 0, returned := {})
          == s.consumer.(commands := [], pending := map[], published := 0, returned := {})
    ensures SameOutline(s, WithEffect(s, effect))
  {
    EmitOutline(Live(s), effect.1);
  }

  lemma ReceiveOutline(s: System, e: Event)
    requires Enabled(s, Receive(e))
    ensures SameOutline(s, Apply(s, Receive(e)))
  {
    match e
    case Delivered(t) =>
    case ReturnedEvent(id) =>
    case ConfirmedEvent(n) =>
      EventIs(s, e);
      EffectOutline(Without(s, e), Answer(s.consumer, e));
    case NackedEvent(n) =>
      EventIs(s, e);
      EffectOutline(Without(s, e), Answer(s.consumer, e));
  }

  lemma RunOutline(s: System)
    requires Enabled(s, RunCommand)
    ensures SameOutline(s, Apply(s, RunCommand))
  {
    EffectOutline(s, ExecuteHead(s.consumer));
  }

  lemma OutlineKeepsSteady(s: System, s': System)
    requires Steady(s) && SameOutline(s, s')
    ensures Steady(s')
  {
  }

  lemma BrokerKeepsSteady(s: System, step: Step)
    requires Steady(s) && Enabled(s, step) && OfBroker(step)
    ensures Steady(Apply(s, step))
  {
  }

  lemma ConsumerOutline(s: System, step: Step)
    requires Inv(s) && Enabled(s, step) && (step.Receive? || step.RunCommand? || step.PublishError? || step.Resolve?)
    ensures SameOutline(s, Apply(s, step))
  {
    match step
    case Receive(e) => ReceiveOutline(s, e);
    case RunCommand => RunOutline(s);
    case PublishError(n) => EffectOutline(s, OnPublishFailure(s.consumer, n));
    case Resolve(command) =>
  }

  lemma OpeningKeepsSteady(s: System, step: Step)
    requires Inv(s) && Steady(s) && Enabled(s, step) && (step.Ready? || step.Start? || step.Reconnect?)
    ensures Steady(Apply(s, step))
  {
  }

  lemma SteadyKept(s: System, step: Step)
    requires Inv(s) && Steady(s) && Enabled(s, step) && !Interrupts(step)
    ensures Steady(Apply(s, step))
  {
    if OfBroker(step) {
      BrokerKeepsSteady(s, step);
    } else if step.Ready? || step.Start? || step.Reconnect? {
      OpeningKeepsSteady(s, step);
    } else {
      ConsumerOutline(s, step);
      OutlineKeepsSteady(s, Apply(s, step));
    }
  }

  lemma {:induction false} SteadyGivesUpNothing(s: System, steps: seq<Step>)
    requires Inv(s) && Steady(s) && IsRun(s, steps) && forall step <- steps :: !Interrupts(step)
    ensures GivenUp(s, steps) == {}
    decreases |steps|
  {
    if steps != [] {
      assert steps[0] in steps;
      assert forall step <- steps[1..] :: step in steps;
      SteadyDropsNothing(s, steps[0]);
      StepKeeps(s, steps[0]);
      SteadyKept(s, steps[0]);
      SteadyGivesUpNothing(Apply(s, steps[0]), steps[1..]);
    }
  }

  /** In a run without a channel error or a Close, whatever the broker refuses, returns or closes, every delivery it
      holds for the consumer is somewhere on its way through it. */
  lemma UninterruptedForgetsNothing(steps: seq<Step>, t: nat)
    requires IsRun(START, steps) && forall step <- steps :: !Interrupts(step)
    requires var s := After(START, steps);
             s.consumer.generation < |s.channels| && Live(s).open && Outstanding(s, s.consumer.generation, t)
    ensures var s := After(START, steps); Somewhere(s, DeliveryContext(t, s.consumer.generation))
  {
    StartTracked();
    SteadyGivesUpNothing(START, steps);
    NothingIsForgotten(steps, t);
  }
}
