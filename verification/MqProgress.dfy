/** What the consumer does get done: every command and answer of the live channel is written as the frame it stands
    for, and no delivery is ever forgotten. */
module MqProgress {
  import opened MqConsumer
  import opened MqProtocol
  import opened MqSafety
  import MqGuarantees

  // ----- every command and answer is written -----

  lemma OneFrameWritten(s: System, effect: Effect, frame: Frame)
    requires effect.0.generation < |s.channels| && effect.1 == [frame] && s.channels[effect.0.generation].open
    ensures frame in WithEffect(s, effect).channels[effect.0.generation].up
  {
    MqGuarantees.OneFrame(s.channels[effect.0.generation], [frame]);
  }

  lemma PhaseKeepsUp(s: System, d: DeliveryContext, phase: Phase, g: nat)
    requires g < |s.channels|
    ensures g < |WithPhase(s, d, phase).channels| && WithPhase(s, d, phase).channels[g].up == s.channels[g].up
    ensures WithPhase(s, d, phase).consumer == s.consumer
  {
  }

  /** A command of the live channel is written as the frame it asks for. */
  lemma CommandIsWritten(s: System)
    requires Enabled(s, RunCommand) && IsCurrent(s.consumer, s.consumer.commands[0].delivery)
    requires s.channels[s.consumer.generation].open
    ensures var s', g, command := Apply(s, RunCommand), s.consumer.generation, s.consumer.commands[0];
            && g < |s'.channels|
            && (command.AckCommand? ==> AckFrame(command.delivery.tag) in s'.channels[g].up)
            && (command.RequeueCommand? ==> RequeueFrame(command.delivery.tag) in s'.channels[g].up)
            && (command.ForwardCommand? ==> PublicationOf(s', g, command, s.consumer.published))
  {
    var command := s.consumer.commands[0];
    var effect := ExecuteHead(s.consumer);
    OneFrameWritten(s, effect, effect.1[0]);
    var phase := if command.ForwardCommand? then Forwarded(s.consumer.published) else Finished;
    PhaseKeepsUp(WithEffect(s, effect), command.delivery, phase, s.consumer.generation);
  }

  function Distance(a: nat, b: nat): nat { if a < b then b - a else a - b }

  /** The forward is travelling as publication n with the body, count and destination it was called with. A retry
      expires after the time asked for, or the nearest one from a millisecond to a day; a dead letter does not. */
  ghost predicate PublicationOf(s: System, g: nat, command: Command, n: nat)
    requires command.ForwardCommand?
  {
    n in s.consumer.pending && g < |s.channels| &&
    var f := s.consumer.pending[n];
    && PublishFrame(n, f) in s.channels[g].up
    && f.kind == command.kind && f.delivery == command.delivery && f.body == command.body && f.count == command.count
    && (f.kind == ToDeadLetter ==> f.expiration == 0)
    && (f.kind == ToRetry ==> 1 <= f.expiration <= 24 * 60 * 60 * 1000)
    && (f.kind == ToRetry ==> forall ms :: 1 <= ms <= 24 * 60 * 60 * 1000 ==>
          Distance(f.expiration, command.retryAfterMs) <= Distance(ms, command.retryAfterMs))
  }

  /** The broker settles or requeues the delivery that an ack or reject names. */
  lemma SettleIsDone(s: System, g: nat, frame: Frame)
    requires Inv(s) && Enabled(s, TakeSettle(g, frame))
    ensures var d := DeliveryContext(frame.tag, g);
            && Known(s, d) && CopyOf(s, d) < |s.copies|
            && Apply(s, TakeSettle(g, frame)).copies[CopyOf(s, d)].place == if frame.AckFrame? then Settled else MainQueue
  {
    SettleIsOutstanding(s, g, frame);
    assert ChannelOk(g, s.channels[g], s.copies, s.acked);
  }

  lemma RunSteps(steps: seq<Step>, step: Step)
    requires IsRun(START, steps) && Enabled(After(START, steps), step)
    ensures Inv(After(START, steps)) && Inv(Apply(After(START, steps), step))
  {
    MqGuarantees.ReachableIsFine(steps);
    StepKeeps(After(START, steps), step);
  }

  lemma CommandKeepsCopies(s: System, d: DeliveryContext)
    requires Enabled(s, RunCommand) && Known(s, d)
    ensures var s' := Apply(s, RunCommand); s'.copies == s.copies && Known(s', d) && CopyOf(s', d) == CopyOf(s, d)
  {
    MqGuarantees.OneFrame(s.channels[s.consumer.generation], ExecuteHead(s.consumer).1);
  }

  /** In every run an Ack of a delivery of the live channel is written as an ack of it, and once the broker takes it
      that very copy is settled; a requeueing Nack is written as a reject and puts the copy back into the queue. */
  lemma AcksAndNacksTakeEffect(steps: seq<Step>, d: DeliveryContext)
    requires IsRun(START, steps) && After(START, steps).consumer.commands != []
    requires var s := After(START, steps);
             s.consumer.commands[0].delivery == d && !s.consumer.commands[0].ForwardCommand? && IsCurrent(s.consumer, d) &&
             d.generation < |s.channels| && s.channels[d.generation].open
    ensures var s := After(START, steps);
            var acks := s.consumer.commands[0].AckCommand?;
            var frame := if acks then AckFrame(d.tag) else RequeueFrame(d.tag);
            && Enabled(s, RunCommand) && Enabled(Apply(s, RunCommand), TakeSettle(d.generation, frame))
            && CopyOf(s, d) < |s.copies|
            && Apply(Apply(s, RunCommand), TakeSettle(d.generation, frame)).copies[CopyOf(s, d)].place
                 == if acks then Settled else MainQueue
  {
    MqGuarantees.ReachableIsFine(steps);
    var s := After(START, steps);
    assert CommandOk(s, s.consumer.commands[0]);
    RunSteps(steps, RunCommand);
    CommandIsWritten(s);
    CommandKeepsCopies(s, d);
    SettleIsDone(Apply(s, RunCommand), d.generation,
                 if s.consumer.commands[0].AckCommand? then AckFrame(d.tag) else RequeueFrame(d.tag));
  }

  /** In every run a Retry or DeadLetter of a delivery of the live channel is travelling to the broker as called. */
  lemma ForwardsTakeEffect(steps: seq<Step>)
    requires IsRun(START, steps) && Enabled(After(START, steps), RunCommand)
    requires var s := After(START, steps);
             s.consumer.commands[0].ForwardCommand? && IsCurrent(s.consumer, s.consumer.commands[0].delivery) &&
             s.channels[s.consumer.generation].open
    ensures var s := After(START, steps);
            PublicationOf(Apply(s, RunCommand), s.consumer.generation, s.consumer.commands[0], s.consumer.published)
  {
    CommandIsWritten(After(START, steps));
  }

  /** In every run a confirm of a stored forward acks its original and one of a returned forward requeues it. */
  lemma ConfirmsTakeEffect(steps: seq<Step>, n: nat)
    requires IsRun(START, steps) && Enabled(After(START, steps), Receive(ConfirmedEvent(n)))
    requires var s := After(START, steps);
             n in s.consumer.pending && IsCurrent(s.consumer, s.consumer.pending[n].delivery) &&
             s.channels[s.consumer.generation].open
    ensures var s, s' := After(START, steps), Apply(After(START, steps), Receive(ConfirmedEvent(n)));
            var g, tag := s.consumer.generation, s.consumer.pending[n].delivery.tag;
            && g < |s'.channels| && n in s.channels[g].fate
            && (s.channels[g].fate[n].Routed? ==> AckFrame(tag) in s'.channels[g].up)
            && (s.channels[g].fate[n].Returned? ==> RequeueFrame(tag) in s'.channels[g].up)
            && n !in s'.consumer.pending && s.consumer.pending[n].id !in s'.consumer.returned
  {
    MqGuarantees.RoutingVerdictIsCorrect(steps, n);
    var s := After(START, steps);
    var g := s.consumer.generation;
    var s1 := s.(channels := s.channels[g := s.channels[g].(down := s.channels[g].down - {ConfirmedEvent(n)})]);
    var effect := OnConfirm(s.consumer, n);
    OneFrameWritten(s1, effect, effect.1[0]);
  }

  /** In every run a nack of a forward, or an error reported for it, requeues its original. */
  lemma FailuresTakeEffect(steps: seq<Step>, n: nat, nacked: bool)
    requires IsRun(START, steps)
    requires var s, step := After(START, steps), if nacked then Receive(NackedEvent(n)) else PublishError(n);
             Enabled(s, step) && n in s.consumer.pending && IsCurrent(s.consumer, s.consumer.pending[n].delivery) &&
             s.channels[s.consumer.generation].open
    ensures var s, step := After(START, steps), if nacked then Receive(NackedEvent(n)) else PublishError(n);
            var s', g := Apply(s, step), s.consumer.generation;
            g < |s'.channels| && RequeueFrame(s.consumer.pending[n].delivery.tag) in s'.channels[g].up
  {
    var s := After(START, steps);
    var g, effect := s.consumer.generation, OnPublishFailure(s.consumer, n);
    if nacked {
      var s1 := s.(channels := s.channels[g := s.channels[g].(down := s.channels[g].down - {NackedEvent(n)})]);
      OneFrameWritten(s1, effect, effect.1[0]);
    } else {
      OneFrameWritten(s, effect, effect.1[0]);
    }
  }

  /** A forward is published or its caller is told that it is not. */
  lemma ForwardIsPublishedOrTold(c: Consumer, command: Command)
    requires command.ForwardCommand?
    ensures |Execute(c, command).1| + |Refusal(c, command)| == 1
    ensures Refusal(c, command) == [] <==> Execute(c, command).1 != []
  {
  }

  // ----- commands are run in the order they were posted -----

  function PostAll(c: Consumer, commands: seq<Command>): Consumer
    decreases |commands|
  {
    if commands == [] then c else PostAll(Post(c, commands[0]), commands[1..])
  }

  /** Posted one by one, commands are queued in order, all of them or, once the loop is stopped, none. */
  lemma {:induction false} PostedInOrder(c: Consumer, commands: seq<Command>)
    ensures PostAll(c, commands) == if c.closing then c else c.(commands := c.commands + commands)
    ensures !c.closing && c.commands == [] ==>
              ExecuteAll(PostAll(c, commands).(commands := []), PostAll(c, commands).commands) == ExecuteAll(c, commands)
    decreases |commands|
  {
    if commands == [] {
      assert c.commands + [] == c.commands;
    } else {
      PostedInOrder(Post(c, commands[0]), commands[1..]);
      assert c.commands + [commands[0]] + commands[1..] == c.commands + commands;
    }
    if c.commands == [] {
      assert [] + commands == commands;
    }
  }

  // ----- silence -----

  predicate Unwritten(a: Channel, b: Channel) { b.sent == a.sent && b.settles == a.settles }

  lemma NoFramesNoWriting(s: System, effect: Effect, g: nat)
    requires effect.0.generation < |s.channels| && effect.1 == [] && g < |s.channels|
    ensures |WithEffect(s, effect).channels| == |s.channels| && WithEffect(s, effect).channels[g] == s.channels[g]
  {
  }

  lemma PhaseKeepsWriting(s: System, d: DeliveryContext, phase: Phase, g: nat)
    requires g < |s.channels|
    ensures |WithPhase(s, d, phase).channels| == |s.channels| && Unwritten(s.channels[g], WithPhase(s, d, phase).channels[g])
  {
  }

  lemma SilentCommand(s: System, g: nat)
    requires Enabled(s, RunCommand) && !s.consumer.connected && g < |s.channels|
    ensures |Apply(s, RunCommand).channels| == |s.channels| && Unwritten(s.channels[g], Apply(s, RunCommand).channels[g])
    ensures !Apply(s, RunCommand).consumer.connected
  {
    var effect := ExecuteHead(s.consumer);
    NoFramesNoWriting(s, effect, g);
    PhaseKeepsWriting(WithEffect(s, effect), s.consumer.commands[0].delivery, Finished, g);
  }

  lemma SilentEvent(s: System, e: Event, g: nat)
    requires Enabled(s, Receive(e)) && !s.consumer.connected && g < |s.channels|
    ensures |ApplyReceive(s, e).channels| == |s.channels| && Unwritten(s.channels[g], ApplyReceive(s, e).channels[g])
    ensures !ApplyReceive(s, e).consumer.connected
  {
    var h := s.consumer.generation;
    var s1 := s.(channels := s.channels[h := s.channels[h].(down := s.channels[h].down - {e})]);
    match e
    case Delivered(t) => PhaseKeepsWriting(s1.(todo := s.todo + {DeliveryContext(t, h)}), DeliveryContext(t, h), WithApplication, g);
    case ReturnedEvent(id) =>
    case ConfirmedEvent(n) => NoFramesNoWriting(s1, OnConfirm(s.consumer, n), g);
    case NackedEvent(n) => NoFramesNoWriting(s1, OnPublishFailure(s.consumer, n), g);
  }

  lemma BrokerIsSilent(s: System, step: Step, g: nat)
    requires Enabled(s, step) && OfBroker(step) && g < |s.channels|
    ensures |Apply(s, step).channels| == |s.channels| && Unwritten(s.channels[g], Apply(s, step).channels[g])
    ensures Apply(s, step).consumer == s.consumer
  {
  }

  /** A step of a consumer that is not connected writes nothing, and only a ready channel connects it. */
  lemma DisconnectedIsSilent(s: System, step: Step, g: nat)
    requires Enabled(s, step) && !s.consumer.connected && g < |s.channels|
    ensures |s.channels| <= |Apply(s, step).channels| && Unwritten(s.channels[g], Apply(s, step).channels[g])
    ensures Apply(s, step).consumer.connected ==> step == Ready(s.consumer.generation)
  {
    if OfBroker(step) {
      BrokerIsSilent(s, step, g);
    } else {
      match step
      case Receive(e) => SilentEvent(s, e, g);
      case PublishError(n) => NoFramesNoWriting(s, OnPublishFailure(s.consumer, n), g);
      case RunCommand => SilentCommand(s, g);
      case Resolve(command) =>
        PhaseKeepsWriting(s, command.delivery, if s.consumer.closing then Finished else Queued, g);
      case _ =>
    }
  }

  /** From a channel error or a Close on nothing is written, in whatever run follows, until a channel is ready. */
  lemma {:induction false} SilentUntilReady(s: System, step: Step, later: seq<Step>, g: nat)
    requires Enabled(s, step) && (step.ChannelError? || step.ClearConnected?) && g < |s.channels|
    requires IsRun(Apply(s, step), later) && forall next <- later :: !next.Ready?
    ensures g < |After(Apply(s, step), later).channels|
    ensures Unwritten(s.channels[g], After(Apply(s, step), later).channels[g])
  {
    SilentFrom(Apply(s, step), later, g);
  }

  lemma {:induction false} SilentFrom(s: System, later: seq<Step>, g: nat)
    requires !s.consumer.connected && g < |s.channels| && IsRun(s, later) && forall next <- later :: !next.Ready?
    ensures g < |After(s, later).channels| && Unwritten(s.channels[g], After(s, later).channels[g])
    decreases |later|
  {
    if later != [] {
      assert later[0] in later;
      assert forall next <- later[1..] :: next in later;
      DisconnectedIsSilent(s, later[0], g);
      SilentFrom(Apply(s, later[0]), later[1..], g);
    }
  }

  lemma StoppedStep(s: System, step: Step)
    requires Enabled(s, step) && s.consumer.closing && s.consumer.generation > 0
    ensures Apply(s, step).consumer.closing && Apply(s, step).consumer.generation == s.consumer.generation
    ensures |Apply(s, step).consumer.commands| <= |s.consumer.commands|
  {
  }

  /** Once the loop is stopped, whatever run follows queues no further command and opens no further channel. */
  lemma {:induction false} StoppedStaysStopped(s: System, later: seq<Step>)
    requires s.consumer.generation > 0 && IsRun(Apply(s, StopAccepting), later)
    ensures var t := After(Apply(s, StopAccepting), later);
            t.consumer.generation == s.consumer.generation && |t.consumer.commands| <= |s.consumer.commands|
  {
    StoppedFrom(Apply(s, StopAccepting), later);
  }

  lemma {:induction false} StoppedFrom(s: System, later: seq<Step>)
    requires s.consumer.generation > 0 && s.consumer.closing && IsRun(s, later)
    ensures After(s, later).consumer.generation == s.consumer.generation
    ensures |After(s, later).consumer.commands| <= |s.consumer.commands|
    decreases |later|
  {
    if later != [] {
      StoppedStep(s, later[0]);
      StoppedFrom(Apply(s, later[0]), later[1..]);
    }
  }

  /** After a channel error, unless the loop was stopped, the timer is set, opens a new channel, and that channel once
      ready is consumed from; the commands queued meanwhile are still there. */
  lemma RecoversFromError(steps: seq<Step>)
    requires IsRun(START, steps) && Enabled(After(START, steps), ChannelError) && !After(START, steps).consumer.closing
    ensures var s := After(START, steps);
            var s1, g := Apply(s, ChannelError), s.consumer.generation + 1;
            && !s1.consumer.connected && Enabled(s1, Reconnect)
            && var s2 := Apply(s1, Reconnect);
            && Enabled(s2, Ready(g))
            && var s3 := Apply(s2, Ready(g));
            && s3.consumer.connected && s3.consumer.generation == g == |s3.channels| - 1 && !s3.consumer.reconnectPending
            && s3.consumer.commands == s.consumer.commands && s3.channels[g].open && s3.channels[g].consuming
            && s3.channels[..g] == s.channels
  {
    MqGuarantees.ReachableIsFine(steps);
  }
}
