/** How often a message is retried, in every run in which the application settles deliveries by a rule: the policy
    table, or what the judge consumer does instead. */
module MqRetries {
  import opened MqConsumer
  import opened MqProtocol
  import opened MqSafety
  import Policy = RetryPolicy

  // ----- the rules -----

  datatype Rule = ByTable | ByConsumer

  /** Under the rule, a delivery received with a count is forwarded this way. */
  predicate Decides(rule: Rule, decision: Policy.ReportDecision, received: nat, kind: Kind, count: nat) {
    match rule
    case ByTable =>
      var action := Policy.ResolveDeliveryAction(decision, received);
      if kind.ToRetry? then action == Policy.Retry && count == Policy.NextCount(received)
      else action == Policy.DeadLetter && count == received
    case ByConsumer =>
      var call := Policy.FinishDelivery(decision, received, 0);
      if kind.ToRetry? then call.CallRetry? && call.count == count
      else call.CallDeadLetter? && call.count == count
  }

  /** Some decision about a delivery of a copy that carries `carried` leads to this forward. The received count is
      never below the carried one. */
  ghost predicate Allowed(rule: Rule, kind: Kind, count: nat, carried: nat) {
    exists decision, received: nat :: carried <= received < Policy.UINT32 && Decides(rule, decision, received, kind, count)
  }

  ghost predicate CommandAllowed(rule: Rule, s: System, command: Command) {
    command.ForwardCommand? ==>
      CopyOf(s, command.delivery) < |s.copies| &&
      Allowed(rule, command.kind, command.count, s.copies[CopyOf(s, command.delivery)].count)
  }

  ghost predicate Follows(rule: Rule, s: System, step: Step) {
    step.Resolve? ==> CommandAllowed(rule, s, step.command)
  }

  ghost predicate RuledRun(rule: Rule, s: System, steps: seq<Step>)
    decreases |steps|
  {
    steps == [] ||
    (Enabled(s, steps[0]) && Follows(rule, s, steps[0]) && RuledRun(rule, Apply(s, steps[0]), steps[1..]))
  }

  lemma {:induction false} RuledIsRun(rule: Rule, s: System, steps: seq<Step>)
    requires RuledRun(rule, s, steps)
    ensures IsRun(s, steps)
    decreases |steps|
  {
    if steps != [] {
      RuledIsRun(rule, Apply(s, steps[0]), steps[1..]);
    }
  }

  // ----- publications and the copies they make -----

  predicate SentAt(s: System, g: nat, n: nat) { g < |s.channels| && n < |s.channels[g].sent| }

  /** The copy that publication n of channel g was made from. */
  function Source(s: System, g: nat, n: nat): nat
    requires SentAt(s, g, n)
  {
    var ch := s.channels[g];
    var tag := ch.sent[n].delivery.tag;
    if tag < |ch.deliveries| then ch.deliveries[tag] else |s.copies|
  }

  /** Publication n of channel g was stored as copy c. */
  predicate Makes(s: System, g: nat, n: nat, c: nat) {
    SentAt(s, g, n) && n in s.channels[g].fate && s.channels[g].fate[n] == Routed(c)
  }

  predicate RetryAt(s: System, g: nat, n: nat) { SentAt(s, g, n) && s.channels[g].sent[n].kind == ToRetry }

  // ----- the invariant -----

  predicate AtRest(place: Place) { place == DeadQueue || place == Dropped }

  predicate Handed(s: System, h: nat, t: nat, c: nat) {
    h < |s.channels| && t < |s.channels[h].deliveries| && s.channels[h].deliveries[t] == c
  }

  /** Copy c rests in the dead-letter queue or was lost there, and was never delivered. */
  ghost predicate Buried(s: System, c: nat) {
    c < |s.copies| && AtRest(s.copies[c].place) && forall h: nat, t: nat :: !Handed(s, h, t, c)
  }

  ghost predicate SentFine(rule: Rule, s: System, g: nat, n: nat)
    requires SentAt(s, g, n)
  {
    && Source(s, g, n) < |s.copies|
    && Handed(s, g, s.channels[g].sent[n].delivery.tag, Source(s, g, n))
    && Allowed(rule, s.channels[g].sent[n].kind, s.channels[g].sent[n].count, s.copies[Source(s, g, n)].count)
  }

  ghost predicate MadeFine(s: System, g: nat, n: nat, c: nat)
    requires Makes(s, g, n, c)
  {
    && Source(s, g, n) < c < |s.copies|
    && s.copies[c].count == s.channels[g].sent[n].count
    && s.copies[c].origin == s.copies[Source(s, g, n)].origin
    && (s.channels[g].sent[n].kind == ToDeadLetter ==> Buried(s, c))
  }

  ghost predicate HasMaker(s: System, c: nat)
    requires c < |s.copies|
  {
    s.copies[c].origin == c || exists g: nat, n: nat :: Makes(s, g, n, c)
  }

  ghost predicate Ruled(rule: Rule, s: System) {
    && (forall i :: 0 <= i < |s.consumer.commands| ==> CommandAllowed(rule, s, s.consumer.commands[i]))
    && (forall g: nat, n: nat :: SentAt(s, g, n) ==> SentFine(rule, s, g, n))
    && (forall g: nat, n: nat, c: nat :: Makes(s, g, n, c) ==> MadeFine(s, g, n, c))
    && (forall c :: 0 <= c < |s.copies| ==> HasMaker(s, c))
  }

  // ----- what every step extends -----

  ghost predicate CopiesExtend(a: seq<Copy>, b: seq<Copy>) {
    && |a| <= |b|
    && forall c :: 0 <= c < |a| ==>
         b[c].count == a[c].count && b[c].origin == a[c].origin && (AtRest(a[c].place) ==> AtRest(b[c].place))
  }

  /** New deliveries on the channel are of copies that were in the main queue. */
  ghost predicate ChannelExtends(copies: seq<Copy>, a: Channel, b: Channel) {
    && a.sent <= b.sent && a.deliveries <= b.deliveries
    && (forall n :: n in a.fate ==> n in b.fate && b.fate[n] == a.fate[n])
    && (forall t :: |a.deliveries| <= t < |b.deliveries| ==>
          b.deliveries[t] < |copies| && copies[b.deliveries[t]].place == MainQueue)
  }

  ghost predicate Extends(s: System, s': System) {
    && CopiesExtend(s.copies, s'.copies)
    && |s.channels| <= |s'.channels|
    && (forall g :: 0 <= g < |s.channels| ==> ChannelExtends(s.copies, s.channels[g], s'.channels[g]))
    && (forall g :: |s.channels| <= g < |s'.channels| ==>
          s'.channels[g].sent == [] && s'.channels[g].fate == map[] && s'.channels[g].deliveries == [])
  }

  lemma BuriedStays(s: System, s': System, c: nat)
    requires Extends(s, s') && Buried(s, c)
    ensures Buried(s', c)
  {
    forall h: nat, t: nat
      ensures !Handed(s', h, t, c)
    {
      if Handed(s', h, t, c) && h < |s.channels| && t < |s.channels[h].deliveries| {
        assert Handed(s, h, t, c);
      }
    }
  }

  lemma SentStays(rule: Rule, s: System, s': System, g: nat, n: nat)
    requires Extends(s, s') && SentAt(s, g, n) && SentFine(rule, s, g, n)
    ensures SentAt(s', g, n) && SentFine(rule, s', g, n) && Source(s', g, n) == Source(s, g, n)
    ensures s'.channels[g].sent[n] == s.channels[g].sent[n]
  {
  }

  lemma MadeStays(rule: Rule, s: System, s': System, g: nat, n: nat, c: nat)
    requires Extends(s, s') && SentAt(s, g, n) && SentFine(rule, s, g, n) && Makes(s, g, n, c) && MadeFine(s, g, n, c)
    ensures Makes(s', g, n, c) && MadeFine(s', g, n, c)
  {
    SentStays(rule, s, s', g, n);
    if s.channels[g].sent[n].kind == ToDeadLetter {
      BuriedStays(s, s', c);
    }
  }

  lemma CommandStays(rule: Rule, s: System, s': System, command: Command)
    requires Extends(s, s') && CommandAllowed(rule, s, command) && Known(s, command.delivery) && Known(s', command.delivery)
    ensures CommandAllowed(rule, s', command)
  {
  }

  /** A state that extends a ruled one is ruled if what is new in it is. */
  lemma ExtendsKeeps(rule: Rule, s: System, s': System)
    requires Inv(s) && Inv(s') && Ruled(rule, s) && Extends(s, s')
    requires forall i :: 0 <= i < |s'.consumer.commands| ==>
               s'.consumer.commands[i] in s.consumer.commands || CommandAllowed(rule, s', s'.consumer.commands[i])
    requires forall g: nat, n: nat :: SentAt(s', g, n) && !SentAt(s, g, n) ==> SentFine(rule, s', g, n)
    requires forall g: nat, n: nat, c: nat :: Makes(s', g, n, c) && !Makes(s, g, n, c) ==> MadeFine(s', g, n, c)
    requires forall c :: |s.copies| <= c < |s'.copies| ==> HasMaker(s', c)
    ensures Ruled(rule, s')
  {
    forall i | 0 <= i < |s'.consumer.commands|
      ensures CommandAllowed(rule, s', s'.consumer.commands[i])
    {
      CommandsStay(rule, s, s', i);
    }
    forall g: nat, n: nat | SentAt(s', g, n)
      ensures SentFine(rule, s', g, n)
    {
      if SentAt(s, g, n) {
        SentStays(rule, s, s', g, n);
      }
    }
    forall g: nat, n: nat, c: nat | Makes(s', g, n, c)
      ensures MadeFine(s', g, n, c)
    {
      if Makes(s, g, n, c) {
        MadeStays(rule, s, s', g, n, c);
      }
    }
    forall c | 0 <= c < |s'.copies|
      ensures HasMaker(s', c)
    {
      if c < |s.copies| {
        MakerStays(rule, s, s', c);
      }
    }
  }

  lemma MakerStays(rule: Rule, s: System, s': System, c: nat)
    requires Ruled(rule, s) && Extends(s, s') && c < |s.copies|
    ensures HasMaker(s', c)
  {
    if s.copies[c].origin != c {
      assert HasMaker(s, c);
      var g: nat, n: nat :| Makes(s, g, n, c);
      MadeStays(rule, s, s', g, n, c);
    }
  }

  lemma CommandsStay(rule: Rule, s: System, s': System, i: nat)
    requires Inv(s) && Inv(s') && Ruled(rule, s) && Extends(s, s') && i < |s'.consumer.commands|
    requires s'.consumer.commands[i] in s.consumer.commands || CommandAllowed(rule, s', s'.consumer.commands[i])
    ensures CommandAllowed(rule, s', s'.consumer.commands[i])
  {
    var command := s'.consumer.commands[i];
    if command in s.consumer.commands {
      var j :| 0 <= j < |s.consumer.commands| && s.consumer.commands[j] == command;
      assert CommandAllowed(rule, s, s.consumer.commands[j]);
      assert CommandOk(s, s.consumer.commands[j]) && CommandOk(s', s'.consumer.commands[i]);
      CommandStays(rule, s, s', command);
    }
  }

  // ----- steps that neither publish nor store -----

  predicate Untouched(a: Channel, b: Channel) { b.sent == a.sent && b.fate == a.fate && b.deliveries == a.deliveries }

  /** Nothing was published, stored or delivered; commands were at most taken off. */
  ghost predicate Plain(s: System, s': System) {
    && CopiesExtend(s.copies, s'.copies) && |s'.copies| == |s.copies|
    && |s.channels| <= |s'.channels|
    && (forall g :: 0 <= g < |s.channels| ==> Untouched(s.channels[g], s'.channels[g]))
    && (forall g :: |s.channels| <= g < |s'.channels| ==> Untouched(CLOSED, s'.channels[g]))
    && (forall command :: command in s'.consumer.commands ==> command in s.consumer.commands)
  }

  lemma PlainKeeps(rule: Rule, s: System, s': System)
    requires Inv(s) && Inv(s') && Ruled(rule, s) && Plain(s, s')
    ensures Ruled(rule, s')
  {
    forall i | 0 <= i < |s'.consumer.commands|
      ensures s'.consumer.commands[i] in s.consumer.commands
    {
      assert s'.consumer.commands[i] in s'.consumer.commands;
    }
    ExtendsKeeps(rule, s, s');
  }

  lemma PlainTrans(s: System, t: System, u: System)
    requires Plain(s, t) && Plain(t, u)
    ensures Plain(s, u)
  {
  }

  /** Only the copies moved. */
  lemma MovedPlain(s: System, copies: seq<Copy>, g: nat, ch: Channel)
    requires CopiesExtend(s.copies, copies) && |copies| == |s.copies|
    requires g < |s.channels| && Untouched(s.channels[g], ch)
    ensures Plain(s, s.(copies := copies, channels := s.channels[g := ch]))
  {
  }

  lemma ConsumerPlain(s: System, c: Consumer, todo: set<DeliveryContext>, g: nat, ch: Channel)
    requires forall command :: command in c.commands ==> command in s.consumer.commands
    requires g < |s.channels| && Untouched(s.channels[g], ch)
    ensures Plain(s, s.(consumer := c, todo := todo, channels := s.channels[g := ch]))
  {
  }

  lemma EmitUntouched(ch: Channel, frames: seq<Frame>)
    requires |frames| <= 1 && (|frames| == 1 ==> !frames[0].PublishFrame?)
    ensures Untouched(ch, Emit(ch, frames))
  {
    if frames != [] {
      assert frames[1..] == [];
    }
  }

  lemma EffectPlain(s: System, effect: Effect)
    requires effect.0.generation < |s.channels|
    requires forall command :: command in effect.0.commands ==> command in s.consumer.commands
    requires |effect.1| <= 1 && (|effect.1| == 1 ==> !effect.1[0].PublishFrame?)
    ensures Plain(s, WithEffect(s, effect))
  {
    var g := effect.0.generation;
    EmitUntouched(s.channels[g], effect.1);
    ConsumerPlain(s, effect.0, s.todo, g, Emit(s.channels[g], effect.1));
    assert WithEffect(s, effect) == s.(consumer := effect.0, todo := s.todo, channels := s.channels[g := Emit(s.channels[g], effect.1)]);
  }

  lemma PhasePlain(s: System, d: DeliveryContext, phase: Phase)
    ensures Plain(s, WithPhase(s, d, phase))
  {
  }

  lemma ReceivePlain(s: System, e: Event)
    requires Enabled(s, Receive(e))
    ensures Plain(s, ApplyReceive(s, e))
  {
    var g := s.consumer.generation;
    var ch := s.channels[g].(down := s.channels[g].down - {e});
    var s1 := s.(channels := s.channels[g := ch]);
    ConsumerPlain(s, s.consumer, s.todo, g, ch);
    assert s1 == s.(consumer := s.consumer, todo := s.todo, channels := s.channels[g := ch]);
    match e
    case Delivered(tag) =>
      var d := DeliveryContext(tag, g);
      var s2 := s1.(todo := s.todo + {d});
      assert Plain(s1, s2);
      PhasePlain(s2, d, WithApplication);
      PlainTrans(s, s1, s2);
      PlainTrans(s, s2, WithPhase(s2, d, WithApplication));
    case ReturnedEvent(id) =>
    case ConfirmedEvent(n) =>
      EffectPlain(s1, OnConfirm(s.consumer, n));
      PlainTrans(s, s1, WithEffect(s1, OnConfirm(s.consumer, n)));
    case NackedEvent(n) =>
      EffectPlain(s1, OnPublishFailure(s.consumer, n));
      PlainTrans(s, s1, WithEffect(s1, OnPublishFailure(s.consumer, n)));
  }

  lemma ClosePlain(s: System, g: nat)
    requires g < |s.channels|
    ensures Plain(s, ApplyClose(s, g))
  {
    MovedPlain(s, Requeue(s.copies, g), g, s.channels[g].(open := false, up := {}));
  }

  lemma SettlePlain(s: System, g: nat, frame: Frame)
    requires Enabled(s, TakeSettle(g, frame))
    ensures Plain(s, ApplySettle(s, g, frame))
  {
    if !Outstanding(s, g, frame.tag) {
      ClosePlain(s, g);
    } else {
      var ch := s.channels[g];
      var c := ch.deliveries[frame.tag];
      var copies := Move(s.copies, c, if frame.AckFrame? then Settled else MainQueue);
      assert !AtRest(s.copies[c].place);
      MovedPlain(s, copies, g, ch.(up := ch.up - {frame}));
    }
  }

  lemma BrokerPlain(s: System, step: Step)
    requires Enabled(s, step)
    requires step.Expire? || step.Lose? || step.TakeSettle? || step.EmitConfirm? || step.EmitNack? || step.CloseChannel?
    ensures Plain(s, Apply(s, step))
  {
    match step
    case Expire(c) =>
    case Lose(c) =>
    case TakeSettle(g, frame) => SettlePlain(s, g, frame);
    case EmitConfirm(g, n) =>
    case EmitNack(g, n) =>
    case CloseChannel(g) => ClosePlain(s, g);
  }

  lemma ConsumerStepPlain(s: System, step: Step)
    requires Enabled(s, step)
    requires step.Receive? || step.PublishError? || step.ChannelError? || step.Ready? || step.Start? || step.Reconnect? ||
             step.ClearConnected? || step.StopAccepting?
    ensures Plain(s, Apply(s, step))
  {
    match step
    case Receive(e) => ReceivePlain(s, e);
    case PublishError(n) => EffectPlain(s, OnPublishFailure(s.consumer, n));
    case _ =>
  }

  // ----- steps that publish, store or deliver -----

  lemma ProduceRuled(rule: Rule, s: System, body: string)
    requires Inv(s) && Ruled(rule, s) && Inv(Apply(s, Produce(body)))
    ensures Ruled(rule, Apply(s, Produce(body)))
  {
    ExtendsKeeps(rule, s, Apply(s, Produce(body)));
  }

  lemma DeliverExtends(s: System, g: nat, c: nat)
    requires Enabled(s, Deliver(g, c))
    ensures var s' := Apply(s, Deliver(g, c));
            && Extends(s, s') && |s'.copies| == |s.copies| && s'.consumer == s.consumer
            && (forall h: nat, n: nat :: SentAt(s', h, n) ==> SentAt(s, h, n))
            && (forall h: nat, n: nat, k: nat :: Makes(s', h, n, k) ==> Makes(s, h, n, k))
  {
  }

  lemma DeliverRuled(rule: Rule, s: System, g: nat, c: nat)
    requires Inv(s) && Ruled(rule, s) && Enabled(s, Deliver(g, c)) && Inv(Apply(s, Deliver(g, c)))
    ensures Ruled(rule, Apply(s, Deliver(g, c)))
  {
    DeliverExtends(s, g, c);
    ExtendsKeeps(rule, s, Apply(s, Deliver(g, c)));
  }

  lemma ResolveExtends(s: System, command: Command)
    requires Enabled(s, Resolve(command)) && Known(s, command.delivery)
    ensures var s' := Apply(s, Resolve(command));
            && Extends(s, s') && |s'.copies| == |s.copies| && Known(s', command.delivery)
            && (forall g: nat, n: nat :: SentAt(s', g, n) ==> SentAt(s, g, n))
            && (forall g: nat, n: nat, c: nat :: Makes(s', g, n, c) ==> Makes(s, g, n, c))
            && (forall i :: 0 <= i < |s'.consumer.commands| ==>
                  s'.consumer.commands[i] in s.consumer.commands || s'.consumer.commands[i] == command)
  {
    PhasePlain(s, command.delivery, if s.consumer.closing then Finished else Queued);
  }

  lemma ResolveRuled(rule: Rule, s: System, command: Command)
    requires Inv(s) && Ruled(rule, s) && Enabled(s, Resolve(command)) && Inv(Apply(s, Resolve(command)))
    requires CommandAllowed(rule, s, command)
    ensures Ruled(rule, Apply(s, Resolve(command)))
  {
    assert HasPhase(s, command.delivery, WithApplication);
    ResolveExtends(s, command);
    CommandStays(rule, s, Apply(s, Resolve(command)), command);
    ExtendsKeeps(rule, s, Apply(s, Resolve(command)));
  }

  lemma RunPlain(s: System)
    requires Enabled(s, RunCommand)
    requires !(IsCurrent(s.consumer, s.consumer.commands[0].delivery) && s.consumer.commands[0].ForwardCommand?)
    ensures Plain(s, Apply(s, RunCommand))
  {
    var effect := ExecuteHead(s.consumer);
    EffectPlain(s, effect);
    var s1 := WithEffect(s, effect);
    PhasePlain(s1, s.consumer.commands[0].delivery, Finished);
    PlainTrans(s, s1, WithPhase(s1, s.consumer.commands[0].delivery, Finished));
  }

  /** The forward at the head of the queue is written to the live channel. */
  function HeadForward(c: Consumer): Forward
    requires c.commands != [] && c.commands[0].ForwardCommand?
  {
    var k := c.commands[0];
    MakeForward(k.kind, k.delivery, k.body, k.retryAfterMs, k.count)
  }

  lemma RunForwardIs(s: System)
    requires Enabled(s, RunCommand) && s.consumer.commands[0].ForwardCommand?
    requires IsCurrent(s.consumer, s.consumer.commands[0].delivery) && Known(s, s.consumer.commands[0].delivery)
    ensures var s', g := Apply(s, RunCommand), s.consumer.generation;
            && s'.copies == s.copies && |s'.channels| == |s.channels|
            && s'.consumer.commands == s.consumer.commands[1..]
            && s'.channels[g].sent == s.channels[g].sent + [HeadForward(s.consumer)]
            && s'.channels[g].fate == s.channels[g].fate && s'.channels[g].deliveries == s.channels[g].deliveries
            && (forall h :: 0 <= h < |s.channels| && h != g ==> s'.channels[h] == s.channels[h])
  {
    var frame := PublishFrame(s.consumer.published, HeadForward(s.consumer));
    assert [frame][1..] == [];
    assert ExecuteHead(s.consumer).1 == [frame];
    assert Emit(s.channels[s.consumer.generation], [frame]) == EmitFrame(s.channels[s.consumer.generation], frame);
  }

  lemma RunForwardExtends(s: System)
    requires Enabled(s, RunCommand) && s.consumer.commands[0].ForwardCommand?
    requires IsCurrent(s.consumer, s.consumer.commands[0].delivery) && Known(s, s.consumer.commands[0].delivery)
    ensures var s', g := Apply(s, RunCommand), s.consumer.generation;
            && Extends(s, s') && |s'.copies| == |s.copies|
            && (forall h: nat, m: nat :: SentAt(s', h, m) && !SentAt(s, h, m) ==> h == g && m == |s.channels[g].sent|)
            && (forall h: nat, m: nat, c: nat :: Makes(s', h, m, c) ==> SentAt(s, h, m) ==> Makes(s, h, m, c))
            && (forall i :: 0 <= i < |s'.consumer.commands| ==> s'.consumer.commands[i] in s.consumer.commands)
  {
    RunForwardIs(s);
  }

  lemma ForwardedIsFine(rule: Rule, s: System)
    requires Enabled(s, RunCommand) && s.consumer.commands[0].ForwardCommand?
    requires IsCurrent(s.consumer, s.consumer.commands[0].delivery) && Known(s, s.consumer.commands[0].delivery)
    requires CommandAllowed(rule, s, s.consumer.commands[0])
    ensures var s', g := Apply(s, RunCommand), s.consumer.generation;
            var n := |s.channels[g].sent|;
            SentAt(s', g, n) && SentFine(rule, s', g, n)
  {
    RunForwardIs(s);
    var s', g, head := Apply(s, RunCommand), s.consumer.generation, s.consumer.commands[0];
    var n := |s.channels[g].sent|;
    assert s'.channels[g].sent[n] == HeadForward(s.consumer);
    assert Source(s', g, n) == CopyOf(s, head.delivery);
  }

  lemma NoNewFates(s: System)
    requires Inv(s) && Enabled(s, RunCommand) && s.consumer.commands[0].ForwardCommand?
    requires IsCurrent(s.consumer, s.consumer.commands[0].delivery) && Known(s, s.consumer.commands[0].delivery)
    ensures forall h: nat, m: nat, c: nat :: Makes(Apply(s, RunCommand), h, m, c) ==> Makes(s, h, m, c)
  {
    RunForwardIs(s);
    var s', g := Apply(s, RunCommand), s.consumer.generation;
    FatesAreOfSent(s, g);
    forall h: nat, m: nat, c: nat | Makes(s', h, m, c)
      ensures Makes(s, h, m, c)
    {
      if h == g {
        assert m in s.channels[g].fate;
        assert m < |s.channels[g].sent|;
      }
    }
  }

  lemma RunForwardRuled(rule: Rule, s: System)
    requires Inv(s) && Ruled(rule, s) && Enabled(s, RunCommand) && Inv(Apply(s, RunCommand))
    requires s.consumer.commands[0].ForwardCommand? && IsCurrent(s.consumer, s.consumer.commands[0].delivery)
    ensures Ruled(rule, Apply(s, RunCommand))
  {
    var head := s.consumer.commands[0];
    assert CommandOk(s, head) && CommandAllowed(rule, s, head);
    RunForwardExtends(s);
    ForwardedIsFine(rule, s);
    NoNewFates(s);
    ExtendsKeeps(rule, s, Apply(s, RunCommand));
  }

  lemma RunCommandRuled(rule: Rule, s: System)
    requires Inv(s) && Ruled(rule, s) && Enabled(s, RunCommand) && Inv(Apply(s, RunCommand))
    ensures Ruled(rule, Apply(s, RunCommand))
  {
    if s.consumer.commands[0].ForwardCommand? && IsCurrent(s.consumer, s.consumer.commands[0].delivery) {
      RunForwardRuled(rule, s);
    } else {
      RunPlain(s);
      PlainKeeps(rule, s, Apply(s, RunCommand));
    }
  }

  lemma PublishIs(s: System, g: nat, frame: Frame, fate: Fate)
    requires Inv(s) && Enabled(s, TakePublish(g, frame, fate))
    ensures frame.seqno < |s.channels[g].sent| && s.channels[g].sent[frame.seqno] == frame.forward
    ensures frame.seqno !in s.channels[g].fate
    ensures Known(s, frame.forward.delivery) && frame.forward.delivery.generation == g
    ensures CopyOf(s, frame.forward.delivery) == Source(s, g, frame.seqno) < |s.copies|
    ensures forall h: nat, t: nat :: !Handed(s, h, t, |s.copies|)
  {
    assert ChannelOk(g, s.channels[g], s.copies, s.acked);
    forall h: nat, t: nat
      ensures !Handed(s, h, t, |s.copies|)
    {
      if h < |s.channels| {
        assert ChannelOk(h, s.channels[h], s.copies, s.acked);
      }
    }
  }

  lemma PublishExtends(s: System, g: nat, frame: Frame, fate: Fate)
    requires Enabled(s, TakePublish(g, frame, fate)) && frame.seqno !in s.channels[g].fate
    ensures var s' := ApplyPublish(s, g, frame, fate);
            && Extends(s, s') && s'.consumer == s.consumer
            && (forall h: nat, m: nat :: SentAt(s', h, m) ==> SentAt(s, h, m))
            && (forall h: nat, m: nat, c: nat :: Makes(s', h, m, c) && !Makes(s, h, m, c) ==>
                  h == g && m == frame.seqno && fate == Routed(c))
            && (forall h: nat, t: nat, c: nat :: Handed(s', h, t, c) ==> Handed(s, h, t, c))
  {
  }

  lemma StoredIsFine(s: System, g: nat, frame: Frame, fate: Fate)
    requires Inv(s) && Enabled(s, TakePublish(g, frame, fate)) && fate.Routed?
    ensures var s' := ApplyPublish(s, g, frame, fate);
            Makes(s', g, frame.seqno, |s.copies|) && MadeFine(s', g, frame.seqno, |s.copies|)
  {
    PublishIs(s, g, frame, fate);
    PublishExtends(s, g, frame, fate);
    var s', c := ApplyPublish(s, g, frame, fate), |s.copies|;
    assert s'.copies[c] == Copy(OriginOf(s, frame.forward.delivery), frame.forward.body, frame.forward.count,
                                Destination(frame.forward.kind), false);
    assert Source(s', g, frame.seqno) == Source(s, g, frame.seqno);
  }

  lemma StoredHasMaker(s: System, g: nat, frame: Frame, fate: Fate, c: nat)
    requires Inv(s) && Enabled(s, TakePublish(g, frame, fate))
    requires |s.copies| <= c < |ApplyPublish(s, g, frame, fate).copies|
    ensures HasMaker(ApplyPublish(s, g, frame, fate), c)
  {
    assert fate.Routed? && c == |s.copies|;
    StoredIsFine(s, g, frame, fate);
  }

  lemma NewIsFine(s: System, g: nat, frame: Frame, fate: Fate, h: nat, m: nat, c: nat)
    requires Inv(s) && Enabled(s, TakePublish(g, frame, fate))
    requires Makes(ApplyPublish(s, g, frame, fate), h, m, c) && !Makes(s, h, m, c)
    ensures MadeFine(ApplyPublish(s, g, frame, fate), h, m, c)
  {
    PublishIs(s, g, frame, fate);
    PublishExtends(s, g, frame, fate);
    StoredIsFine(s, g, frame, fate);
  }

  lemma PublishRuled(rule: Rule, s: System, g: nat, frame: Frame, fate: Fate)
    requires Inv(s) && Ruled(rule, s) && Enabled(s, TakePublish(g, frame, fate))
    requires Inv(ApplyPublish(s, g, frame, fate))
    ensures Ruled(rule, ApplyPublish(s, g, frame, fate))
  {
    var s' := ApplyPublish(s, g, frame, fate);
    forall h: nat, m: nat, c: nat | Makes(s', h, m, c) && !Makes(s, h, m, c)
      ensures MadeFine(s', h, m, c)
    {
      NewIsFine(s, g, frame, fate, h, m, c);
    }
    forall c | |s.copies| <= c < |s'.copies|
      ensures HasMaker(s', c)
    {
      StoredHasMaker(s, g, frame, fate, c);
    }
    PublishSends(s, g, frame, fate);
    ExtendsKeeps(rule, s, s');
  }

  lemma PublishSends(s: System, g: nat, frame: Frame, fate: Fate)
    requires Inv(s) && Enabled(s, TakePublish(g, frame, fate))
    ensures var s' := ApplyPublish(s, g, frame, fate);
            Extends(s, s') && s'.consumer == s.consumer && forall h: nat, m: nat :: SentAt(s', h, m) ==> SentAt(s, h, m)
  {
    PublishIs(s, g, frame, fate);
    PublishExtends(s, g, frame, fate);
  }

  predicate Adds(step: Step) {
    step.Produce? || step.Deliver? || step.Resolve? || step.RunCommand? || step.TakePublish?
  }

  lemma AddingRuled(rule: Rule, s: System, step: Step)
    requires Inv(s) && Ruled(rule, s) && Enabled(s, step) && Follows(rule, s, step) && Adds(step) && Inv(Apply(s, step))
    ensures Ruled(rule, Apply(s, step))
  {
    match step
    case Produce(body) => ProduceRuled(rule, s, body);
    case Deliver(g, c) => DeliverRuled(rule, s, g, c);
    case Resolve(command) => ResolveRuled(rule, s, command);
    case RunCommand => RunCommandRuled(rule, s);
    case TakePublish(g, frame, fate) => PublishRuled(rule, s, g, frame, fate);
  }

  lemma OtherPlain(s: System, step: Step)
    requires Enabled(s, step) && !Adds(step)
    ensures Plain(s, Apply(s, step))
  {
    if OfBroker(step) {
      BrokerPlain(s, step);
    } else {
      ConsumerStepPlain(s, step);
    }
  }

  /** Every step that follows the rule keeps to it what was queued, published and stored. */
  lemma StepRuled(rule: Rule, s: System, step: Step)
    requires Inv(s) && Ruled(rule, s) && Enabled(s, step) && Follows(rule, s, step)
    ensures Inv(Apply(s, step)) && Ruled(rule, Apply(s, step))
  {
    StepKeeps(s, step);
    if Adds(step) {
      AddingRuled(rule, s, step);
    } else {
      OtherPlain(s, step);
      PlainKeeps(rule, s, Apply(s, step));
    }
  }

  lemma {:induction false} RunRuled(rule: Rule, s: System, steps: seq<Step>)
    requires Inv(s) && Ruled(rule, s) && RuledRun(rule, s, steps)
    ensures IsRun(s, steps) && Inv(After(s, steps)) && Ruled(rule, After(s, steps))
    decreases |steps|
  {
    if steps != [] {
      StepRuled(rule, s, steps[0]);
      RunRuled(rule, Apply(s, steps[0]), steps[1..]);
    }
  }
}
