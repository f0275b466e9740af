/** Runs of the consumer with its broker on one channel, built from rounds: a delivery is forwarded to the retry
    exchange and the broker either refuses the publication or stores it. */
module MqScenario {
  import opened MqConsumer
  import opened MqProtocol

  /** What the one channel and the queues hold. */
  datatype Story = Story(
    copies: seq<Copy>, deliveries: seq<nat>, phases: seq<Phase>, sent: seq<Forward>, fate: map<nat, Fate>,
    settles: seq<nat>)

  /** The story told by a system: the consumer listens on channel 1. */
  function Told(y: Story, pending: map<nat, Forward>, commands: seq<Command>, todo: set<DeliveryContext>,
                up: set<Frame>, down: set<Event>): System {
    System(Consumer(1, true, true, {}, pending, |y.sent|, commands, false, false), y.copies,
           [CLOSED, Channel(true, true, up, down, y.deliveries, y.phases, y.sent, y.fate, y.settles)], todo, {})
  }

  /** Nothing is under way. */
  function Calm(y: Story): System { Told(y, map[], [], {}, {}, {}) }

  /** Copy c is in the main queue, and the story is told consistently. */
  predicate Waits(y: Story, c: nat) {
    && c < |y.copies| && y.copies[c].place == MainQueue && |y.phases| == |y.deliveries|
    && (forall n <- y.fate :: n < |y.sent|)
  }

  function Context(y: Story): DeliveryContext { DeliveryContext(|y.deliveries|, 1) }

  function Call(y: Story, c: nat, count: nat): Command
    requires c < |y.copies|
  {
    ForwardCommand(ToRetry, Context(y), y.copies[c].body, 1000, count)
  }

  function Published(y: Story, c: nat, count: nat): Forward
    requires c < |y.copies|
  {
    MakeForward(ToRetry, Context(y), y.copies[c].body, 1000, count)
  }

  function Delivering(y: Story, c: nat, phase: Phase): Story
    requires c < |y.copies|
  {
    y.(copies := Move(y.copies, c, Unacked(1, |y.deliveries|)), deliveries := y.deliveries + [c],
       phases := y.phases + [phase])
  }

  function Forwarding(y: Story, c: nat, count: nat): Story
    requires c < |y.copies|
  {
    Delivering(y, c, Forwarded(|y.sent|)).(sent := y.sent + [Published(y, c, count)])
  }

  // ----- from the queue to the publication -----

  predicate Leads(s: System, step: Step, t: System) { Enabled(s, step) && Apply(s, step) == t }

  lemma SetLast<T>(s: seq<T>, x: T, y: T)
    ensures (s + [x])[|s| := y] == s + [y]
  {
  }

  lemma ChannelSet(a: Channel, b: Channel)
    ensures [CLOSED, a][1 := b] == [CLOSED, b]
  {
  }

  lemma DeliverLeads(y: Story, c: nat)
    requires Waits(y, c)
    ensures Leads(Calm(y), Deliver(1, c), Told(Delivering(y, c, OnTheWay), map[], [], {}, {}, {Delivered(|y.deliveries|)}))
  {
    var s := Calm(y);
    var t := Told(Delivering(y, c, OnTheWay), map[], [], {}, {}, {Delivered(|y.deliveries|)});
    assert {} + {Delivered(|y.deliveries|)} == {Delivered(|y.deliveries|)};
    ChannelSet(s.channels[1], t.channels[1]);
  }

  lemma ArriveLeads(y: Story, c: nat)
    requires Waits(y, c)
    ensures Leads(Told(Delivering(y, c, OnTheWay), map[], [], {}, {}, {Delivered(|y.deliveries|)}),
                  Receive(Delivered(|y.deliveries|)),
                  Told(Delivering(y, c, WithApplication), map[], [], {Context(y)}, {}, {}))
  {
    var e := Delivered(|y.deliveries|);
    var s := Told(Delivering(y, c, OnTheWay), map[], [], {}, {}, {e});
    var t := Told(Delivering(y, c, WithApplication), map[], [], {Context(y)}, {}, {});
    assert {e} - {e} == {} && {} + {Context(y)} == {Context(y)};
    var mid := s.channels[1].(down := {});
    ChannelSet(s.channels[1], mid);
    SetLast(y.phases, OnTheWay, WithApplication);
    ChannelSet(mid, t.channels[1]);
  }

  lemma ResolveLeads(y: Story, c: nat, count: nat)
    requires Waits(y, c)
    ensures Leads(Told(Delivering(y, c, WithApplication), map[], [], {Context(y)}, {}, {}),
                  Resolve(Call(y, c, count)),
                  Told(Delivering(y, c, Queued), map[], [Call(y, c, count)], {}, {}, {}))
  {
    var s := Told(Delivering(y, c, WithApplication), map[], [], {Context(y)}, {}, {});
    var t := Told(Delivering(y, c, Queued), map[], [Call(y, c, count)], {}, {}, {});
    assert {Context(y)} - {Context(y)} == {} && [] + [Call(y, c, count)] == [Call(y, c, count)];
    SetLast(y.phases, WithApplication, Queued);
    ChannelSet(s.channels[1], t.channels[1]);
  }

  lemma PublishLeads(y: Story, c: nat, count: nat)
    requires Waits(y, c)
    ensures var f := Published(y, c, count);
            Leads(Told(Delivering(y, c, Queued), map[], [Call(y, c, count)], {}, {}, {}), RunCommand,
                  Told(Forwarding(y, c, count), map[|y.sent| := f], [], {}, {PublishFrame(|y.sent|, f)}, {}))
  {
    var f, n := Published(y, c, count), |y.sent|;
    var s := Told(Delivering(y, c, Queued), map[], [Call(y, c, count)], {}, {}, {});
    var t := Told(Forwarding(y, c, count), map[n := f], [], {}, {PublishFrame(n, f)}, {});
    assert s.consumer.commands[1..] == [];
    assert ExecuteHead(s.consumer) == (t.consumer, [PublishFrame(n, f)]);
    var mid := EmitFrame(s.channels[1], PublishFrame(n, f));
    assert [PublishFrame(n, f)][1..] == [];
    assert Emit(s.channels[1], [PublishFrame(n, f)]) == mid;
    assert {} + {PublishFrame(n, f)} == {PublishFrame(n, f)};
    ChannelSet(s.channels[1], mid);
    SetLast(y.phases, Queued, Forwarded(n));
    ChannelSet(mid, t.channels[1]);
  }

  // ----- refused -----

  /** The story after a round in which the broker refused the publication and the delivery was requeued. */
  function Refusing(y: Story, c: nat, count: nat): Story
    requires c < |y.copies|
  {
    y.(deliveries := y.deliveries + [c], phases := y.phases + [Forwarded(|y.sent|)],
       sent := y.sent + [Published(y, c, count)], fate := y.fate[|y.sent| := Refused], settles := y.settles + [|y.deliveries|])
  }

  lemma RefuseLeads(y: Story, c: nat, count: nat)
    requires Waits(y, c)
    ensures var f, n, z := Published(y, c, count), |y.sent|, Forwarding(y, c, count);
            Leads(Told(z, map[n := f], [], {}, {PublishFrame(n, f)}, {}), TakePublish(1, PublishFrame(n, f), Refused),
                  Told(z.(fate := y.fate[n := Refused]), map[n := f], [], {}, {}, {}))
  {
    var f, n, z := Published(y, c, count), |y.sent|, Forwarding(y, c, count);
    var s := Told(z, map[n := f], [], {}, {PublishFrame(n, f)}, {});
    var t := Told(z.(fate := y.fate[n := Refused]), map[n := f], [], {}, {}, {});
    assert {PublishFrame(n, f)} - {PublishFrame(n, f)} == {};
    ChannelSet(s.channels[1], t.channels[1]);
  }

  lemma NackLeads(y: Story, c: nat, count: nat)
    requires Waits(y, c)
    ensures var f, n, z := Published(y, c, count), |y.sent|, Forwarding(y, c, count).(fate := y.fate[|y.sent| := Refused]);
            Leads(Told(z, map[n := f], [], {}, {}, {}), EmitNack(1, n), Told(z, map[n := f], [], {}, {}, {NackedEvent(n)}))
  {
    var f, n, z := Published(y, c, count), |y.sent|, Forwarding(y, c, count).(fate := y.fate[|y.sent| := Refused]);
    assert {} + {NackedEvent(n)} == {NackedEvent(n)};
    ChannelSet(Told(z, map[n := f], [], {}, {}, {}).channels[1], Told(z, map[n := f], [], {}, {}, {NackedEvent(n)}).channels[1]);
  }

  /** The frame the consumer answers with settles the delivery of this round. */
  lemma AnswerLeads(s: System, e: Event, frame: Frame, t: System)
    requires Enabled(s, Receive(e)) && !e.Delivered? && !e.ReturnedEvent? && !frame.PublishFrame?
    requires |s.channels| == 2 && s.channels[0] == CLOSED && s.consumer.generation == 1
    requires s.channels[1].open && s.channels[1].up == {} && s.channels[1].down == {e}
    requires (if e.ConfirmedEvent? then OnConfirm(s.consumer, e.seqno) else OnPublishFailure(s.consumer, e.seqno))
          == (t.consumer, [frame])
    requires t == s.(consumer := t.consumer,
                     channels := [CLOSED, s.channels[1].(up := {frame}, down := {}, settles := s.channels[1].settles + [frame.tag])])
    requires t.consumer.generation == 1
    ensures Leads(s, Receive(e), t)
  {
    var ch := s.channels[1];
    var mid := ch.(down := {});
    assert s.channels == [CLOSED, ch];
    assert ch.down - {e} == {} && {} + {frame} == {frame};
    ChannelSet(ch, mid);
    assert [frame][1..] == [];
    assert Emit(mid, [frame]) == EmitFrame(mid, frame);
    ChannelSet(mid, t.channels[1]);
  }

  lemma RequeueLeads(y: Story, c: nat, count: nat)
    requires Waits(y, c)
    ensures var f, n, z := Published(y, c, count), |y.sent|, Forwarding(y, c, count).(fate := y.fate[|y.sent| := Refused]);
            Leads(Told(z, map[n := f], [], {}, {}, {NackedEvent(n)}), Receive(NackedEvent(n)),
                  Told(z.(settles := y.settles + [|y.deliveries|]), map[], [], {}, {RequeueFrame(|y.deliveries|)}, {}))
  {
    var f, n, z := Published(y, c, count), |y.sent|, Forwarding(y, c, count).(fate := y.fate[|y.sent| := Refused]);
    var s := Told(z, map[n := f], [], {}, {}, {NackedEvent(n)});
    var t := Told(z.(settles := y.settles + [|y.deliveries|]), map[], [], {}, {RequeueFrame(|y.deliveries|)}, {});
    assert s.consumer.pending - {n} == map[];
    assert OnPublishFailure(s.consumer, n) == (t.consumer, [RequeueFrame(|y.deliveries|)]);
    AnswerLeads(s, NackedEvent(n), RequeueFrame(|y.deliveries|), t);
  }

  lemma BackLeads(y: Story, c: nat, count: nat)
    requires Waits(y, c)
    ensures var z := Forwarding(y, c, count).(fate := y.fate[|y.sent| := Refused], settles := y.settles + [|y.deliveries|]);
            Leads(Told(z, map[], [], {}, {RequeueFrame(|y.deliveries|)}, {}), TakeSettle(1, RequeueFrame(|y.deliveries|)),
                  Calm(Refusing(y, c, count)))
  {
    var z := Forwarding(y, c, count).(fate := y.fate[|y.sent| := Refused], settles := y.settles + [|y.deliveries|]);
    var frame := RequeueFrame(|y.deliveries|);
    var s, t := Told(z, map[], [], {}, {frame}, {}), Calm(Refusing(y, c, count));
    assert Outstanding(s, 1, |y.deliveries|);
    assert Move(z.copies, c, MainQueue) == y.copies;
    assert {frame} - {frame} == {};
    ChannelSet(s.channels[1], t.channels[1]);
  }

  // ----- stored -----

  function Child(y: Story, c: nat, count: nat, place: Place, confirmed: bool): Copy
    requires c < |y.copies|
  {
    Copy(y.copies[c].origin, y.copies[c].body, count, place, confirmed)
  }

  /** The story after a round in which the broker stored the publication and the delivery was settled. */
  function Storing(y: Story, c: nat, count: nat): Story
    requires c < |y.copies|
  {
    y.(copies := Move(y.copies, c, Settled) + [Child(y, c, count, RetryQueue, true)],
       deliveries := y.deliveries + [c], phases := y.phases + [Forwarded(|y.sent|)],
       sent := y.sent + [Published(y, c, count)], fate := y.fate[|y.sent| := Routed(|y.copies|)],
       settles := y.settles + [|y.deliveries|])
  }

  function Stored(y: Story, c: nat, count: nat, confirmed: bool): Story
    requires c < |y.copies|
  {
    var z := Forwarding(y, c, count);
    z.(copies := z.copies + [Child(y, c, count, RetryQueue, confirmed)], fate := y.fate[|y.sent| := Routed(|y.copies|)])
  }

  lemma StoreLeads(y: Story, c: nat, count: nat)
    requires Waits(y, c)
    ensures var f, n := Published(y, c, count), |y.sent|;
            Leads(Told(Forwarding(y, c, count), map[n := f], [], {}, {PublishFrame(n, f)}, {}),
                  TakePublish(1, PublishFrame(n, f), Routed(|y.copies|)),
                  Told(Stored(y, c, count, false), map[n := f], [], {}, {}, {}))
  {
    var f, n, z := Published(y, c, count), |y.sent|, Forwarding(y, c, count);
    var s := Told(z, map[n := f], [], {}, {PublishFrame(n, f)}, {});
    var t := Told(Stored(y, c, count, false), map[n := f], [], {}, {}, {});
    assert {PublishFrame(n, f)} - {PublishFrame(n, f)} == {};
    assert CopyOf(s, f.delivery) == c && OriginOf(s, f.delivery) == y.copies[c].origin;
    ChannelSet(s.channels[1], t.channels[1]);
  }

  lemma ConfirmLeads(y: Story, c: nat, count: nat)
    requires Waits(y, c)
    ensures var f, n := Published(y, c, count), |y.sent|;
            Leads(Told(Stored(y, c, count, false), map[n := f], [], {}, {}, {}), EmitConfirm(1, n),
                  Told(Stored(y, c, count, true), map[n := f], [], {}, {}, {ConfirmedEvent(n)}))
  {
    var f, n := Published(y, c, count), |y.sent|;
    var s := Told(Stored(y, c, count, false), map[n := f], [], {}, {}, {});
    var t := Told(Stored(y, c, count, true), map[n := f], [], {}, {}, {ConfirmedEvent(n)});
    assert {} + {ConfirmedEvent(n)} == {ConfirmedEvent(n)};
    SetLast(Forwarding(y, c, count).copies, Child(y, c, count, RetryQueue, false), Child(y, c, count, RetryQueue, true));
    ChannelSet(s.channels[1], t.channels[1]);
  }

  lemma AckLeads(y: Story, c: nat, count: nat)
    requires Waits(y, c)
    ensures var f, n, z := Published(y, c, count), |y.sent|, Stored(y, c, count, true);
            Leads(Told(z, map[n := f], [], {}, {}, {ConfirmedEvent(n)}), Receive(ConfirmedEvent(n)),
                  Told(z.(settles := y.settles + [|y.deliveries|]), map[], [], {}, {AckFrame(|y.deliveries|)}, {}))
  {
    var f, n, z := Published(y, c, count), |y.sent|, Stored(y, c, count, true);
    var s := Told(z, map[n := f], [], {}, {}, {ConfirmedEvent(n)});
    var t := Told(z.(settles := y.settles + [|y.deliveries|]), map[], [], {}, {AckFrame(|y.deliveries|)}, {});
    assert s.consumer.pending - {n} == map[] && s.consumer.returned - {f.id} == {};
    assert OnConfirm(s.consumer, n) == (t.consumer, [AckFrame(|y.deliveries|)]);
    AnswerLeads(s, ConfirmedEvent(n), AckFrame(|y.deliveries|), t);
  }

  lemma SettleLeads(y: Story, c: nat, count: nat)
    requires Waits(y, c)
    ensures var z := Stored(y, c, count, true).(settles := y.settles + [|y.deliveries|]);
            Leads(Told(z, map[], [], {}, {AckFrame(|y.deliveries|)}, {}), TakeSettle(1, AckFrame(|y.deliveries|)),
                  Calm(Storing(y, c, count)))
  {
    var z := Stored(y, c, count, true).(settles := y.settles + [|y.deliveries|]);
    var frame := AckFrame(|y.deliveries|);
    var s, t := Told(z, map[], [], {}, {frame}, {}), Calm(Storing(y, c, count));
    assert Outstanding(s, 1, |y.deliveries|);
    assert Move(z.copies, c, Settled) == t.copies;
    assert {frame} - {frame} == {};
    ChannelSet(s.channels[1], t.channels[1]);
  }

  lemma ExpireLeads(y: Story, k: nat)
    requires k < |y.copies| && y.copies[k].place == RetryQueue
    ensures Leads(Calm(y), Expire(k), Calm(y.(copies := Move(y.copies, k, MainQueue))))
  {
  }

  // ----- the beginning -----

  function Beginning(body: string): Story { Story([Copy(0, body, 0, MainQueue, true)], [], [], [], map[], []) }

  function Opening(body: string, i: nat): System
    requires i < 4
  {
    var copy := Copy(0, body, 0, MainQueue, true);
    match i
    case 0 => START
    case 1 => System(INITIAL, [copy], [CLOSED], {}, {})
    case 2 => System(Consumer(1, false, true, {}, map[], 0, [], false, false), [copy], [CLOSED, FRESH], {}, {})
    case 3 => Calm(Beginning(body))
  }

  lemma OpeningLeads(body: string)
    ensures Leads(Opening(body, 0), Produce(body), Opening(body, 1))
    ensures Leads(Opening(body, 1), Start, Opening(body, 2))
    ensures Leads(Opening(body, 2), Ready(1), Opening(body, 3))
  {
    ChannelSet(FRESH, FRESH.(consuming := true));
  }
}
