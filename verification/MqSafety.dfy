/** The inductive invariant of the step machine of module MqProtocol, and what follows from it. */
module MqSafety {
  import opened MqConsumer
  import opened MqProtocol

  // ----- the invariant -----

  /** Deleting copy c is harmless: its origin was acknowledged by the application, or the broker
      has confirmed a later copy of the same origin. */
  ghost predicate Covered(copies: seq<Copy>, acked: set<nat>, c: nat)
    requires c < |copies|
  {
    copies[c].origin in acked ||
    exists d :: c < d < |copies| && copies[d].origin == copies[c].origin && copies[d].confirmed
  }

  ghost predicate CopyOk(copies: seq<Copy>, acked: set<nat>, c: nat)
    requires c < |copies|
  {
    && copies[c].origin <= c
    && copies[copies[c].origin].origin == copies[c].origin
    && copies[copies[c].origin].confirmed
    && copies[c].body == copies[copies[c].origin].body
    && (copies[c].confirmed ==> copies[c].place != Dropped)
    && (copies[c].place == Settled ==> Covered(copies, acked, c))
  }

  ghost predicate CopiesOk(copies: seq<Copy>, acked: set<nat>) {
    forall c :: 0 <= c < |copies| ==> CopyOk(copies, acked, c)
  }

  /** An unacknowledged copy is the one its channel delivered under that tag. */
  ghost predicate UnackedOk(copies: seq<Copy>, channels: seq<Channel>) {
    forall c :: 0 <= c < |copies| && copies[c].place.Unacked? ==>
      var g, t := copies[c].place.generation, copies[c].place.tag;
      g < |channels| && channels[g].open && t < |channels[g].deliveries| && channels[g].deliveries[t] == c
  }

  ghost predicate DeliveriesOk(g: nat, ch: Channel, copies: seq<Copy>) {
    && |ch.phases| == |ch.deliveries|
    && (forall t :: 0 <= t < |ch.deliveries| ==> ch.deliveries[t] < |copies|)
    && (forall t :: 0 <= t < |ch.deliveries| && ch.open && t !in ch.settles ==>
          copies[ch.deliveries[t]].place == Unacked(g, t))
    && (forall t: nat :: Delivered(t) in ch.down ==> t < |ch.phases| && ch.phases[t] == OnTheWay)
  }

  ghost predicate SettlesOk(ch: Channel) {
    && (forall i, j :: 0 <= i < j < |ch.settles| ==> ch.settles[i] != ch.settles[j])
    && (forall t :: t in ch.settles ==> t < |ch.phases| && (ch.phases[t] == Finished || ch.phases[t].Forwarded?))
  }

  ghost predicate UpOk(g: nat, ch: Channel, copies: seq<Copy>, acked: set<nat>)
    requires DeliveriesOk(g, ch, copies)
  {
    && (!ch.open ==> ch.up == {})
    && (forall f :: f in ch.up && !f.PublishFrame? ==>
          f.tag in ch.settles && f.tag < |ch.deliveries| && copies[ch.deliveries[f.tag]].place == Unacked(g, f.tag))
    && (forall f :: f in ch.up && f.AckFrame? && f.tag < |ch.deliveries| ==> Covered(copies, acked, ch.deliveries[f.tag]))
    && (forall t: nat :: AckFrame(t) in ch.up ==> RequeueFrame(t) !in ch.up)
    && (forall f :: f in ch.up && f.PublishFrame? ==>
          f.seqno < |ch.sent| && f.forward == ch.sent[f.seqno] && f.seqno !in ch.fate)
  }

  ghost predicate SentOk(g: nat, ch: Channel, copies: seq<Copy>)
    requires DeliveriesOk(g, ch, copies)
  {
    forall n :: 0 <= n < |ch.sent| ==>
      var f := ch.sent[n];
      && f.delivery.generation == g && f.delivery.tag < |ch.deliveries|
      && ch.phases[f.delivery.tag] == Forwarded(n)
      && f.body == copies[ch.deliveries[f.delivery.tag]].body
      && f.id == ForwardId(f.kind, g, f.delivery.tag, f.count)
  }

  ghost predicate FateOk(g: nat, ch: Channel, copies: seq<Copy>)
    requires DeliveriesOk(g, ch, copies) && SentOk(g, ch, copies)
  {
    && (forall n :: n in ch.fate ==> n < |ch.sent|)
    && (forall n :: n in ch.fate && ch.fate[n].Routed? ==>
          var c, parent := ch.fate[n].copy, ch.deliveries[ch.sent[n].delivery.tag];
          parent < c < |copies| && copies[c].origin == copies[parent].origin)
    && (forall n: nat :: ConfirmedEvent(n) in ch.down ==>
          n in ch.fate && !ch.fate[n].Refused? && (ch.fate[n].Routed? ==> copies[ch.fate[n].copy].confirmed))
    && (forall id :: ReturnedEvent(id) in ch.down ==> WasReturned(ch, id))
  }

  ghost predicate WasReturned(ch: Channel, id: string) {
    exists n :: 0 <= n < |ch.sent| && n in ch.fate && ch.fate[n].Returned? && ch.sent[n].id == id
  }

  ghost predicate ChannelOk(g: nat, ch: Channel, copies: seq<Copy>, acked: set<nat>) {
    && DeliveriesOk(g, ch, copies)
    && SettlesOk(ch)
    && UpOk(g, ch, copies, acked)
    && SentOk(g, ch, copies)
    && FateOk(g, ch, copies)
  }

  ghost predicate HasPhase(s: System, d: DeliveryContext, phase: Phase) {
    Known(s, d) && s.channels[d.generation].phases[d.tag] == phase
  }

  ghost predicate CommandOk(s: System, command: Command) {
    && HasPhase(s, command.delivery, Queued)
    && CopyOf(s, command.delivery) < |s.copies|
    && (command.AckCommand? ==> OriginOf(s, command.delivery) in s.acked)
    && (command.ForwardCommand? ==> command.body == s.copies[CopyOf(s, command.delivery)].body)
  }

  ghost predicate TokensOk(s: System) {
    && (forall d :: d in s.todo ==> HasPhase(s, d, WithApplication))
    && (forall i :: 0 <= i < |s.consumer.commands| ==> CommandOk(s, s.consumer.commands[i]))
    && (forall i, j :: 0 <= i < j < |s.consumer.commands| ==>
          s.consumer.commands[i].delivery != s.consumer.commands[j].delivery)
  }

  ghost predicate PublisherOk(c: Consumer, ch: Channel) {
    && c.published == |ch.sent|
    && (forall n :: n in c.pending ==> n < |ch.sent| && c.pending[n] == ch.sent[n])
    && (forall n :: n in c.pending && n < |ch.sent| ==> ch.sent[n].delivery.tag !in ch.settles)
    && (forall n :: n in c.pending && n < |ch.sent| && n in ch.fate && ch.fate[n].Returned? ==>
          ReturnedEvent(ch.sent[n].id) in ch.down || ch.sent[n].id in c.returned)
  }

  ghost predicate ReturnedOk(returned: set<string>, channels: seq<Channel>) {
    forall id :: id in returned ==> exists g :: 0 <= g < |channels| && WasReturned(channels[g], id)
  }

  ghost predicate ConsumerOk(s: System) {
    && |s.channels| == s.consumer.generation + 1
    && (s.consumer.hasChannel <==> s.consumer.generation > 0)
    && PublisherOk(s.consumer, s.channels[s.consumer.generation])
    && ReturnedOk(s.consumer.returned, s.channels)
  }

  ghost predicate Inv(s: System) {
    && CopiesOk(s.copies, s.acked)
    && UnackedOk(s.copies, s.channels)
    && (forall g :: 0 <= g < |s.channels| ==> ChannelOk(g, s.channels[g], s.copies, s.acked))
    && ConsumerOk(s)
    && TokensOk(s)
  }

  // ----- frames: what a change of the copies leaves intact -----

  /** Copies are only added; origin and body never change, confirmation is never withdrawn. */
  ghost predicate Grows(copies: seq<Copy>, copies': seq<Copy>) {
    && |copies| <= |copies'|
    && forall c :: 0 <= c < |copies| ==>
         copies'[c].origin == copies[c].origin && copies'[c].body == copies[c].body &&
         (copies[c].confirmed ==> copies'[c].confirmed)
  }

  ghost predicate KeepsUnacked(copies: seq<Copy>, copies': seq<Copy>, g: nat)
    requires |copies| <= |copies'|
  {
    forall c :: 0 <= c < |copies| && copies[c].place.Unacked? && copies[c].place.generation == g ==>
      copies'[c].place == copies[c].place
  }

  lemma CoveredGrows(copies: seq<Copy>, copies': seq<Copy>, acked: set<nat>, acked': set<nat>, c: nat)
    requires c < |copies| && Grows(copies, copies') && acked <= acked' && Covered(copies, acked, c)
    ensures Covered(copies', acked', c)
  {
    if copies[c].origin !in acked {
      var d :| c < d < |copies| && copies[d].origin == copies[c].origin && copies[d].confirmed;
      assert copies'[d].origin == copies'[c].origin && copies'[d].confirmed;
    }
  }

  lemma ChannelGrows(g: nat, ch: Channel, copies: seq<Copy>, copies': seq<Copy>, acked: set<nat>, acked': set<nat>)
    requires ChannelOk(g, ch, copies, acked)
    requires Grows(copies, copies') && acked <= acked' && KeepsUnacked(copies, copies', g)
    ensures ChannelOk(g, ch, copies', acked')
  {
    assert DeliveriesOk(g, ch, copies');
    forall f | f in ch.up && f.AckFrame? && f.tag < |ch.deliveries|
      ensures Covered(copies', acked', ch.deliveries[f.tag])
    {
      CoveredGrows(copies, copies', acked, acked', ch.deliveries[f.tag]);
    }
    assert UpOk(g, ch, copies', acked');
    assert SentOk(g, ch, copies');
    assert FateOk(g, ch, copies');
  }

  /** Every copy whose place is unchanged, or changed to a live queue, stays fine. */
  lemma CopiesGrow(copies: seq<Copy>, copies': seq<Copy>, acked: set<nat>, acked': set<nat>)
    requires CopiesOk(copies, acked) && Grows(copies, copies') && acked <= acked'
    requires forall c :: 0 <= c < |copies| && copies'[c].confirmed && copies'[c].place == Dropped ==>
               copies[c].confirmed && copies[c].place == Dropped
    requires forall c :: 0 <= c < |copies| && copies'[c].place == Settled && copies[c].place != Settled ==>
               Covered(copies, acked, c)
    requires forall c :: |copies| <= c < |copies'| ==> CopyOk(copies', acked', c)
    ensures CopiesOk(copies', acked')
  {
    forall c | 0 <= c < |copies'|
      ensures CopyOk(copies', acked', c)
    {
      if c < |copies| {
        assert CopyOk(copies, acked, c);
        if copies'[c].place == Settled {
          CoveredGrows(copies, copies', acked, acked', c);
        }
      }
    }
  }

  // ----- the broker's own steps -----

  /** A step that changes nothing but the copies, and moves no unacknowledged one. */
  lemma OnlyCopies(s: System, copies': seq<Copy>)
    requires Inv(s) && Grows(s.copies, copies') && CopiesOk(copies', s.acked)
    requires forall g: nat :: KeepsUnacked(s.copies, copies', g)
    requires forall c :: 0 <= c < |copies'| && copies'[c].place.Unacked? ==>
               c < |s.copies| && s.copies[c].place == copies'[c].place
    ensures Inv(s.(copies := copies'))
  {
    forall g | 0 <= g < |s.channels|
      ensures ChannelOk(g, s.channels[g], copies', s.acked)
    {
      ChannelGrows(g, s.channels[g], s.copies, copies', s.acked, s.acked);
    }
    var s' := s.(copies := copies');
    forall i | 0 <= i < |s.consumer.commands|
      ensures CommandOk(s', s.consumer.commands[i])
    {
      assert CommandOk(s, s.consumer.commands[i]);
    }
  }

  lemma ProduceKeeps(s: System, body: string)
    requires Inv(s)
    ensures Inv(Apply(s, Produce(body)))
  {
    var copies' := Apply(s, Produce(body)).copies;
    CopiesGrow(s.copies, copies', s.acked, s.acked);
    OnlyCopies(s, copies');
  }

  lemma ExpireKeeps(s: System, c: nat)
    requires Inv(s) && Enabled(s, Expire(c))
    ensures Inv(Apply(s, Expire(c)))
  {
    CopiesGrow(s.copies, Move(s.copies, c, MainQueue), s.acked, s.acked);
    OnlyCopies(s, Move(s.copies, c, MainQueue));
  }

  lemma LoseKeeps(s: System, c: nat)
    requires Inv(s) && Enabled(s, Lose(c))
    ensures Inv(Apply(s, Lose(c)))
  {
    CopiesGrow(s.copies, Move(s.copies, c, Dropped), s.acked, s.acked);
    OnlyCopies(s, Move(s.copies, c, Dropped));
  }

  /** The consumer's side of the invariant only reads, of channel g, what `ch'` shares with it. */
  ghost predicate SameForConsumer(ch: Channel, ch': Channel) {
    && |ch.deliveries| <= |ch'.deliveries| && |ch'.phases| == |ch'.deliveries|
    && (forall t :: 0 <= t < |ch.deliveries| ==> ch'.deliveries[t] == ch.deliveries[t])
    && (forall t :: 0 <= t < |ch.phases| && t < |ch'.phases| ==> ch'.phases[t] == ch.phases[t])
    && ch'.sent == ch.sent && ch'.settles == ch.settles
    && (forall n :: n in ch.fate ==> n in ch'.fate && ch'.fate[n] == ch.fate[n])
    && (forall n :: n in ch'.fate && n !in ch.fate && ch'.fate[n].Returned? && n < |ch.sent| ==>
          ReturnedEvent(ch.sent[n].id) in ch'.down)
    && (forall e :: e in ch.down && e.ReturnedEvent? ==> e in ch'.down)
  }

  lemma BrokerStep(s: System, g: nat, ch': Channel, copies': seq<Copy>)
    requires Inv(s) && g < |s.channels|
    requires Grows(s.copies, copies') && CopiesOk(copies', s.acked)
    requires SameForConsumer(s.channels[g], ch') && ChannelOk(g, ch', copies', s.acked)
    requires forall h: nat :: h != g ==> KeepsUnacked(s.copies, copies', h)
    requires UnackedOk(copies', s.channels[g := ch'])
    ensures Inv(s.(copies := copies', channels := s.channels[g := ch']))
  {
    var s' := s.(copies := copies', channels := s.channels[g := ch']);
    forall h | 0 <= h < |s.channels|
      ensures ChannelOk(h, s'.channels[h], copies', s.acked)
    {
      if h != g {
        ChannelGrows(h, s.channels[h], s.copies, copies', s.acked, s.acked);
      }
    }
    BrokerStepTokens(s, g, ch', copies');
    ReturnedKept(s.consumer.returned, s.channels, g, ch');
    if g == s.consumer.generation {
      PublisherKept(s.consumer, s.channels[g], ch');
    }
  }

  lemma PublisherKept(c: Consumer, ch: Channel, ch': Channel)
    requires PublisherOk(c, ch) && SameForConsumer(ch, ch')
    ensures PublisherOk(c, ch')
  {
  }

  lemma BrokerStepTokens(s: System, g: nat, ch': Channel, copies': seq<Copy>)
    requires Inv(s) && g < |s.channels|
    requires Grows(s.copies, copies') && SameForConsumer(s.channels[g], ch')
    ensures TokensOk(s.(copies := copies', channels := s.channels[g := ch']))
  {
    var s' := s.(copies := copies', channels := s.channels[g := ch']);
    forall d | d in s.todo
      ensures HasPhase(s', d, WithApplication)
    {
      assert HasPhase(s, d, WithApplication);
    }
    forall i | 0 <= i < |s.consumer.commands|
      ensures CommandOk(s', s.consumer.commands[i])
    {
      assert CommandOk(s, s.consumer.commands[i]);
    }
  }

  lemma ReturnedKept(returned: set<string>, channels: seq<Channel>, g: nat, ch': Channel)
    requires ReturnedOk(returned, channels) && g < |channels|
    requires ch'.sent == channels[g].sent
    requires forall n :: n in channels[g].fate ==> n in ch'.fate && ch'.fate[n] == channels[g].fate[n]
    ensures ReturnedOk(returned, channels[g := ch'])
  {
    var channels' := channels[g := ch'];
    forall id | id in returned
      ensures exists h :: 0 <= h < |channels'| && WasReturned(channels'[h], id)
    {
      var h :| 0 <= h < |channels| && WasReturned(channels[h], id);
      assert WasReturned(channels'[h], id);
    }
  }

  function WithDelivery(ch: Channel, c: nat): Channel {
    ch.(deliveries := ch.deliveries + [c], phases := ch.phases + [OnTheWay],
        down := ch.down + {Delivered(|ch.deliveries|)})
  }

  lemma DeliverChannel(g: nat, ch: Channel, copies: seq<Copy>, acked: set<nat>, c: nat)
    requires ChannelOk(g, ch, copies, acked)
    requires c < |copies| && copies[c].place == Unacked(g, |ch.deliveries|)
    ensures ChannelOk(g, WithDelivery(ch, c), copies, acked)
  {
    var ch' := WithDelivery(ch, c);
    assert |ch.deliveries| !in ch.settles;
    assert DeliveriesOk(g, ch', copies);
    assert SettlesOk(ch');
    assert UpOk(g, ch', copies, acked);
    assert SentOk(g, ch', copies);
    forall id | ReturnedEvent(id) in ch'.down
      ensures WasReturned(ch', id)
    {
      assert ReturnedEvent(id) in ch.down;
      assert WasReturned(ch, id);
    }
    assert FateOk(g, ch', copies);
  }

  lemma DeliverUnacked(copies: seq<Copy>, channels: seq<Channel>, g: nat, c: nat)
    requires UnackedOk(copies, channels) && g < |channels| && channels[g].open && c < |copies|
    ensures UnackedOk(Move(copies, c, Unacked(g, |channels[g].deliveries|)), channels[g := WithDelivery(channels[g], c)])
  {
  }

  lemma DeliverKeeps(s: System, g: nat, c: nat)
    requires Inv(s) && Enabled(s, Deliver(g, c))
    ensures Inv(Apply(s, Deliver(g, c)))
  {
    var ch := s.channels[g];
    var copies' := Move(s.copies, c, Unacked(g, |ch.deliveries|));
    CopiesGrow(s.copies, copies', s.acked, s.acked);
    ChannelGrows(g, ch, s.copies, copies', s.acked, s.acked);
    DeliverChannel(g, ch, copies', s.acked, c);
    DeliverUnacked(s.copies, s.channels, g, c);
    BrokerStep(s, g, WithDelivery(ch, c), copies');
  }

  /** The broker never meets an ack or reject for a tag it does not hold: no protocol error. */
  lemma SettleIsOutstanding(s: System, g: nat, frame: Frame)
    requires Inv(s) && Enabled(s, TakeSettle(g, frame))
    ensures Outstanding(s, g, frame.tag)
  {
    assert ChannelOk(g, s.channels[g], s.copies, s.acked);
  }

  lemma SettledUp(g: nat, ch: Channel, copies: seq<Copy>, acked: set<nat>, frame: Frame, place: Place)
    requires ChannelOk(g, ch, copies, acked) && frame in ch.up && !frame.PublishFrame? && !place.Unacked?
    ensures var ch', copies' := ch.(up := ch.up - {frame}), Move(copies, ch.deliveries[frame.tag], place);
            DeliveriesOk(g, ch', copies') && UpOk(g, ch', copies', acked)
  {
    var ch', c := ch.(up := ch.up - {frame}), ch.deliveries[frame.tag];
    var copies' := Move(copies, c, place);
    assert DeliveriesOk(g, ch', copies');
    forall f | f in ch'.up && f.AckFrame? && f.tag < |ch.deliveries|
      ensures Covered(copies', acked, ch.deliveries[f.tag])
    {
      CoveredGrows(copies, copies', acked, acked, ch.deliveries[f.tag]);
    }
  }

  lemma SettledFate(g: nat, ch: Channel, copies: seq<Copy>, copies': seq<Copy>, up: set<Frame>)
    requires DeliveriesOk(g, ch, copies) && SentOk(g, ch, copies) && FateOk(g, ch, copies)
    requires Grows(copies, copies') && DeliveriesOk(g, ch.(up := up), copies')
    ensures SentOk(g, ch.(up := up), copies') && FateOk(g, ch.(up := up), copies')
  {
    var ch' := ch.(up := up);
    assert SentOk(g, ch', copies');
    forall id | ReturnedEvent(id) in ch'.down
      ensures WasReturned(ch', id)
    {
      assert WasReturned(ch, id);
    }
  }

  lemma SettleChannel(g: nat, ch: Channel, copies: seq<Copy>, acked: set<nat>, frame: Frame, place: Place)
    requires ChannelOk(g, ch, copies, acked) && frame in ch.up && !frame.PublishFrame? && !place.Unacked?
    ensures ChannelOk(g, ch.(up := ch.up - {frame}), Move(copies, ch.deliveries[frame.tag], place), acked)
  {
    SettledUp(g, ch, copies, acked, frame, place);
    SettledFate(g, ch, copies, Move(copies, ch.deliveries[frame.tag], place), ch.up - {frame});
  }

  lemma SettleUnacked(copies: seq<Copy>, channels: seq<Channel>, g: nat, frame: Frame, c: nat, place: Place)
    requires UnackedOk(copies, channels) && g < |channels| && c < |copies| && !place.Unacked?
    ensures UnackedOk(Move(copies, c, place), channels[g := channels[g].(up := channels[g].up - {frame})])
  {
  }

  lemma TakeSettleKeeps(s: System, g: nat, frame: Frame)
    requires Inv(s) && Enabled(s, TakeSettle(g, frame))
    ensures Inv(Apply(s, TakeSettle(g, frame)))
  {
    SettleIsOutstanding(s, g, frame);
    var ch := s.channels[g];
    assert ChannelOk(g, ch, s.copies, s.acked);
    var place := if frame.AckFrame? then Settled else MainQueue;
    var c := ch.deliveries[frame.tag];
    var copies' := Move(s.copies, c, place);
    CopiesGrow(s.copies, copies', s.acked, s.acked);
    SettleChannel(g, ch, s.copies, s.acked, frame, place);
    SettleUnacked(s.copies, s.channels, g, frame, c, place);
    BrokerStep(s, g, ch.(up := ch.up - {frame}), copies');
  }

  function WithFate(ch: Channel, frame: Frame, fate: Fate): Channel
    requires frame.PublishFrame?
  {
    ch.(up := ch.up - {frame}, fate := ch.fate[frame.seqno := fate],
        down := if fate.Returned? then ch.down + {ReturnedEvent(frame.forward.id)} else ch.down)
  }

  lemma PublishedUp(g: nat, ch: Channel, copies: seq<Copy>, acked: set<nat>, frame: Frame, fate: Fate)
    requires ChannelOk(g, ch, copies, acked) && frame in ch.up && frame.PublishFrame?
    ensures DeliveriesOk(g, WithFate(ch, frame, fate), copies) && UpOk(g, WithFate(ch, frame, fate), copies, acked)
  {
    var ch' := WithFate(ch, frame, fate);
    assert DeliveriesOk(g, ch', copies);
    assert ch.sent[frame.seqno] == frame.forward;
    forall f | f in ch'.up && f.PublishFrame?
      ensures f.seqno !in ch'.fate
    {
      assert f.forward == ch.sent[f.seqno];
    }
  }

  lemma PublishedReturns(ch: Channel, frame: Frame, fate: Fate)
    requires frame.PublishFrame? && frame.seqno < |ch.sent| && ch.sent[frame.seqno] == frame.forward
    requires frame.seqno !in ch.fate && forall id :: ReturnedEvent(id) in ch.down ==> WasReturned(ch, id)
    ensures var ch' := WithFate(ch, frame, fate); forall id :: ReturnedEvent(id) in ch'.down ==> WasReturned(ch', id)
  {
    var ch' := WithFate(ch, frame, fate);
    forall id | ReturnedEvent(id) in ch'.down
      ensures WasReturned(ch', id)
    {
      if ReturnedEvent(id) in ch.down {
        assert WasReturned(ch, id);
        var n :| 0 <= n < |ch.sent| && n in ch.fate && ch.fate[n].Returned? && ch.sent[n].id == id;
        assert ch'.sent[n].id == id && n in ch'.fate && ch'.fate[n].Returned?;
      } else {
        assert ch'.sent[frame.seqno].id == id;
      }
    }
  }

  lemma PublishChannel(g: nat, ch: Channel, copies: seq<Copy>, acked: set<nat>, frame: Frame, fate: Fate)
    requires ChannelOk(g, ch, copies, acked) && frame in ch.up && frame.PublishFrame?
    requires fate.Routed? ==>
               ch.deliveries[frame.forward.delivery.tag] < fate.copy < |copies| &&
               copies[fate.copy].origin == copies[ch.deliveries[frame.forward.delivery.tag]].origin
    ensures ChannelOk(g, WithFate(ch, frame, fate), copies, acked)
    ensures SameForConsumer(ch, WithFate(ch, frame, fate))
  {
    var ch' := WithFate(ch, frame, fate);
    assert ch.sent[frame.seqno] == frame.forward;
    PublishedUp(g, ch, copies, acked, frame, fate);
    assert SentOk(g, ch', copies);
    PublishedReturns(ch, frame, fate);
    assert FateOk(g, ch', copies);
  }

  /** A copy made from `parent` joins the others; nothing else moves. */
  lemma AddCopy(s: System, parent: nat, child: Copy)
    requires Inv(s) && parent < |s.copies|
    requires child.origin == s.copies[parent].origin && child.body == s.copies[parent].body
    requires child.place in {RetryQueue, DeadQueue}
    ensures Inv(s.(copies := s.copies + [child]))
  {
    assert CopyOk(s.copies, s.acked, parent);
    assert CopyOk(s.copies + [child], s.acked, |s.copies|);
    CopiesGrow(s.copies, s.copies + [child], s.acked, s.acked);
    OnlyCopies(s, s.copies + [child]);
  }

  lemma TakePublishKeeps(s: System, g: nat, frame: Frame, fate: Fate)
    requires Inv(s) && Enabled(s, TakePublish(g, frame, fate))
    ensures Inv(Apply(s, TakePublish(g, frame, fate)))
  {
    var ch, f := s.channels[g], frame.forward;
    assert ChannelOk(g, ch, s.copies, s.acked);
    assert f == ch.sent[frame.seqno];
    var parent := ch.deliveries[f.delivery.tag];
    assert CopyOf(s, f.delivery) == parent;
    var child := Copy(s.copies[parent].origin, f.body, f.count, Destination(f.kind), false);
    var s1 := s;
    if fate.Routed? {
      AddCopy(s, parent, child);
      s1 := s.(copies := s.copies + [child]);
    }
    PublishChannel(g, ch, s1.copies, s1.acked, frame, fate);
    RecordFate(s1, g, frame, fate);
    assert Apply(s, TakePublish(g, frame, fate)) == s1.(channels := s1.channels[g := WithFate(ch, frame, fate)]);
  }

  lemma RecordFate(s: System, g: nat, frame: Frame, fate: Fate)
    requires Inv(s) && g < |s.channels| && frame.PublishFrame?
    requires ChannelOk(g, WithFate(s.channels[g], frame, fate), s.copies, s.acked)
    requires SameForConsumer(s.channels[g], WithFate(s.channels[g], frame, fate))
    ensures Inv(s.(channels := s.channels[g := WithFate(s.channels[g], frame, fate)]))
  {
    BrokerStep(s, g, WithFate(s.channels[g], frame, fate), s.copies);
  }

  /** Adding a confirm or a negative confirm to the events under way. */
  lemma NotifyChannel(g: nat, ch: Channel, copies: seq<Copy>, acked: set<nat>, e: Event)
    requires ChannelOk(g, ch, copies, acked) && (e.ConfirmedEvent? || e.NackedEvent?)
    requires e.ConfirmedEvent? ==>
               e.seqno in ch.fate && !ch.fate[e.seqno].Refused? &&
               (ch.fate[e.seqno].Routed? ==> copies[ch.fate[e.seqno].copy].confirmed)
    ensures ChannelOk(g, ch.(down := ch.down + {e}), copies, acked)
  {
    var ch' := ch.(down := ch.down + {e});
    assert DeliveriesOk(g, ch', copies);
    assert UpOk(g, ch', copies, acked);
    assert SentOk(g, ch', copies);
    forall id | ReturnedEvent(id) in ch'.down
      ensures WasReturned(ch', id)
    {
      assert ReturnedEvent(id) in ch.down;
      assert WasReturned(ch, id);
    }
    assert FateOk(g, ch', copies);
  }

  function Confirming(copies: seq<Copy>, c: nat): seq<Copy>
    requires c < |copies|
  {
    copies[c := copies[c].(confirmed := true)]
  }

  lemma ConfirmCopy(s: System, c: nat)
    requires Inv(s) && c < |s.copies| && s.copies[c].place != Dropped
    ensures Inv(s.(copies := Confirming(s.copies, c)))
  {
    CopiesGrow(s.copies, Confirming(s.copies, c), s.acked, s.acked);
    OnlyCopies(s, Confirming(s.copies, c));
  }

  function Notified(ch: Channel, e: Event): Channel { ch.(down := ch.down + {e}) }

  lemma UnackedNotified(copies: seq<Copy>, channels: seq<Channel>, g: nat, e: Event)
    requires UnackedOk(copies, channels) && g < |channels|
    ensures UnackedOk(copies, channels[g := Notified(channels[g], e)])
  {
  }

  lemma SameNotified(ch: Channel, e: Event)
    requires |ch.phases| == |ch.deliveries|
    ensures SameForConsumer(ch, Notified(ch, e))
  {
  }

  lemma NotifyKeeps(s: System, g: nat, e: Event)
    requires Inv(s) && g < |s.channels| && ChannelOk(g, Notified(s.channels[g], e), s.copies, s.acked)
    ensures Inv(s.(channels := s.channels[g := Notified(s.channels[g], e)]))
  {
    var ch := Notified(s.channels[g], e);
    assert |s.channels[g].phases| == |s.channels[g].deliveries|;
    SameNotified(s.channels[g], e);
    UnackedNotified(s.copies, s.channels, g, e);
    BrokerStep(s, g, ch, s.copies);
    assert s.(channels := s.channels[g := ch]) == s.(copies := s.copies, channels := s.channels[g := ch]);
  }

  lemma ConfirmNotified(s: System, g: nat, n: nat)
    requires Inv(s) && g < |s.channels| && n in s.channels[g].fate && !s.channels[g].fate[n].Refused?
    requires s.channels[g].fate[n].Routed? ==>
               s.channels[g].fate[n].copy < |s.copies| && s.copies[s.channels[g].fate[n].copy].confirmed
    ensures Inv(s.(channels := s.channels[g := Notified(s.channels[g], ConfirmedEvent(n))]))
  {
    NotifyChannel(g, s.channels[g], s.copies, s.acked, ConfirmedEvent(n));
    NotifyKeeps(s, g, ConfirmedEvent(n));
  }

  lemma EmitConfirmKeeps(s: System, g: nat, n: nat)
    requires Inv(s) && Enabled(s, EmitConfirm(g, n))
    ensures Inv(Apply(s, EmitConfirm(g, n)))
  {
    var ch := Notified(s.channels[g], ConfirmedEvent(n));
    var fate := s.channels[g].fate[n];
    if fate.Routed? {
      var s' := s.(copies := Confirming(s.copies, fate.copy));
      ConfirmCopy(s, fate.copy);
      ConfirmNotified(s', g, n);
      assert Apply(s, EmitConfirm(g, n)) == s'.(channels := s'.channels[g := ch]);
    } else {
      ConfirmNotified(s, g, n);
      assert Apply(s, EmitConfirm(g, n)) == s.(channels := s.channels[g := ch]);
    }
  }

  lemma EmitNackKeeps(s: System, g: nat, n: nat)
    requires Inv(s) && Enabled(s, EmitNack(g, n))
    ensures Inv(Apply(s, EmitNack(g, n)))
  {
    NotifyChannel(g, s.channels[g], s.copies, s.acked, NackedEvent(n));
    NotifyKeeps(s, g, NackedEvent(n));
    assert Apply(s, EmitNack(g, n)) == s.(channels := s.channels[g := Notified(s.channels[g], NackedEvent(n))]);
  }

  lemma CloseChannelOk(g: nat, ch: Channel, copies: seq<Copy>, copies': seq<Copy>, acked: set<nat>)
    requires ChannelOk(g, ch, copies, acked) && Grows(copies, copies')
    ensures ChannelOk(g, ch.(open := false, up := {}), copies', acked)
  {
    var ch' := ch.(open := false, up := {});
    forall id | ReturnedEvent(id) in ch'.down
      ensures WasReturned(ch', id)
    {
      assert WasReturned(ch, id);
    }
  }

  lemma CloseUnacked(copies: seq<Copy>, channels: seq<Channel>, g: nat)
    requires UnackedOk(copies, channels) && g < |channels|
    ensures UnackedOk(Requeue(copies, g), channels[g := channels[g].(open := false, up := {})])
  {
  }

  lemma CloseKeeps(s: System, g: nat)
    requires Inv(s) && g < |s.channels|
    ensures Inv(ApplyClose(s, g))
  {
    var copies', ch' := Requeue(s.copies, g), s.channels[g].(open := false, up := {});
    CopiesGrow(s.copies, copies', s.acked, s.acked);
    CloseChannelOk(g, s.channels[g], s.copies, copies', s.acked);
    CloseUnacked(s.copies, s.channels, g);
    BrokerStep(s, g, ch', copies');
  }

  // ----- the consumer's steps -----

  /** Two publications on one channel never carry the same id: each delivery is forwarded once. */
  lemma DistinctIds(g: nat, ch: Channel, copies: seq<Copy>, acked: set<nat>, m: nat, n: nat)
    requires ChannelOk(g, ch, copies, acked) && m < |ch.sent| && n < |ch.sent| && m != n
    ensures ch.sent[m].id != ch.sent[n].id
  {
    var a, b := ch.sent[m], ch.sent[n];
    if a.id == b.id {
      ForwardIdInjective(a.kind, g, a.delivery.tag, a.count, b.kind, g, b.delivery.tag, b.count);
    }
  }

  lemma TakeEventChannel(g: nat, ch: Channel, copies: seq<Copy>, acked: set<nat>, e: Event)
    requires ChannelOk(g, ch, copies, acked)
    ensures ChannelOk(g, ch.(down := ch.down - {e}), copies, acked)
  {
    var ch' := ch.(down := ch.down - {e});
    assert DeliveriesOk(g, ch', copies);
    forall id | ReturnedEvent(id) in ch'.down
      ensures WasReturned(ch', id)
    {
      assert WasReturned(ch, id);
    }
  }

  lemma EmitSettleChannel(g: nat, ch: Channel, copies: seq<Copy>, acked: set<nat>, frame: Frame)
    requires ChannelOk(g, ch, copies, acked) && !frame.PublishFrame?
    requires frame.tag < |ch.deliveries| && frame.tag !in ch.settles
    requires ch.phases[frame.tag] == Finished || ch.phases[frame.tag].Forwarded?
    requires frame.AckFrame? ==> Covered(copies, acked, ch.deliveries[frame.tag])
    ensures ChannelOk(g, EmitFrame(ch, frame), copies, acked)
  {
    var ch' := EmitFrame(ch, frame);
    assert DeliveriesOk(g, ch', copies);
    assert SettlesOk(ch');
    assert UpOk(g, ch', copies, acked);
    assert SentOk(g, ch', copies);
    forall id | ReturnedEvent(id) in ch'.down
      ensures WasReturned(ch', id)
    {
      assert WasReturned(ch, id);
    }
    assert FateOk(g, ch', copies);
  }

  lemma EmitPublishUp(g: nat, ch: Channel, copies: seq<Copy>, acked: set<nat>, f: Forward)
    requires ChannelOk(g, ch, copies, acked)
    ensures var ch' := EmitFrame(ch, PublishFrame(|ch.sent|, f));
            DeliveriesOk(g, ch', copies) && UpOk(g, ch', copies, acked)
  {
    var ch' := EmitFrame(ch, PublishFrame(|ch.sent|, f));
    assert DeliveriesOk(g, ch', copies);
  }

  lemma EmitPublishReturns(ch: Channel, f: Forward)
    requires forall id :: ReturnedEvent(id) in ch.down ==> WasReturned(ch, id)
    ensures var ch' := EmitFrame(ch, PublishFrame(|ch.sent|, f));
            forall id :: ReturnedEvent(id) in ch'.down ==> WasReturned(ch', id)
  {
    var ch' := EmitFrame(ch, PublishFrame(|ch.sent|, f));
    forall id | ReturnedEvent(id) in ch'.down
      ensures WasReturned(ch', id)
    {
      assert WasReturned(ch, id);
      var n :| 0 <= n < |ch.sent| && n in ch.fate && ch.fate[n].Returned? && ch.sent[n].id == id;
      assert ch'.sent[n].id == id;
    }
  }

  lemma EmitPublishChannel(g: nat, ch: Channel, copies: seq<Copy>, acked: set<nat>, f: Forward)
    requires ChannelOk(g, ch, copies, acked)
    requires f.delivery.generation == g && f.delivery.tag < |ch.deliveries|
    requires ch.phases[f.delivery.tag] == Forwarded(|ch.sent|)
    requires f.body == copies[ch.deliveries[f.delivery.tag]].body
    requires f.id == ForwardId(f.kind, g, f.delivery.tag, f.count)
    ensures ChannelOk(g, EmitFrame(ch, PublishFrame(|ch.sent|, f)), copies, acked)
  {
    var ch' := EmitFrame(ch, PublishFrame(|ch.sent|, f));
    EmitPublishUp(g, ch, copies, acked, f);
    assert SentOk(g, ch', copies);
    EmitPublishReturns(ch, f);
    assert FateOk(g, ch', copies);
  }

  lemma PhaseChannel(g: nat, ch: Channel, copies: seq<Copy>, acked: set<nat>, tag: nat, phase: Phase)
    requires ChannelOk(g, ch, copies, acked) && tag < |ch.phases| && Delivered(tag) !in ch.down
    requires ch.phases[tag] != Finished && !ch.phases[tag].Forwarded?
    ensures ChannelOk(g, ch.(phases := ch.phases[tag := phase]), copies, acked)
  {
    var ch' := ch.(phases := ch.phases[tag := phase]);
    assert DeliveriesOk(g, ch', copies);
    assert SettlesOk(ch');
    assert UpOk(g, ch', copies, acked);
    assert SentOk(g, ch', copies);
    forall id | ReturnedEvent(id) in ch'.down
      ensures WasReturned(ch', id)
    {
      assert WasReturned(ch, id);
    }
    assert FateOk(g, ch', copies);
  }

  /** A step of the consumer that changes its own state and its live channel, no phase and no copy. */
  lemma ConsumerStep(s: System, consumer': Consumer, ch': Channel)
    requires Inv(s)
    requires consumer'.generation == s.consumer.generation && consumer'.hasChannel == s.consumer.hasChannel
    requires consumer'.commands == s.consumer.commands
    requires var ch := s.channels[s.consumer.generation];
             ch'.deliveries == ch.deliveries && ch'.phases == ch.phases && ch'.open == ch.open
    requires ChannelOk(s.consumer.generation, ch', s.copies, s.acked)
    requires PublisherOk(consumer', ch')
    requires ReturnedOk(consumer'.returned, s.channels[s.consumer.generation := ch'])
    ensures Inv(s.(consumer := consumer', channels := s.channels[s.consumer.generation := ch']))
  {
    var s' := s.(consumer := consumer', channels := s.channels[s.consumer.generation := ch']);
    forall d | d in s.todo
      ensures HasPhase(s', d, WithApplication)
    {
      assert HasPhase(s, d, WithApplication);
    }
    forall i | 0 <= i < |s.consumer.commands|
      ensures CommandOk(s', s.consumer.commands[i])
    {
      assert CommandOk(s, s.consumer.commands[i]);
    }
  }

  /** An id in the returned set that publication n of the live channel carries was returned for n itself. */
  lemma ReturnedIdIsOwn(s: System, n: nat)
    requires forall g :: 0 <= g < |s.channels| ==> ChannelOk(g, s.channels[g], s.copies, s.acked)
    requires ReturnedOk(s.consumer.returned, s.channels) && s.consumer.generation < |s.channels|
    requires var sent := s.channels[s.consumer.generation].sent; n < |sent| && sent[n].id in s.consumer.returned
    ensures var fate := s.channels[s.consumer.generation].fate; n in fate && fate[n].Returned?
  {
    var g := s.consumer.generation;
    var f := s.channels[g].sent[n];
    assert ChannelOk(g, s.channels[g], s.copies, s.acked);
    var h :| 0 <= h < |s.channels| && WasReturned(s.channels[h], f.id);
    var other := s.channels[h];
    var m :| 0 <= m < |other.sent| && m in other.fate && other.fate[m].Returned? && other.sent[m].id == f.id;
    assert ChannelOk(h, other, s.copies, s.acked);
    var o := other.sent[m];
    ForwardIdInjective(f.kind, g, f.delivery.tag, f.count, o.kind, h, o.delivery.tag, o.count);
    assert m == n;
  }

  /** When a confirm is taken, the consumer's verdict is the broker's: "routed" exactly when the
      broker put a copy into a queue, and that copy is confirmed. */
  lemma VerdictIsExact(s: System, n: nat)
    requires Inv(s) && Enabled(s, Receive(ConfirmedEvent(n))) && n in s.consumer.pending
    ensures var fate := s.channels[s.consumer.generation].fate;
            && n in fate
            && (s.consumer.pending[n].id !in s.consumer.returned <==> fate[n].Routed?)
            && (fate[n].Routed? ==> fate[n].copy < |s.copies| && s.copies[fate[n].copy].confirmed)
  {
    var g := s.consumer.generation;
    var ch := s.channels[g];
    assert ChannelOk(g, ch, s.copies, s.acked);
    var f := ch.sent[n];
    if f.id in s.consumer.returned {
      ReturnedIdIsOwn(s, n);
    }
  }

  /** At most one frame, settling the delivery behind publication n; an ack only if it is covered. */
  ghost predicate SettlesForward(ch: Channel, copies: seq<Copy>, acked: set<nat>, n: nat, frames: seq<Frame>)
    requires n < |ch.sent|
  {
    var tag := ch.sent[n].delivery.tag;
    |frames| <= 1 &&
    (|frames| == 1 ==>
       && !frames[0].PublishFrame? && frames[0].tag == tag
       && (frames[0].AckFrame? && tag < |ch.deliveries| && ch.deliveries[tag] < |copies| ==>
             Covered(copies, acked, ch.deliveries[tag])))
  }

  /** No other forward has the id of forward n or answers its delivery. */
  ghost predicate StandsAlone(sent: seq<Forward>, n: nat)
    requires n < |sent|
  {
    forall m :: 0 <= m < |sent| && m != n ==> sent[m].id != sent[n].id && sent[m].delivery.tag != sent[n].delivery.tag
  }

  lemma ForwardStandsAlone(g: nat, ch: Channel, copies: seq<Copy>, acked: set<nat>, n: nat)
    requires ChannelOk(g, ch, copies, acked) && n < |ch.sent|
    ensures StandsAlone(ch.sent, n)
  {
    forall m: nat | m < |ch.sent| && m != n
      ensures ch.sent[m].id != ch.sent[n].id && ch.sent[m].delivery.tag != ch.sent[n].delivery.tag
    {
      DistinctIds(g, ch, copies, acked, m, n);
    }
  }

  lemma RemovedPublisher(ch: Channel, c: Consumer, n: nat, returned': set<string>, frames: seq<Frame>)
    requires PublisherOk(c, ch) && n in c.pending && StandsAlone(ch.sent, n)
    requires |frames| <= 1 && (|frames| == 1 ==> !frames[0].PublishFrame? && frames[0].tag == ch.sent[n].delivery.tag)
    requires returned' <= c.returned <= returned' + {c.pending[n].id}
    ensures PublisherOk(c.(pending := c.pending - {n}, returned := returned'), Emit(ch, frames))
  {
    assert |frames| == 1 ==> frames[1..] == [] && Emit(ch, frames) == EmitFrame(ch, frames[0]);
  }

  lemma SettlePendingPublisher(g: nat, ch: Channel, copies: seq<Copy>, acked: set<nat>,
                               c: Consumer, n: nat, returned': set<string>, frames: seq<Frame>)
    requires ChannelOk(g, ch, copies, acked) && PublisherOk(c, ch) && n in c.pending
    requires SettlesForward(ch, copies, acked, n, frames)
    requires returned' <= c.returned <= returned' + {c.pending[n].id}
    ensures PublisherOk(c.(pending := c.pending - {n}, returned := returned'), Emit(ch, frames))
  {
    ForwardStandsAlone(g, ch, copies, acked, n);
    RemovedPublisher(ch, c, n, returned', frames);
  }

  lemma SettlePendingChannel(g: nat, ch: Channel, copies: seq<Copy>, acked: set<nat>,
                             c: Consumer, n: nat, returned': set<string>, frames: seq<Frame>)
    requires ChannelOk(g, ch, copies, acked) && PublisherOk(c, ch) && n in c.pending
    requires SettlesForward(ch, copies, acked, n, frames)
    requires returned' <= c.returned <= returned' + {c.pending[n].id}
    ensures ChannelOk(g, Emit(ch, frames), copies, acked)
    ensures PublisherOk(c.(pending := c.pending - {n}, returned := returned'), Emit(ch, frames))
    ensures Emit(ch, frames) == ch.(up := Emit(ch, frames).up, settles := Emit(ch, frames).settles)
  {
    SettlePendingPublisher(g, ch, copies, acked, c, n, returned', frames);
    if |frames| == 1 {
      assert frames[1..] == [];
      assert Emit(ch, frames) == EmitFrame(ch, frames[0]);
      assert ch.phases[frames[0].tag] == Forwarded(n);
      EmitSettleChannel(g, ch, copies, acked, frames[0]);
    }
  }

  /** The handler of publication n runs and is forgotten, writing at most one settling frame. */
  lemma SettlePending(s: System, n: nat, returned': set<string>, frames: seq<Frame>)
    requires Inv(s) && n in s.consumer.pending
    requires SettlesForward(s.channels[s.consumer.generation], s.copies, s.acked, n, frames)
    requires returned' <= s.consumer.returned <= returned' + {s.consumer.pending[n].id}
    ensures Inv(WithEffect(s, (s.consumer.(pending := s.consumer.pending - {n}, returned := returned'), frames)))
  {
    var g := s.consumer.generation;
    var ch := s.channels[g];
    SettlePendingChannel(g, ch, s.copies, s.acked, s.consumer, n, returned', frames);
    ReturnedKept(returned', s.channels, g, Emit(ch, frames));
    ConsumerStep(s, s.consumer.(pending := s.consumer.pending - {n}, returned := returned'), Emit(ch, frames));
  }

  lemma TakeEventKeeps(s: System, e: Event)
    requires Inv(s) && !e.ReturnedEvent?
    ensures Inv(s.(channels := s.channels[s.consumer.generation :=
              s.channels[s.consumer.generation].(down := s.channels[s.consumer.generation].down - {e})]))
  {
    var g := s.consumer.generation;
    var ch' := s.channels[g].(down := s.channels[g].down - {e});
    assert ChannelOk(g, s.channels[g], s.copies, s.acked);
    TakeEventChannel(g, s.channels[g], s.copies, s.acked, e);
    ReturnedKept(s.consumer.returned, s.channels, g, ch');
    ConsumerStep(s, s.consumer, ch');
  }

  lemma RoutedCovers(g: nat, ch: Channel, copies: seq<Copy>, acked: set<nat>, n: nat)
    requires ChannelOk(g, ch, copies, acked) && n in ch.fate && ch.fate[n].Routed?
    requires copies[ch.fate[n].copy].confirmed
    ensures Covered(copies, acked, ch.deliveries[ch.sent[n].delivery.tag])
  {
  }

  lemma NoEffect(s: System)
    requires s.consumer.generation < |s.channels|
    ensures WithEffect(s, (s.consumer, [])) == s
  {
    var g := s.consumer.generation;
    assert s.channels[g := s.channels[g]] == s.channels;
  }

  lemma ReceiveConfirmKeeps(s: System, n: nat)
    requires Inv(s) && Enabled(s, Receive(ConfirmedEvent(n)))
    ensures Inv(Apply(s, Receive(ConfirmedEvent(n))))
  {
    var g := s.consumer.generation;
    var ch := s.channels[g];
    var ch1 := ch.(down := ch.down - {ConfirmedEvent(n)});
    var s1 := s.(channels := s.channels[g := ch1]);
    TakeEventKeeps(s, ConfirmedEvent(n));
    var effect := OnConfirm(s.consumer, n);
    assert Apply(s, Receive(ConfirmedEvent(n))) == WithEffect(s1, effect);
    if n in s.consumer.pending {
      VerdictIsExact(s, n);
      if ch.fate[n].Routed? {
        RoutedCovers(g, ch1, s1.copies, s1.acked, n);
      }
      var returned' := s1.consumer.returned - {s.consumer.pending[n].id};
      SettlePending(s1, n, returned', effect.1);
      assert effect == (s1.consumer.(pending := s1.consumer.pending - {n}, returned := returned'), effect.1);
    } else {
      NoEffect(s1);
    }
  }

  lemma FailureKeeps(s: System, n: nat)
    requires Inv(s)
    ensures Inv(WithEffect(s, OnPublishFailure(s.consumer, n)))
  {
    var effect := OnPublishFailure(s.consumer, n);
    if n in s.consumer.pending {
      SettlePending(s, n, s.consumer.returned, effect.1);
      assert effect == (s.consumer.(pending := s.consumer.pending - {n}, returned := s.consumer.returned), effect.1);
    } else {
      NoEffect(s);
    }
  }

  lemma TakeReturnPublisher(c: Consumer, ch: Channel, id: string)
    requires PublisherOk(c, ch)
    ensures PublisherOk(OnReturned(c, id), ch.(down := ch.down - {ReturnedEvent(id)}))
  {
  }

  lemma TakeReturnKnown(g: nat, channels: seq<Channel>, copies: seq<Copy>, returned: set<string>, id: string)
    requires g < |channels| && WasReturned(channels[g], id) && ReturnedOk(returned, channels)
    ensures ReturnedOk(returned + {id}, channels[g := channels[g].(down := channels[g].down - {ReturnedEvent(id)})])
  {
    var ch' := channels[g].(down := channels[g].down - {ReturnedEvent(id)});
    ReturnedKept(returned, channels, g, ch');
    assert WasReturned(channels[g := ch'][g], id);
  }

  lemma ReturnIsKnown(s: System, g: nat, id: string)
    requires Inv(s) && g < |s.channels| && ReturnedEvent(id) in s.channels[g].down
    ensures WasReturned(s.channels[g], id)
  {
    assert ChannelOk(g, s.channels[g], s.copies, s.acked);
  }

  lemma ReceiveReturnKeeps(s: System, id: string)
    requires Inv(s) && Enabled(s, Receive(ReturnedEvent(id)))
    ensures Inv(Apply(s, Receive(ReturnedEvent(id))))
  {
    var g := s.consumer.generation;
    var ch := s.channels[g];
    var c', ch' := OnReturned(s.consumer, id), ch.(down := ch.down - {ReturnedEvent(id)});
    ReturnIsKnown(s, g, id);
    TakeEventChannel(g, ch, s.copies, s.acked, ReturnedEvent(id));
    TakeReturnPublisher(s.consumer, ch, id);
    TakeReturnKnown(g, s.channels, s.copies, s.consumer.returned, id);
    ConsumerStep(s, c', ch');
    ReceiveReturnIs(s, id);
  }

  lemma ReceiveReturnIs(s: System, id: string)
    requires Enabled(s, Receive(ReturnedEvent(id)))
    ensures var g := s.consumer.generation;
            var ch' := s.channels[g].(down := s.channels[g].down - {ReturnedEvent(id)});
            Apply(s, Receive(ReturnedEvent(id)))
              == s.(consumer := OnReturned(s.consumer, id), channels := s.channels[g := ch'])
  {
  }

  /** The state after one delivery's phase, the command queue, the application's work list and the
      acknowledged origins have changed. */
  ghost function Rephased(s: System, d: DeliveryContext, phase: Phase, commands: seq<Command>,
                          todo: set<DeliveryContext>, acked: set<nat>): System {
    WithPhase(s, d, phase).(consumer := s.consumer.(commands := commands), todo := todo, acked := acked)
  }

  ghost predicate Unresolved(s: System, d: DeliveryContext) {
    Known(s, d) && !s.channels[d.generation].phases[d.tag].Finished? &&
    !s.channels[d.generation].phases[d.tag].Forwarded? && Delivered(d.tag) !in s.channels[d.generation].down
  }

  lemma PhaseStep(s: System, d: DeliveryContext, phase: Phase, commands: seq<Command>,
                  todo: set<DeliveryContext>, acked: set<nat>)
    requires Inv(s) && Unresolved(s, d) && s.acked <= acked
    requires TokensOk(Rephased(s, d, phase, commands, todo, acked))
    ensures Inv(Rephased(s, d, phase, commands, todo, acked))
  {
    var g := d.generation;
    var ch := s.channels[g];
    var ch' := ch.(phases := ch.phases[d.tag := phase]);
    CopiesGrow(s.copies, s.copies, s.acked, acked);
    forall h | 0 <= h < |s.channels|
      ensures ChannelOk(h, s.channels[h], s.copies, acked)
    {
      ChannelGrows(h, s.channels[h], s.copies, s.copies, s.acked, acked);
    }
    PhaseChannel(g, ch, s.copies, acked, d.tag, phase);
    ReturnedKept(s.consumer.returned, s.channels, g, ch');
  }

  lemma ReceiveDeliveryKeeps(s: System, tag: nat)
    requires Inv(s) && Enabled(s, Receive(Delivered(tag)))
    ensures Inv(Apply(s, Receive(Delivered(tag))))
  {
    var g := s.consumer.generation;
    var ch := s.channels[g];
    var d := DeliveryContext(tag, g);
    assert ChannelOk(g, ch, s.copies, s.acked);
    var s1 := s.(channels := s.channels[g := ch.(down := ch.down - {Delivered(tag)})]);
    TakeEventKeeps(s, Delivered(tag));
    var s' := Rephased(s1, d, WithApplication, s1.consumer.commands, s1.todo + {d}, s1.acked);
    assert HasPhase(s1, d, OnTheWay);
    ArrivalTokens(s1, d);
    PhaseStep(s1, d, WithApplication, s1.consumer.commands, s1.todo + {d}, s1.acked);
    assert Apply(s, Receive(Delivered(tag))) == s';
  }

  lemma ArrivalTokens(s: System, d: DeliveryContext)
    requires TokensOk(s) && HasPhase(s, d, OnTheWay)
    ensures TokensOk(Rephased(s, d, WithApplication, s.consumer.commands, s.todo + {d}, s.acked))
  {
    var s' := Rephased(s, d, WithApplication, s.consumer.commands, s.todo + {d}, s.acked);
    forall e | e in s'.todo
      ensures HasPhase(s', e, WithApplication)
    {
      assert e in s.todo ==> HasPhase(s, e, WithApplication);
    }
    forall i | 0 <= i < |s.consumer.commands|
      ensures CommandOk(s', s.consumer.commands[i])
    {
      assert CommandOk(s, s.consumer.commands[i]);
    }
  }

  /** The resolving call: the delivery leaves the work list and its command, if accepted, is queued. */
  lemma ResolveTokens(s: System, command: Command, commands: seq<Command>, acked: set<nat>)
    requires TokensOk(s) && HasPhase(s, command.delivery, WithApplication)
    requires CopyOf(s, command.delivery) < |s.copies|
    requires commands == s.consumer.commands || commands == s.consumer.commands + [command]
    requires s.acked <= acked && (command.AckCommand? ==> OriginOf(s, command.delivery) in acked)
    requires command.ForwardCommand? ==> command.body == s.copies[CopyOf(s, command.delivery)].body
    ensures TokensOk(Rephased(s, command.delivery, if commands == s.consumer.commands then Finished else Queued,
                              commands, s.todo - {command.delivery}, acked))
  {
    var d := command.delivery;
    var s' := Rephased(s, d, if commands == s.consumer.commands then Finished else Queued, commands, s.todo - {d}, acked);
    forall e | e in s'.todo
      ensures HasPhase(s', e, WithApplication)
    {
      assert HasPhase(s, e, WithApplication);
    }
    forall i | 0 <= i < |commands|
      ensures CommandOk(s', commands[i])
      ensures i < |s.consumer.commands| ==> commands[i].delivery != d
    {
      if i < |s.consumer.commands| {
        assert CommandOk(s, s.consumer.commands[i]);
      }
    }
  }

  lemma ResolveKeeps(s: System, command: Command)
    requires Inv(s) && Enabled(s, Resolve(command))
    ensures Inv(Apply(s, Resolve(command)))
  {
    var d := command.delivery;
    assert HasPhase(s, d, WithApplication);
    assert ChannelOk(d.generation, s.channels[d.generation], s.copies, s.acked);
    var commands := Post(s.consumer, command).commands;
    var acked := if command.AckCommand? then s.acked + {OriginOf(s, d)} else s.acked;
    var phase := if commands == s.consumer.commands then Finished else Queued;
    assert commands != s.consumer.commands <==> !s.consumer.closing;
    ResolveTokens(s, command, commands, acked);
    PhaseStep(s, d, phase, commands, s.todo - {d}, acked);
    assert Apply(s, Resolve(command)) == Rephased(s, d, phase, commands, s.todo - {d}, acked);
  }

  lemma DequeueTokens(s: System, phase: Phase)
    requires TokensOk(s) && s.consumer.commands != []
    ensures TokensOk(Rephased(s, s.consumer.commands[0].delivery, phase, s.consumer.commands[1..], s.todo, s.acked))
  {
    var d := s.consumer.commands[0].delivery;
    var s' := Rephased(s, d, phase, s.consumer.commands[1..], s.todo, s.acked);
    assert CommandOk(s, s.consumer.commands[0]);
    forall e | e in s'.todo
      ensures HasPhase(s', e, WithApplication)
    {
      assert HasPhase(s, e, WithApplication);
    }
    forall i | 0 <= i < |s'.consumer.commands|
      ensures CommandOk(s', s'.consumer.commands[i])
    {
      assert s'.consumer.commands[i] == s.consumer.commands[i + 1];
      assert CommandOk(s, s.consumer.commands[i + 1]);
    }
  }

  lemma EffectOfOne(s: System, c': Consumer, frame: Frame)
    requires c'.generation < |s.channels|
    ensures var g := c'.generation;
            WithEffect(s, (c', [frame])) == s.(consumer := c', channels := s.channels[g := EmitFrame(s.channels[g], frame)])
  {
    assert [frame][1..] == [];
    assert Emit(s.channels[c'.generation], [frame]) == EmitFrame(s.channels[c'.generation], frame);
  }

  lemma SettledPublisher(c: Consumer, g: nat, ch: Channel, copies: seq<Copy>, acked: set<nat>, frame: Frame)
    requires PublisherOk(c, ch) && ChannelOk(g, ch, copies, acked) && !frame.PublishFrame?
    requires frame.tag < |ch.phases| && ch.phases[frame.tag] == Finished
    ensures PublisherOk(c, EmitFrame(ch, frame))
  {
    forall n | n in c.pending
      ensures ch.sent[n].delivery.tag !in EmitFrame(ch, frame).settles
    {
      assert ch.phases[ch.sent[n].delivery.tag] == Forwarded(n);
    }
  }

  /** The consumer settles one delivery directly, as an Ack or a requeueing Nack does. */
  lemma DirectSettle(s: System, d: DeliveryContext, frame: Frame)
    requires Inv(s) && HasPhase(s, d, Finished) && d.generation == s.consumer.generation
    requires !frame.PublishFrame? && frame.tag == d.tag && d.tag !in s.channels[d.generation].settles
    requires frame.AckFrame? ==> OriginOf(s, d) in s.acked
    ensures Inv(WithEffect(s, (s.consumer, [frame])))
  {
    var g := d.generation;
    var ch := s.channels[g];
    assert ChannelOk(g, ch, s.copies, s.acked);
    var ch' := EmitFrame(ch, frame);
    EmitSettleChannel(g, ch, s.copies, s.acked, frame);
    SettledPublisher(s.consumer, g, ch, s.copies, s.acked, frame);
    ReturnedKept(s.consumer.returned, s.channels, g, ch');
    ConsumerStep(s, s.consumer, ch');
    EffectOfOne(s, s.consumer, frame);
  }

  lemma EmitPublishPublisher(c: Consumer, ch: Channel, f: Forward)
    requires PublisherOk(c, ch) && f.delivery.tag !in ch.settles
    requires forall n :: n in ch.fate ==> n < |ch.sent|
    ensures PublisherOk(Publishing(c, f), EmitFrame(ch, PublishFrame(c.published, f)))
  {
  }

  function Publishing(c: Consumer, f: Forward): Consumer {
    c.(pending := c.pending[c.published := f], published := c.published + 1)
  }

  lemma ForwardWritten(s: System, f: Forward)
    requires Inv(s) && HasPhase(s, f.delivery, Forwarded(s.consumer.published))
    requires f.delivery.generation == s.consumer.generation && CopyOf(s, f.delivery) < |s.copies|
    requires f.body == s.copies[CopyOf(s, f.delivery)].body
    requires f.id == ForwardId(f.kind, f.delivery.generation, f.delivery.tag, f.count)
    ensures var g, n := s.consumer.generation, s.consumer.published;
            ChannelOk(g, EmitFrame(s.channels[g], PublishFrame(n, f)), s.copies, s.acked)
  {
    var g := s.consumer.generation;
    assert ChannelOk(g, s.channels[g], s.copies, s.acked);
    EmitPublishChannel(g, s.channels[g], s.copies, s.acked, f);
  }

  lemma ForwardOut(s: System, f: Forward)
    requires Inv(s) && HasPhase(s, f.delivery, Forwarded(s.consumer.published))
    requires f.delivery.generation == s.consumer.generation && CopyOf(s, f.delivery) < |s.copies|
    requires f.body == s.copies[CopyOf(s, f.delivery)].body
    requires f.id == ForwardId(f.kind, f.delivery.generation, f.delivery.tag, f.count)
    requires f.delivery.tag !in s.channels[f.delivery.generation].settles
    ensures Inv(WithEffect(s, (Publishing(s.consumer, f), [PublishFrame(s.consumer.published, f)])))
  {
    var g, frame := s.consumer.generation, PublishFrame(s.consumer.published, f);
    var ch' := EmitFrame(s.channels[g], frame);
    ForwardWritten(s, f);
    FatesAreOfSent(s, g);
    EmitPublishPublisher(s.consumer, s.channels[g], f);
    ReturnedExtended(s.consumer.returned, s.channels, g, ch');
    ConsumerStep(s, Publishing(s.consumer, f), ch');
    EffectOfOne(s, Publishing(s.consumer, f), frame);
  }

  lemma FatesAreOfSent(s: System, g: nat)
    requires Inv(s) && g < |s.channels|
    ensures forall n :: n in s.channels[g].fate ==> n < |s.channels[g].sent|
  {
    assert ChannelOk(g, s.channels[g], s.copies, s.acked);
  }

  lemma ReturnedExtended(returned: set<string>, channels: seq<Channel>, g: nat, ch': Channel)
    requires ReturnedOk(returned, channels) && g < |channels|
    requires channels[g].sent <= ch'.sent && ch'.fate == channels[g].fate
    ensures ReturnedOk(returned, channels[g := ch'])
  {
    var channels' := channels[g := ch'];
    forall id | id in returned
      ensures exists h :: 0 <= h < |channels'| && WasReturned(channels'[h], id)
    {
      var h :| 0 <= h < |channels| && WasReturned(channels[h], id);
      var n :| 0 <= n < |channels[h].sent| && n in channels[h].fate && channels[h].fate[n].Returned? && channels[h].sent[n].id == id;
      assert n in channels'[h].fate && channels'[h].sent[n].id == id;
      assert WasReturned(channels'[h], id);
    }
  }

  lemma RephasedFacts(s: System, d: DeliveryContext, phase: Phase, commands: seq<Command>)
    requires Known(s, d)
    ensures var s1 := Rephased(s, d, phase, commands, s.todo, s.acked);
            && HasPhase(s1, d, phase) && OriginOf(s1, d) == OriginOf(s, d) && CopyOf(s1, d) == CopyOf(s, d)
            && s1.channels[d.generation].settles == s.channels[d.generation].settles
  {
  }

  /** Carrying out a command whose delivery has been given the phase that goes with it. */
  lemma ExecuteKeeps(s: System, command: Command)
    requires Inv(s) && CopyOf(s, command.delivery) < |s.copies|
    requires var d := command.delivery;
             && HasPhase(s, d, if IsCurrent(s.consumer, d) && command.ForwardCommand?
                               then Forwarded(s.consumer.published) else Finished)
             && d.tag !in s.channels[d.generation].settles
    requires command.AckCommand? ==> OriginOf(s, command.delivery) in s.acked
    requires command.ForwardCommand? ==> command.body == s.copies[CopyOf(s, command.delivery)].body
    ensures Inv(WithEffect(s, Execute(s.consumer, command)))
  {
    var d := command.delivery;
    if !IsCurrent(s.consumer, d) {
      NoEffect(s);
    } else if command.AckCommand? {
      DirectSettle(s, d, AckFrame(d.tag));
    } else if command.RequeueCommand? {
      DirectSettle(s, d, RequeueFrame(d.tag));
    } else {
      ForwardOut(s, MakeForward(command.kind, d, command.body, command.retryAfterMs, command.count));
    }
  }

  lemma QueuedIsUnresolved(s: System, d: DeliveryContext)
    requires Inv(s) && HasPhase(s, d, Queued)
    ensures Unresolved(s, d) && d.tag !in s.channels[d.generation].settles
  {
    assert ChannelOk(d.generation, s.channels[d.generation], s.copies, s.acked);
  }

  lemma RunCommandKeeps(s: System)
    requires Inv(s) && Enabled(s, RunCommand)
    ensures Inv(Apply(s, RunCommand))
  {
    var command, rest := s.consumer.commands[0], s.consumer.commands[1..];
    var d := command.delivery;
    assert CommandOk(s, command);
    QueuedIsUnresolved(s, d);
    var phase := if IsCurrent(s.consumer, d) && command.ForwardCommand? then Forwarded(s.consumer.published) else Finished;
    DequeueTokens(s, phase);
    PhaseStep(s, d, phase, rest, s.todo, s.acked);
    RephasedFacts(s, d, phase, rest);
    var s1 := Rephased(s, d, phase, rest, s.todo, s.acked);
    ExecuteKeeps(s1, command);
    CommandsCommute(s, d, phase, Execute(s1.consumer, command));
    assert Apply(s, RunCommand) == WithEffect(s1, Execute(s1.consumer, command));
  }

  /** Recording the phase before or after the frames are written makes no difference. */
  lemma CommandsCommute(s: System, d: DeliveryContext, phase: Phase, effect: Effect)
    requires s.consumer.commands != [] && s.consumer.generation < |s.channels| && Known(s, d)
    requires effect == ExecuteHead(s.consumer) && d == s.consumer.commands[0].delivery
    ensures WithPhase(WithEffect(s, effect), d, phase)
         == WithEffect(Rephased(s, d, phase, s.consumer.commands[1..], s.todo, s.acked), effect)
  {
    var g, h := effect.0.generation, d.generation;
    var ch := s.channels[g];
    if effect.1 != [] {
      assert effect.1 == [effect.1[0]];
      assert Emit(ch, effect.1) == EmitFrame(ch, effect.1[0]);
      var ph := s.channels[h].phases[d.tag := phase];
      if g == h {
        assert Emit(ch.(phases := ph), effect.1) == EmitFrame(ch.(phases := ph), effect.1[0]);
      }
    }
    var a := WithPhase(WithEffect(s, effect), d, phase);
    var b := WithEffect(Rephased(s, d, phase, s.consumer.commands[1..], s.todo, s.acked), effect);
    assert a.channels == b.channels;
  }

  // ----- flags and new channels -----

  lemma FlagsKeep(s: System, connected: bool, reconnectPending: bool, closing: bool)
    requires Inv(s)
    ensures Inv(s.(consumer := s.consumer.(connected := connected, reconnectPending := reconnectPending, closing := closing)))
  {
    var g := s.consumer.generation;
    var c' := s.consumer.(connected := connected, reconnectPending := reconnectPending, closing := closing);
    assert s.channels[g := s.channels[g]] == s.channels;
    ConsumerStep(s, c', s.channels[g]);
  }

  lemma ReadyKeeps(s: System, g: nat)
    requires Inv(s) && Enabled(s, Ready(g))
    ensures Inv(Apply(s, Ready(g)))
  {
    if g == s.consumer.generation {
      var ch' := s.channels[g].(consuming := true);
      assert ChannelOk(g, s.channels[g], s.copies, s.acked);
      forall id | ReturnedEvent(id) in ch'.down
        ensures WasReturned(ch', id)
      {
        assert WasReturned(s.channels[g], id);
      }
      ReturnedKept(s.consumer.returned, s.channels, g, ch');
      ConsumerStep(s, OnReady(s.consumer, g), ch');
    }
  }

  function Opened(s: System): System {
    s.(consumer := InitializeChannel(s.consumer), channels := s.channels + [FRESH])
  }

  lemma OpenedTokens(s: System)
    requires TokensOk(s)
    ensures TokensOk(Opened(s))
  {
    var s' := Opened(s);
    forall d | d in s.todo
      ensures HasPhase(s', d, WithApplication)
    {
      assert HasPhase(s, d, WithApplication);
    }
    forall i | 0 <= i < |s.consumer.commands|
      ensures CommandOk(s', s.consumer.commands[i])
    {
      assert CommandOk(s, s.consumer.commands[i]);
    }
  }

  lemma OpenedReturned(returned: set<string>, channels: seq<Channel>)
    requires ReturnedOk(returned, channels)
    ensures ReturnedOk(returned, channels + [FRESH])
  {
    var channels' := channels + [FRESH];
    forall id | id in returned
      ensures exists g :: 0 <= g < |channels'| && WasReturned(channels'[g], id)
    {
      var g :| 0 <= g < |channels| && WasReturned(channels[g], id);
      assert WasReturned(channels'[g], id);
    }
  }

  lemma OpenedUnacked(copies: seq<Copy>, channels: seq<Channel>)
    requires UnackedOk(copies, channels)
    ensures UnackedOk(copies, channels + [FRESH])
  {
  }

  lemma FreshChannel(g: nat, copies: seq<Copy>, acked: set<nat>)
    ensures ChannelOk(g, FRESH, copies, acked)
  {
  }

  lemma NewChannelKeeps(s: System)
    requires Inv(s)
    ensures Inv(s.(consumer := InitializeChannel(s.consumer), channels := s.channels + [FRESH]))
  {
    var s' := Opened(s);
    OpenedTokens(s);
    OpenedReturned(s.consumer.returned, s.channels);
    OpenedUnacked(s.copies, s.channels);
    forall g | 0 <= g < |s'.channels|
      ensures ChannelOk(g, s'.channels[g], s'.copies, s'.acked)
    {
      if g < |s.channels| {
        assert s'.channels[g] == s.channels[g];
      } else {
        FreshChannel(g, s.copies, s.acked);
      }
    }
    assert ConsumerOk(s');
  }

  lemma ReconnectKeeps(s: System)
    requires Inv(s) && Enabled(s, Reconnect)
    ensures Inv(Apply(s, Reconnect))
  {
    FlagsKeep(s, s.consumer.connected, false, s.consumer.closing);
    if !s.consumer.closing {
      NewChannelKeeps(s.(consumer := s.consumer.(reconnectPending := false)));
    }
  }

  lemma ReceiveKeeps(s: System, e: Event)
    requires Inv(s) && Enabled(s, Receive(e))
    ensures Inv(Apply(s, Receive(e)))
  {
    match e
    case Delivered(tag) => ReceiveDeliveryKeeps(s, tag);
    case ReturnedEvent(id) => ReceiveReturnKeeps(s, id);
    case ConfirmedEvent(n) => ReceiveConfirmKeeps(s, n);
    case NackedEvent(n) =>
      TakeEventKeeps(s, e);
      var g := s.consumer.generation;
      FailureKeeps(s.(channels := s.channels[g := s.channels[g].(down := s.channels[g].down - {e})]), n);
  }

  predicate OfBroker(step: Step) {
    step.Produce? || step.Expire? || step.Lose? || step.Deliver? || step.TakeSettle? || step.TakePublish? ||
    step.EmitConfirm? || step.EmitNack? || step.CloseChannel?
  }

  lemma BrokerKeeps(s: System, step: Step)
    requires Inv(s) && Enabled(s, step) && OfBroker(step)
    ensures Inv(Apply(s, step))
  {
    match step
    case Produce(body) => ProduceKeeps(s, body);
    case Expire(c) => ExpireKeeps(s, c);
    case Lose(c) => LoseKeeps(s, c);
    case Deliver(g, c) => DeliverKeeps(s, g, c);
    case TakeSettle(g, frame) => TakeSettleKeeps(s, g, frame);
    case TakePublish(g, frame, fate) => TakePublishKeeps(s, g, frame, fate);
    case EmitConfirm(g, n) => EmitConfirmKeeps(s, g, n);
    case EmitNack(g, n) => EmitNackKeeps(s, g, n);
    case CloseChannel(g) => CloseKeeps(s, g);
  }

  lemma ConsumerKeeps(s: System, step: Step)
    requires Inv(s) && Enabled(s, step) && !OfBroker(step)
    ensures Inv(Apply(s, step))
  {
    match step
    case Receive(e) => ReceiveKeeps(s, e);
    case PublishError(n) => FailureKeeps(s, n);
    case Resolve(command) => ResolveKeeps(s, command);
    case RunCommand => RunCommandKeeps(s);
    case ChannelError =>
      FlagsKeep(s, false, s.consumer.reconnectPending || !s.consumer.closing, s.consumer.closing);
    case Ready(g) => ReadyKeeps(s, g);
    case Start => NewChannelKeeps(s);
    case Reconnect => ReconnectKeeps(s);
    case ClearConnected => FlagsKeep(s, false, s.consumer.reconnectPending, s.consumer.closing);
    case StopAccepting => FlagsKeep(s, s.consumer.connected, s.consumer.reconnectPending, true);
  }

  /** Every step keeps the invariant. */
  lemma StepKeeps(s: System, step: Step)
    requires Inv(s) && Enabled(s, step)
    ensures Inv(Apply(s, step))
  {
    if OfBroker(step) {
      BrokerKeeps(s, step);
    } else {
      ConsumerKeeps(s, step);
    }
  }
}
