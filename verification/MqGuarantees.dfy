/** What holds in every run of the consumer with its broker. */
module MqGuarantees {
  import opened MqConsumer
  import opened MqProtocol
  import opened MqSafety

  lemma {:induction false} RunKeeps(s: System, steps: seq<Step>)
    requires Inv(s) && IsRun(s, steps)
    ensures Inv(After(s, steps))
    decreases |steps|
  {
    if steps != [] {
      StepKeeps(s, steps[0]);
      RunKeeps(Apply(s, steps[0]), steps[1..]);
    }
  }

  lemma ClosedChannel(g: nat, copies: seq<Copy>, acked: set<nat>)
    ensures ChannelOk(g, CLOSED, copies, acked)
  {
  }

  lemma StartIsFine()
    ensures Inv(START)
  {
    ClosedChannel(0, [], {});
  }

  lemma ReachableIsFine(steps: seq<Step>)
    requires IsRun(START, steps)
    ensures Inv(After(START, steps))
  {
    StartIsFine();
    RunKeeps(START, steps);
  }

  // ----- no message is lost -----

  predicate Held(place: Place) {
    place == MainQueue || place == RetryQueue || place == DeadQueue || place.Unacked?
  }

  /** The latest confirmed copy of an origin that was not acknowledged is still held. */
  lemma {:induction false} LatestCopyIsHeld(copies: seq<Copy>, acked: set<nat>, c: nat)
    requires CopiesOk(copies, acked) && c < |copies| && copies[c].confirmed && copies[c].origin !in acked
    ensures exists d :: c <= d < |copies| && copies[d].origin == copies[c].origin &&
                        copies[d].confirmed && Held(copies[d].place)
    decreases |copies| - c
  {
    assert CopyOk(copies, acked, c);
    if !Held(copies[c].place) {
      var d :| c < d < |copies| && copies[d].origin == copies[c].origin && copies[d].confirmed;
      LatestCopyIsHeld(copies, acked, d);
    }
  }

  /** In every reachable state, every message the producer published is acknowledged by the
      application, or a confirmed copy with its body sits in the main, retry or dead-letter queue or
      is unacknowledged on a channel the broker still has open (and will requeue when it closes). */
  lemma NoMessageIsLost(steps: seq<Step>, origin: nat)
    requires IsRun(START, steps)
    requires var s := After(START, steps); origin < |s.copies| && s.copies[origin].origin == origin && origin !in s.acked
    ensures var s := After(START, steps);
            exists c :: 0 <= c < |s.copies| && s.copies[c].origin == origin && s.copies[c].confirmed &&
                        s.copies[c].body == s.copies[origin].body && Held(s.copies[c].place) &&
                        (s.copies[c].place.Unacked? ==>
                           s.copies[c].place.generation < |s.channels| && s.channels[s.copies[c].place.generation].open)
  {
    ReachableIsFine(steps);
    var s := After(START, steps);
    assert CopyOk(s.copies, s.acked, origin);
    LatestCopyIsHeld(s.copies, s.acked, origin);
    var c :| 0 <= c < |s.copies| && s.copies[c].origin == origin && s.copies[c].confirmed && Held(s.copies[c].place);
    assert CopyOk(s.copies, s.acked, c);
  }

  /** The frames a step adds to those travelling on channel g. */
  ghost function Written(s: System, step: Step, g: nat): set<Frame>
    requires Enabled(s, step) && g < |s.channels| <= |Apply(s, step).channels|
  {
    Apply(s, step).channels[g].up - s.channels[g].up
  }

  /** The broker stored a confirmed copy of delivery d through publication n of d's channel. */
  ghost predicate ForwardedSafely(s: System, n: nat, d: DeliveryContext) {
    Known(s, d) && CopyOf(s, d) < |s.copies| &&
    var ch := s.channels[d.generation];
    n < |ch.sent| && ch.sent[n].delivery == d && n in ch.fate && ch.fate[n].Routed? &&
    var c := ch.fate[n].copy;
    CopyOf(s, d) < c < |s.copies| && s.copies[c].confirmed &&
    s.copies[c].origin == s.copies[CopyOf(s, d)].origin && s.copies[c].body == s.copies[CopyOf(s, d)].body
  }

  ghost predicate AckReason(s: System, step: Step, d: DeliveryContext) {
    || (step.RunCommand? && s.consumer.commands != [] && s.consumer.commands[0] == AckCommand(d))
    || (step.Receive? && step.event.ConfirmedEvent? && ForwardedSafely(s, step.event.seqno, d))
  }

  /** An ack is written only for an Ack call, or for a forward whose confirmed copy the broker has
      stored with the delivery's body and origin. */
  lemma AckNeedsCallOrConfirmedCopy(steps: seq<Step>, step: Step, g: nat, tag: nat)
    requires IsRun(START, steps) && Enabled(After(START, steps), step)
    requires var s := After(START, steps);
             g < |s.channels| <= |Apply(s, step).channels| && AckFrame(tag) in Written(s, step, g)
    ensures AckReason(After(START, steps), step, DeliveryContext(tag, g))
  {
    ReachableIsFine(steps);
    var s := After(START, steps);
    match step
    case RunCommand => AckFromCommand(s, g, tag);
    case Receive(e) =>
      if e.ConfirmedEvent? {
        AckFromConfirm(s, e.seqno, g, tag);
      } else {
        NoAckOtherwise(s, step, g, tag);
      }
    case _ => NoAckOtherwise(s, step, g, tag);
  }

  lemma OneFrame(ch: Channel, frames: seq<Frame>)
    requires |frames| <= 1
    ensures Emit(ch, frames) == if frames == [] then ch else EmitFrame(ch, frames[0])
  {
    if frames != [] {
      assert frames[1..] == [];
    }
  }

  lemma AckFromCommand(s: System, g: nat, tag: nat)
    requires s.consumer.commands != [] && g < |s.channels| && s.consumer.generation < |s.channels|
    requires AckFrame(tag) in Written(s, RunCommand, g)
    ensures s.consumer.commands[0] == AckCommand(DeliveryContext(tag, g))
  {
    OneFrame(s.channels[s.consumer.generation], ExecuteHead(s.consumer).1);
  }

  lemma ConfirmWritesAck(s: System, n: nat, g: nat, tag: nat)
    requires Enabled(s, Receive(ConfirmedEvent(n))) && g < |s.channels|
    requires AckFrame(tag) in Written(s, Receive(ConfirmedEvent(n)), g)
    ensures g == s.consumer.generation && n in s.consumer.pending
    ensures s.consumer.pending[n].delivery == DeliveryContext(tag, g)
    ensures s.consumer.pending[n].id !in s.consumer.returned
  {
    var ch := s.channels[s.consumer.generation];
    OneFrame(ch.(down := ch.down - {ConfirmedEvent(n)}), OnConfirm(s.consumer, n).1);
  }

  lemma RoutedIsSafe(g: nat, s: System, n: nat)
    requires CopiesOk(s.copies, s.acked) && g < |s.channels|
    requires ChannelOk(g, s.channels[g], s.copies, s.acked)
    requires var fate := s.channels[g].fate; n in fate && fate[n].Routed? && s.copies[fate[n].copy].confirmed
    ensures ForwardedSafely(s, n, s.channels[g].sent[n].delivery)
  {
    var ch := s.channels[g];
    var c, d := ch.fate[n].copy, ch.deliveries[ch.sent[n].delivery.tag];
    assert CopyOk(s.copies, s.acked, c) && CopyOk(s.copies, s.acked, d);
  }

  lemma AckFromConfirm(s: System, n: nat, g: nat, tag: nat)
    requires Inv(s) && Enabled(s, Receive(ConfirmedEvent(n))) && g < |s.channels|
    requires AckFrame(tag) in Written(s, Receive(ConfirmedEvent(n)), g)
    ensures ForwardedSafely(s, n, DeliveryContext(tag, g))
  {
    ConfirmWritesAck(s, n, g, tag);
    VerdictIsExact(s, n);
    RoutedIsSafe(g, s, n);
  }

  lemma NoAckOtherwise(s: System, step: Step, g: nat, tag: nat)
    requires Enabled(s, step) && g < |s.channels| <= |Apply(s, step).channels|
    requires !step.RunCommand? && !(step.Receive? && step.event.ConfirmedEvent?)
    ensures AckFrame(tag) !in Written(s, step, g)
  {
    var h := s.consumer.generation;
    match step
    case Receive(e) =>
      if e.NackedEvent? {
        OneFrame(s.channels[h].(down := s.channels[h].down - {e}), OnPublishFailure(s.consumer, e.seqno).1);
      }
    case PublishError(n) =>
      OneFrame(s.channels[h], OnPublishFailure(s.consumer, n).1);
    case _ =>
  }

  // ----- settling -----

  /** Every ack or reject the consumer ever wrote to a channel names a delivery made on that very
      channel, and no delivery is settled twice. */
  lemma SettledOnOwnChannelOnce(steps: seq<Step>, g: nat)
    requires IsRun(START, steps) && g < |After(START, steps).channels|
    ensures var ch := After(START, steps).channels[g];
            && (forall i :: 0 <= i < |ch.settles| ==> ch.settles[i] < |ch.deliveries|)
            && (forall i, j :: 0 <= i < j < |ch.settles| ==> ch.settles[i] != ch.settles[j])
  {
    ReachableIsFine(steps);
    var s := After(START, steps);
    assert ChannelOk(g, s.channels[g], s.copies, s.acked);
    SettlesNameDeliveries(s.channels[g]);
  }

  lemma SettlesNameDeliveries(ch: Channel)
    requires SettlesOk(ch) && |ch.phases| == |ch.deliveries|
    ensures forall i :: 0 <= i < |ch.settles| ==> ch.settles[i] < |ch.deliveries|
  {
    forall i | 0 <= i < |ch.settles|
      ensures ch.settles[i] < |ch.deliveries|
    {
      assert ch.settles[i] in ch.settles;
    }
  }

  /** So the broker never closes a channel over an unknown delivery tag. */
  lemma BrokerKnowsEveryTag(steps: seq<Step>, g: nat, frame: Frame)
    requires IsRun(START, steps) && Enabled(After(START, steps), TakeSettle(g, frame))
    ensures Outstanding(After(START, steps), g, frame.tag)
  {
    ReachableIsFine(steps);
    SettleIsOutstanding(After(START, steps), g, frame);
  }

  /** The verdict on a confirmed forward is the broker's, in every reachable state: ids left over
      from dead channels never count. */
  lemma RoutingVerdictIsCorrect(steps: seq<Step>, n: nat)
    requires IsRun(START, steps) && Enabled(After(START, steps), Receive(ConfirmedEvent(n)))
    requires n in After(START, steps).consumer.pending
    ensures var s := After(START, steps);
            var fate := s.channels[s.consumer.generation].fate;
            n in fate && !fate[n].Refused? &&
            (s.consumer.pending[n].id in s.consumer.returned <==> fate[n].Returned?) &&
            (Verdict(s.consumer, n) == [Notice(true, "")] <==> fate[n].Routed?)
  {
    ReachableIsFine(steps);
    VerdictIsExact(After(START, steps), n);
    var s := After(START, steps);
    assert ChannelOk(s.consumer.generation, s.channels[s.consumer.generation], s.copies, s.acked);
  }
}
