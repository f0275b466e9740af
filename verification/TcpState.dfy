/** The buffers of the AMQP transport: a socket state that writes and reads in parts, with the protocol
    layer calling back into it while it hands over received bytes. */
module TcpState {
  import opened Basics

  /** fd, handler: the socket and whether a handler is attached. readable, writable: the interest last
      registered with the event loop. detached: the connection was closed by its user. given, sent, received
      and consumed record the byte streams on the four sides. */
  datatype Socket = Socket(
    fd: int, handler: bool, closed: bool, detached: bool, destroyed: bool,
    outbuf: seq<Byte>, inbuf: seq<Byte>, readable: bool, writable: bool, losses: nat,
    given: seq<Byte>, sent: seq<Byte>, received: seq<Byte>, consumed: seq<Byte>)

  /** What the protocol layer and the user may do from inside a callback. */
  datatype Callback = Write(data: seq<Byte>) | CloseConnection

  datatype SendResult = Sent(n: nat) | SendAgain | SendFailed
  datatype ReceiveResult = Received(data: seq<Byte>) | ReceiveAgain | ReceiveFailed | EndOfStream

  /** One call of process: the event flags, what the socket calls answer if they are made, what the
      callbacks do, how much the parser says it consumed, and whether the connection outlives them. */
  datatype Event = Event(
    onWritable: bool, onReadable: bool, send: SendResult, receive: ReceiveResult,
    callbacks: seq<Callback>, consumed: nat, survives: bool)

  datatype Step = Process(event: Event) | OnData(data: seq<Byte>) | Close | Destroy

  // ----- the operations -----

  function Monitor(s: Socket, readable: bool, writable: bool): Socket {
    if s.handler then s.(readable := readable, writable := writable) else s
  }

  function Given(s: Socket, data: seq<Byte>): Socket {
    var buffered := s.(outbuf := s.outbuf + data, given := s.given + data);
    if s.fd >= 0 then Monitor(buffered, true, true) else buffered
  }

  function Closed(s: Socket): Socket {
    if !s.handler then s
    else (if s.fd >= 0 then Monitor(s, false, false) else s).(detached := true)
  }

  function Destroyed(s: Socket): Socket {
    (if s.fd >= 0 then Monitor(s, false, false) else s).(handler := false, destroyed := true)
  }

  function Called(s: Socket, calls: seq<Callback>): Socket
    decreases |calls|
  {
    if calls == [] then s
    else Called(match calls[0] { case Write(data) => Given(s, data) case CloseConnection => Closed(s) }, calls[1..])
  }

  function Lost(s: Socket, calls: seq<Callback>): Socket {
    if s.closed then s
    else Called(Monitor(s.(closed := true), false, false).(losses := s.losses + 1), calls)
  }

  function Flushed(s: Socket, n: nat): Socket
    requires n <= |s.outbuf|
  {
    s.(outbuf := s.outbuf[n..], sent := s.sent + s.outbuf[..n])
  }

  function Consumed(s: Socket, n: nat): Socket {
    var m := if n < |s.inbuf| then n else |s.inbuf|;
    s.(inbuf := s.inbuf[m..], consumed := s.consumed + s.inbuf[..m])
  }

  lemma ConsumedNothing(s: Socket)
    ensures Consumed(s, 0) == s
  {
    assert s.inbuf[0..] == s.inbuf && s.consumed + s.inbuf[..0] == s.consumed;
  }

  function Accepted(s: Socket, data: seq<Byte>): Socket {
    s.(inbuf := s.inbuf + data, received := s.received + data)
  }

  function Idle(s: Socket): Socket { Monitor(s, true, s.outbuf != []) }

  /** The sending half of process; the flag says whether it goes on. */
  function SendHalf(s: Socket, e: Event): (Socket, bool) {
    if !e.onWritable || s.outbuf == [] then (s, true)
    else match e.send
      case Sent(n) => (if n <= |s.outbuf| then Flushed(s, n) else s, true)
      case SendAgain => (s, true)
      case SendFailed => (Lost(s, e.callbacks), false)
  }

  function ReceiveHalf(s: Socket, e: Event): Socket {
    if !e.onReadable then Idle(s)
    else match e.receive
      case Received(data) =>
        var called := Called(Accepted(s, data), e.callbacks);
        if e.survives then Idle(Consumed(called, e.consumed)) else Destroyed(called)
      case ReceiveAgain => Idle(s)
      case ReceiveFailed => Lost(s, e.callbacks)
      case EndOfStream => Lost(s, e.callbacks)
  }

  function Processed(s: Socket, e: Event): Socket {
    var half := SendHalf(s, e);
    if half.1 then ReceiveHalf(half.0, e) else half.0
  }

  // ----- the class -----

  class TcpConnection {
    var fd: int
    var handler: bool
    var closed: bool
    var detached: bool
    var destroyed: bool
    var outbuf: seq<Byte>
    var inbuf: seq<Byte>
    var readable: bool
    var writable: bool
    var losses: nat
    ghost var given: seq<Byte>
    ghost var sent: seq<Byte>
    ghost var received: seq<Byte>
    ghost var consumed: seq<Byte>

    ghost function View(): Socket
      reads this
    {
      Socket(fd, handler, closed, detached, destroyed, outbuf, inbuf, readable, writable, losses,
             given, sent, received, consumed)
    }

    /** A socket that was opened is watched both ways; one that was not is reported as detached. */
    constructor (fd: int, handler: bool)
      ensures View() == Opened(fd, handler)
    {
      this.fd, this.handler, closed, destroyed, outbuf, inbuf := fd, handler, false, false, [], [];
      detached := fd < 0 && handler;
      readable, writable := fd >= 0 && handler, fd >= 0 && handler;
      losses, given, sent, received, consumed := 0, [], [], [], [];
    }

    method SetMonitor(read: bool, write: bool)
      modifies this`readable, this`writable
      ensures View() == Monitor(old(View()), read, write)
    {
      if handler {
        readable, writable := read, write;
      }
    }

    method OnData(data: seq<Byte>)
      modifies this
      ensures View() == Given(old(View()), data)
    {
      outbuf := outbuf + data;
      given := given + data;
      if fd >= 0 {
        SetMonitor(true, true);
      }
    }

    method Close()
      modifies this
      ensures View() == Closed(old(View()))
    {
      if handler {
        if fd >= 0 {
          SetMonitor(false, false);
        }
        detached := true;
      }
    }

    method Destruct()
      modifies this
      ensures View() == Destroyed(old(View()))
    {
      if fd >= 0 {
        SetMonitor(false, false);
      }
      handler, destroyed := false, true;
    }

    /** The protocol layer's calls into the connection, in order. */
    method RunCallbacks(calls: seq<Callback>)
      modifies this
      ensures View() == Called(old(View()), calls)
    {
      var i := 0;
      while i < |calls|
        invariant 0 <= i <= |calls|
        invariant Called(View(), calls[i..]) == Called(old(View()), calls)
      {
        assert calls[i..][1..] == calls[i + 1..];
        match calls[i] {
          case Write(data) => OnData(data);
          case CloseConnection => Close();
        }
        i := i + 1;
      }
    }

    method MarkLost(calls: seq<Callback>)
      modifies this
      ensures View() == Lost(old(View()), calls)
    {
      if closed {
        return;
      }
      closed := true;
      SetMonitor(false, false);
      losses := losses + 1;
      RunCallbacks(calls);
    }

    method EraseOut(n: nat)
      requires n <= |outbuf|
      modifies this`outbuf, this`sent
      ensures View() == Flushed(old(View()), n)
    {
      sent := sent + outbuf[..n];
      outbuf := outbuf[n..];
    }

    method EraseIn(n: nat)
      modifies this`inbuf, this`consumed
      ensures View() == Consumed(old(View()), n)
    {
      if n > 0 {
        var m := if n < |inbuf| then n else |inbuf|;
        consumed, inbuf := consumed + inbuf[..m], inbuf[m..];
      } else {
        ConsumedNothing(View());
      }
    }

    method ProcessSend(e: Event) returns (go: bool)
      requires e.send.Sent? ==> e.onWritable && outbuf != [] ==> e.send.n <= |outbuf|
      modifies this
      ensures (View(), go) == SendHalf(old(View()), e)
    {
      go := true;
      if e.onWritable && outbuf != [] {
        match e.send {
          case Sent(n) =>
            if n > 0 {
              EraseOut(n);
            } else {
              assert outbuf[0..] == outbuf && sent + outbuf[..0] == sent;
            }
          case SendAgain =>
          case SendFailed =>
            MarkLost(e.callbacks);
            go := false;
        }
      }
    }

    method ProcessReceive(e: Event)
      modifies this
      ensures View() == ReceiveHalf(old(View()), e)
    {
      if e.onReadable {
        match e.receive {
          case Received(data) =>
            inbuf := inbuf + data;
            received := received + data;
            RunCallbacks(e.callbacks);
            if !e.survives {
              Destruct();
              return;
            }
            EraseIn(e.consumed);
          case ReceiveAgain =>
          case ReceiveFailed =>
            MarkLost(e.callbacks);
            return;
          case EndOfStream =>
            MarkLost(e.callbacks);
            return;
        }
      }
      SetMonitor(true, outbuf != []);
    }

    /** One event on the socket. send never takes more than it was offered. */
    method Process(e: Event)
      requires e.send.Sent? ==> e.onWritable && outbuf != [] ==> e.send.n <= |outbuf|
      modifies this
      ensures View() == Processed(old(View()), e)
    {
      var go := ProcessSend(e);
      if go {
        ProcessReceive(e);
      }
    }
  }

  // ----- runs -----

  function Opened(fd: int, handler: bool): Socket {
    var watched := fd >= 0 && handler;
    Socket(fd, handler, false, fd < 0 && handler, false, [], [], watched, watched, 0, [], [], [], [])
  }

  predicate Enabled(s: Socket, step: Step) {
    !s.destroyed && (step.Process? ==> step.event.send.Sent? ==> step.event.onWritable && s.outbuf != [] ==>
                     step.event.send.n <= |s.outbuf|)
  }

  function Apply(s: Socket, step: Step): Socket {
    match step
    case Process(e) => Processed(s, e)
    case OnData(data) => Given(s, data)
    case Close => Closed(s)
    case Destroy => Destroyed(s)
  }

  predicate IsRun(s: Socket, steps: seq<Step>)
    decreases |steps|
  {
    steps == [] || (Enabled(s, steps[0]) && IsRun(Apply(s, steps[0]), steps[1..]))
  }

  function After(s: Socket, steps: seq<Step>): Socket
    decreases |steps|
  {
    if steps == [] then s else After(Apply(s, steps[0]), steps[1..])
  }

  predicate Live(s: Socket) { s.fd >= 0 && s.handler && !s.closed && !s.detached && !s.destroyed }

  /** Nothing is lost, repeated or reordered in either direction. */
  predicate Conserved(s: Socket) { s.sent + s.outbuf == s.given && s.consumed + s.inbuf == s.received }

  predicate Watched(s: Socket) { Live(s) ==> s.readable && (s.outbuf != [] ==> s.writable) }

  predicate ReportedOnce(s: Socket) { s.losses == if s.closed then 1 else 0 }

  predicate Inv(s: Socket) { Conserved(s) && Watched(s) && ReportedOnce(s) }

  lemma GivenKeeps(s: Socket, data: seq<Byte>)
    requires Inv(s)
    ensures Inv(Given(s, data))
  {
    assert s.sent + (s.outbuf + data) == (s.sent + s.outbuf) + data;
  }

  lemma ClosedKeeps(s: Socket)
    requires Inv(s)
    ensures Inv(Closed(s))
  {
  }

  lemma {:induction false} CalledKeeps(s: Socket, calls: seq<Callback>)
    requires Inv(s)
    ensures Inv(Called(s, calls))
    decreases |calls|
  {
    if calls != [] {
      match calls[0] {
        case Write(data) =>
          GivenKeeps(s, data);
          CalledKeeps(Given(s, data), calls[1..]);
        case CloseConnection =>
          ClosedKeeps(s);
          CalledKeeps(Closed(s), calls[1..]);
      }
    }
  }

  lemma LostKeeps(s: Socket, calls: seq<Callback>)
    requires Inv(s)
    ensures Inv(Lost(s, calls))
  {
    if !s.closed {
      CalledKeeps(Monitor(s.(closed := true), false, false).(losses := s.losses + 1), calls);
    }
  }

  lemma SendHalfKeeps(s: Socket, e: Event)
    requires Inv(s)
    ensures Inv(SendHalf(s, e).0)
  {
    if e.onWritable && s.outbuf != [] {
      match e.send {
        case Sent(n) =>
          if n <= |s.outbuf| {
            assert s.outbuf == s.outbuf[..n] + s.outbuf[n..];
            assert (s.sent + s.outbuf[..n]) + s.outbuf[n..] == s.sent + s.outbuf;
          }
        case SendAgain =>
        case SendFailed => LostKeeps(s, e.callbacks);
      }
    }
  }

  lemma ReceiveHalfKeeps(s: Socket, e: Event)
    requires Inv(s)
    ensures Inv(ReceiveHalf(s, e))
  {
    if e.onReadable {
      match e.receive {
        case Received(data) =>
          assert s.consumed + (s.inbuf + data) == (s.consumed + s.inbuf) + data;
          CalledKeeps(Accepted(s, data), e.callbacks);
          ConsumedKeeps(Called(Accepted(s, data), e.callbacks), e.consumed);
        case ReceiveAgain =>
        case ReceiveFailed => LostKeeps(s, e.callbacks);
        case EndOfStream => LostKeeps(s, e.callbacks);
      }
    }
  }

  lemma ConsumedKeeps(s: Socket, n: nat)
    requires Inv(s)
    ensures Inv(Consumed(s, n))
  {
    var m := if n < |s.inbuf| then n else |s.inbuf|;
    assert (s.consumed + s.inbuf[..m]) + s.inbuf[m..] == s.consumed + s.inbuf;
  }

  lemma StepKeeps(s: Socket, step: Step)
    requires Inv(s)
    ensures Inv(Apply(s, step))
  {
    match step {
      case Process(e) =>
        SendHalfKeeps(s, e);
        if SendHalf(s, e).1 {
          ReceiveHalfKeeps(SendHalf(s, e).0, e);
        }
      case OnData(data) => GivenKeeps(s, data);
      case Close => ClosedKeeps(s);
      case Destroy =>
    }
  }

  lemma {:induction false} RunKeeps(s: Socket, steps: seq<Step>)
    requires Inv(s) && IsRun(s, steps)
    ensures Inv(After(s, steps))
    decreases |steps|
  {
    if steps != [] {
      StepKeeps(s, steps[0]);
      RunKeeps(Apply(s, steps[0]), steps[1..]);
    }
  }

  /** In every run of events, callbacks and calls: both byte streams are conserved in order, unsent output
      on a live connection has write interest registered, and loss is reported at most once. */
  lemma BytesAreConserved(fd: int, handler: bool, steps: seq<Step>)
    requires IsRun(Opened(fd, handler), steps)
    ensures var s := After(Opened(fd, handler), steps);
            && s.sent + s.outbuf == s.given && s.consumed + s.inbuf == s.received
            && (Live(s) && s.outbuf != [] ==> s.writable) && (Live(s) ==> s.readable)
            && s.losses <= 1 && (s.closed <==> s.losses == 1)
  {
    RunKeeps(Opened(fd, handler), steps);
  }

  // ----- output drains -----

  /** Events on which the socket takes at least one byte and nothing else happens. */
  predicate Drains(s: Socket, events: seq<Event>)
    decreases |events|
  {
    events == [] ||
    (events[0].onWritable && !events[0].onReadable && events[0].send.Sent? &&
     (s.outbuf != [] ==> 0 < events[0].send.n <= |s.outbuf|) && Drains(Processed(s, events[0]), events[1..]))
  }

  function Drained(s: Socket, events: seq<Event>): Socket
    decreases |events|
  {
    if events == [] then s else Drained(Processed(s, events[0]), events[1..])
  }

  /** However small the parts, as many writable events as there are bytes send everything that was given, and
      then write interest is dropped. */
  lemma {:induction false} OutputDrains(s: Socket, events: seq<Event>)
    requires Conserved(s) && Live(s) && Drains(s, events) && |events| > |s.outbuf|
    ensures var d := Drained(s, events); d.outbuf == [] && d.sent == s.given && d.given == s.given && !d.writable
    decreases |events|
  {
    var next := Processed(s, events[0]);
    if s.outbuf == [] {
      assert next == Idle(s);
    } else {
      var n := events[0].send.n;
      assert next == Idle(Flushed(s, n));
      assert s.outbuf == s.outbuf[..n] + s.outbuf[n..];
      assert (s.sent + s.outbuf[..n]) + s.outbuf[n..] == s.sent + s.outbuf;
    }
    if |events| == 1 {
      assert Drained(s, events) == Drained(next, []);
    } else {
      OutputDrains(next, events[1..]);
    }
  }

  // ----- interest after the end -----

  /** A connection that was lost or closed has no interest registered with the event loop. */
  predicate Quiet(s: Socket) { s.handler && (s.closed || s.detached) ==> !s.readable && !s.writable }

  /** Processing the event finds the connection lost. */
  predicate FindsLoss(s: Socket, e: Event) {
    if e.onWritable && s.outbuf != [] && e.send.SendFailed? then true
    else e.onReadable && (e.receive.ReceiveFailed? || e.receive.EndOfStream?)
  }

  predicate Receives(e: Event) { e.onReadable && e.receive.Received? }

  /** The step registers interest for a connection that has ended: output given after the end, an event processed
      after it, a close from inside the receive callback, or output given last while the loss is reported. */
  predicate Rewatches(s: Socket, step: Step) {
    s.handler &&
    match step
    case OnData(_) => s.fd >= 0 && (s.closed || s.detached)
    case Close => false
    case Destroy => false
    case Process(e) =>
      if FindsLoss(s, e) then !s.closed && s.fd >= 0 && e.callbacks != [] && e.callbacks[|e.callbacks| - 1].Write?
      else if Receives(e) && !e.survives then false
      else s.closed || s.detached || (Receives(e) && CloseConnection in e.callbacks)
  }

  lemma {:induction false} CalledEnds(s: Socket, calls: seq<Callback>)
    ensures var t := Called(s, calls);
            && t.handler == s.handler && t.closed == s.closed && t.fd == s.fd
            && (t.detached <==> s.detached || (s.handler && CloseConnection in calls))
            && (calls != [] && s.handler && s.fd >= 0 ==>
                  t.readable == t.writable == calls[|calls| - 1].Write?)
            && (calls == [] || !s.handler || s.fd < 0 ==> t.readable == s.readable && t.writable == s.writable)
    decreases |calls|
  {
    if calls != [] {
      var next := match calls[0] { case Write(data) => Given(s, data) case CloseConnection => Closed(s) };
      CalledEnds(next, calls[1..]);
      assert CloseConnection in calls <==> calls[0] == CloseConnection || CloseConnection in calls[1..];
    }
  }

  lemma LostIsQuietIff(s: Socket, calls: seq<Callback>)
    requires Quiet(s)
    ensures Quiet(Lost(s, calls)) <==>
            !(s.handler && !s.closed && s.fd >= 0 && calls != [] && calls[|calls| - 1].Write?)
  {
    CalledEnds(Monitor(s.(closed := true), false, false).(losses := s.losses + 1), calls);
  }

  lemma SentKeepsFlags(s: Socket, e: Event)
    requires SendHalf(s, e).1
    ensures var t := SendHalf(s, e).0;
            && t.handler == s.handler && t.fd == s.fd && t.closed == s.closed && t.detached == s.detached
            && t.readable == s.readable && t.writable == s.writable
  {
  }

  lemma ReceivedIsQuietIff(s: Socket, e: Event)
    requires Quiet(s) && !(e.onReadable && (e.receive.ReceiveFailed? || e.receive.EndOfStream?))
    ensures Quiet(ReceiveHalf(s, e)) <==>
            !(s.handler && !(Receives(e) && !e.survives) &&
              (s.closed || s.detached || (Receives(e) && CloseConnection in e.callbacks)))
  {
    if Receives(e) {
      CalledEnds(Accepted(s, e.receive.data), e.callbacks);
    }
  }

  lemma ProcessIsQuietIff(s: Socket, e: Event)
    requires Quiet(s)
    ensures Quiet(Processed(s, e)) <==> !Rewatches(s, Process(e))
  {
    var half := SendHalf(s, e);
    if !half.1 {
      LostIsQuietIff(s, e.callbacks);
    } else {
      SentKeepsFlags(s, e);
      if e.onReadable && (e.receive.ReceiveFailed? || e.receive.EndOfStream?) {
        LostIsQuietIff(half.0, e.callbacks);
      } else {
        ReceivedIsQuietIff(half.0, e);
      }
    }
  }

  /** A socket that could not be opened was reported as detached. */
  predicate Reported(s: Socket) { s.handler && s.fd < 0 ==> s.detached }

  lemma LostKeepsReported(s: Socket, calls: seq<Callback>)
    requires Reported(s)
    ensures Reported(Lost(s, calls))
  {
    CalledEnds(Monitor(s.(closed := true), false, false).(losses := s.losses + 1), calls);
  }

  lemma StepKeepsReported(s: Socket, step: Step)
    requires Reported(s)
    ensures Reported(Apply(s, step))
  {
    if step.Process? {
      var e := step.event;
      var half := SendHalf(s, e);
      LostKeepsReported(s, e.callbacks);
      if half.1 {
        SentKeepsFlags(s, e);
        LostKeepsReported(half.0, e.callbacks);
        if Receives(e) {
          CalledEnds(Accepted(half.0, e.receive.data), e.callbacks);
        }
      }
    }
  }

  /** A step leaves an ended connection without interest exactly when it is none of those. */
  lemma StepIsQuietIff(s: Socket, step: Step)
    requires Quiet(s) && Reported(s)
    ensures Quiet(Apply(s, step)) <==> !Rewatches(s, step)
  {
    if step.Process? {
      ProcessIsQuietIff(s, step.event);
    }
  }

  ghost predicate AlwaysQuiet(s: Socket, steps: seq<Step>)
    decreases |steps|
  {
    Quiet(s) && (steps == [] || AlwaysQuiet(Apply(s, steps[0]), steps[1..]))
  }

  ghost predicate NeverRewatches(s: Socket, steps: seq<Step>)
    decreases |steps|
  {
    steps == [] || (!Rewatches(s, steps[0]) && NeverRewatches(Apply(s, steps[0]), steps[1..]))
  }

  lemma {:induction false} QuietFromIff(s: Socket, steps: seq<Step>)
    requires Quiet(s) && Reported(s)
    ensures AlwaysQuiet(s, steps) <==> NeverRewatches(s, steps)
    decreases |steps|
  {
    if steps != [] {
      StepIsQuietIff(s, steps[0]);
      StepKeepsReported(s, steps[0]);
      if Quiet(Apply(s, steps[0])) {
        QuietFromIff(Apply(s, steps[0]), steps[1..]);
      }
    }
  }

  /** Throughout a run a lost or closed connection has no interest registered exactly when no step of the run
      registers it again. */
  lemma EndedIsQuietIff(fd: int, handler: bool, steps: seq<Step>)
    requires IsRun(Opened(fd, handler), steps)
    ensures AlwaysQuiet(Opened(fd, handler), steps) <==> NeverRewatches(Opened(fd, handler), steps)
  {
    QuietFromIff(Opened(fd, handler), steps);
  }

  /** It can be registered again: closing from inside the receive callback, the event still ends watched. */
  lemma CloseInCallbackIsWatched(fd: nat, data: seq<Byte>)
    ensures var e := Event(false, true, SendAgain, Received(data), [CloseConnection], 0, true);
            var s := After(Opened(fd, true), [Process(e)]);
            IsRun(Opened(fd, true), [Process(e)]) && s.detached && s.readable
  {
    var e := Event(false, true, SendAgain, Received(data), [CloseConnection], 0, true);
    var s := Opened(fd, true);
    assert [Process(e)][1..] == [] && [CloseConnection][1..] == [];
    var called := Called(Accepted(s, data), [CloseConnection]);
    assert called == Called(Closed(Accepted(s, data)), []);
    assert After(s, [Process(e)]) == Processed(s, e);
  }

  // ----- the streams are those of the events -----

  /** The bytes written by the callbacks, in order. */
  function WrittenIn(calls: seq<Callback>): seq<Byte> {
    if calls == [] then [] else (if calls[0].Write? then calls[0].data else []) + WrittenIn(calls[1..])
  }

  predicate SendFails(s: Socket, e: Event) { e.onWritable && s.outbuf != [] && e.send.SendFailed? }

  /** Bytes arrive in the step. */
  predicate Arrives(s: Socket, step: Step) { step.Process? && !SendFails(s, step.event) && Receives(step.event) }

  /** The step runs the callbacks: on arrival, or when it first finds the connection lost. */
  predicate CallsBack(s: Socket, step: Step) {
    Arrives(s, step) || (step.Process? && FindsLoss(s, step.event) && !s.closed)
  }

  function GivenIn(s: Socket, step: Step): seq<Byte> {
    if step.OnData? then step.data else if CallsBack(s, step) then WrittenIn(step.event.callbacks) else []
  }

  function ReceivedIn(s: Socket, step: Step): seq<Byte> {
    if Arrives(s, step) then step.event.receive.data else []
  }

  /** How many bytes the socket took. */
  function SentIn(s: Socket, step: Step): nat {
    if step.Process? && step.event.onWritable && s.outbuf != [] && step.event.send.Sent? then step.event.send.n else 0
  }

  /** How many of the bytes then buffered the parser consumed, if it lived to say. */
  function ConsumedIn(s: Socket, step: Step): nat {
    if !Arrives(s, step) || !step.event.survives then 0
    else
      var buffered := |s.inbuf| + |step.event.receive.data|;
      if step.event.consumed < buffered then step.event.consumed else buffered
  }

  lemma Regroup(a: seq<Byte>, b: seq<Byte>, c: seq<Byte>)
    ensures a + (b + c) == a + b + c && a + ([] + c) == a + c
  {
    assert [] + c == c;
  }

  lemma WrittenFirst(calls: seq<Callback>)
    requires calls != []
    ensures WrittenIn(calls) == (if calls[0].Write? then calls[0].data else []) + WrittenIn(calls[1..])
  {
  }

  ghost predicate CallsGrow(s: Socket, t: Socket, written: seq<Byte>) {
    && t.given == s.given + written && t.outbuf == s.outbuf + written
    && t.received == s.received && t.sent == s.sent && t.consumed == s.consumed && t.inbuf == s.inbuf
  }

  lemma CallsGrowOn(s: Socket, t: Socket, u: Socket, a: seq<Byte>, b: seq<Byte>)
    requires CallsGrow(s, t, a) && CallsGrow(t, u, b)
    ensures CallsGrow(s, u, a + b)
  {
    Regroup(s.given, a, b);
    Regroup(s.outbuf, a, b);
  }

  lemma NothingWritten(s: Socket, t: Socket)
    requires t == s || t == Closed(s)
    ensures CallsGrow(s, t, [])
  {
    assert s.given + [] == s.given && s.outbuf + [] == s.outbuf;
  }

  lemma {:induction false} CalledStreams(s: Socket, calls: seq<Callback>)
    ensures CallsGrow(s, Called(s, calls), WrittenIn(calls))
    decreases |calls|
  {
    if calls == [] {
      NothingWritten(s, s);
    } else {
      WrittenFirst(calls);
      match calls[0] {
        case Write(data) =>
          CalledStreams(Given(s, data), calls[1..]);
          CallsGrowOn(s, Given(s, data), Called(s, calls), data, WrittenIn(calls[1..]));
        case CloseConnection =>
          NothingWritten(s, Closed(s));
          CalledStreams(Closed(s), calls[1..]);
          CallsGrowOn(s, Closed(s), Called(s, calls), [], WrittenIn(calls[1..]));
      }
    }
  }

  ghost predicate Grown(s: Socket, t: Socket, given: seq<Byte>, received: seq<Byte>, sent: nat, consumed: nat) {
    && t.given == s.given + given && t.received == s.received + received
    && |t.sent| == |s.sent| + sent && |t.consumed| == |s.consumed| + consumed
  }

  lemma LostGrows(s: Socket, calls: seq<Callback>)
    ensures Grown(s, Lost(s, calls), if s.closed then [] else WrittenIn(calls), [], 0, 0)
  {
    CalledStreams(Monitor(s.(closed := true), false, false).(losses := s.losses + 1), calls);
    assert s.given + [] == s.given && s.received + [] == s.received;
  }

  lemma SendGrows(s: Socket, e: Event)
    requires Enabled(s, Process(e)) && !SendFails(s, e)
    ensures var half := SendHalf(s, e);
            && half.1 && Grown(s, half.0, [], [], SentIn(s, Process(e)), 0)
            && half.0.inbuf == s.inbuf && half.0.closed == s.closed
  {
    assert s.given + [] == s.given && s.received + [] == s.received;
  }

  lemma NothingGrows(s: Socket)
    ensures Grown(s, Idle(s), [], [], 0, 0)
  {
    assert s.given + [] == s.given && s.received + [] == s.received;
  }

  lemma ArrivalGrows(s: Socket, e: Event)
    requires Receives(e)
    ensures var m := |s.inbuf| + |e.receive.data|;
            Grown(s, ReceiveHalf(s, e), WrittenIn(e.callbacks), e.receive.data, 0,
                  if !e.survives then 0 else if e.consumed < m then e.consumed else m)
  {
    CalledStreams(Accepted(s, e.receive.data), e.callbacks);
  }

  lemma ReceiveGrows(s: Socket, e: Event)
    ensures var t := ReceiveHalf(s, e);
            if !e.onReadable || e.receive.ReceiveAgain? then Grown(s, t, [], [], 0, 0)
            else if e.receive.Received? then
              var m := |s.inbuf| + |e.receive.data|;
              Grown(s, t, WrittenIn(e.callbacks), e.receive.data, 0,
                    if !e.survives then 0 else if e.consumed < m then e.consumed else m)
            else Grown(s, t, if s.closed then [] else WrittenIn(e.callbacks), [], 0, 0)
  {
    if !e.onReadable || e.receive.ReceiveAgain? {
      NothingGrows(s);
    } else if e.receive.Received? {
      ArrivalGrows(s, e);
    } else {
      LostGrows(s, e.callbacks);
    }
  }

  lemma GrownTwice(s: Socket, t: Socket, u: Socket, given: seq<Byte>, received: seq<Byte>, sent: nat, consumed: nat)
    requires Grown(s, t, [], [], sent, 0) && Grown(t, u, given, received, 0, consumed)
    ensures Grown(s, u, given, received, sent, consumed)
  {
    assert s.given + [] == s.given && s.received + [] == s.received;
  }

  /** Each step adds to the four streams what it was given, what arrived, and what the socket and the parser took. */
  lemma StreamsGrow(s: Socket, step: Step)
    requires Enabled(s, step)
    ensures Grown(s, Apply(s, step), GivenIn(s, step), ReceivedIn(s, step), SentIn(s, step), ConsumedIn(s, step))
  {
    assert s.given + [] == s.given && s.received + [] == s.received;
    if step.Process? {
      var e := step.event;
      if SendFails(s, e) {
        LostGrows(s, e.callbacks);
      } else {
        SendGrows(s, e);
        var half := SendHalf(s, e).0;
        ReceiveGrows(half, e);
        GrownTwice(s, half, ReceiveHalf(half, e), GivenIn(s, step), ReceivedIn(s, step), SentIn(s, step), ConsumedIn(s, step));
      }
    }
  }

  ghost function AllGiven(s: Socket, steps: seq<Step>): seq<Byte>
    decreases |steps|
  {
    if steps == [] then [] else GivenIn(s, steps[0]) + AllGiven(Apply(s, steps[0]), steps[1..])
  }

  ghost function AllReceived(s: Socket, steps: seq<Step>): seq<Byte>
    decreases |steps|
  {
    if steps == [] then [] else ReceivedIn(s, steps[0]) + AllReceived(Apply(s, steps[0]), steps[1..])
  }

  ghost function AllSent(s: Socket, steps: seq<Step>): nat
    decreases |steps|
  {
    if steps == [] then 0 else SentIn(s, steps[0]) + AllSent(Apply(s, steps[0]), steps[1..])
  }

  ghost function AllConsumed(s: Socket, steps: seq<Step>): nat
    decreases |steps|
  {
    if steps == [] then 0 else ConsumedIn(s, steps[0]) + AllConsumed(Apply(s, steps[0]), steps[1..])
  }

  lemma GrownOn(s: Socket, t: Socket, u: Socket, given: seq<Byte>, received: seq<Byte>, sent: nat, consumed: nat,
                given': seq<Byte>, received': seq<Byte>, sent': nat, consumed': nat)
    requires Grown(s, t, given, received, sent, consumed) && Grown(t, u, given', received', sent', consumed')
    ensures Grown(s, u, given + given', received + received', sent + sent', consumed + consumed')
  {
    Regroup(s.given, given, given');
    Regroup(s.received, received, received');
  }

  lemma {:induction false} StreamsGrowOver(s: Socket, steps: seq<Step>)
    requires IsRun(s, steps)
    ensures Grown(s, After(s, steps), AllGiven(s, steps), AllReceived(s, steps), AllSent(s, steps), AllConsumed(s, steps))
    decreases |steps|
  {
    if steps == [] {
      assert s.given + [] == s.given && s.received + [] == s.received;
    } else {
      var t, rest := Apply(s, steps[0]), steps[1..];
      StreamsGrow(s, steps[0]);
      StreamsGrowOver(t, rest);
      GrownOn(s, t, After(t, rest), GivenIn(s, steps[0]), ReceivedIn(s, steps[0]), SentIn(s, steps[0]), ConsumedIn(s, steps[0]),
              AllGiven(t, rest), AllReceived(t, rest), AllSent(t, rest), AllConsumed(t, rest));
    }
  }

  lemma PrefixAndRest(a: seq<Byte>, b: seq<Byte>, whole: seq<Byte>)
    requires a + b == whole
    ensures a == whole[..|a|] && b == whole[|a|..]
  {
  }

  /** In every run: of all bytes given to the connection, as many as the socket took are sent and the others still
      buffered; of all bytes that arrived, as many as the parser consumed are gone and the others still buffered. */
  lemma StreamsAreWhole(fd: int, handler: bool, steps: seq<Step>)
    requires IsRun(Opened(fd, handler), steps)
    ensures var s, o := After(Opened(fd, handler), steps), Opened(fd, handler);
            var n, m := AllSent(o, steps), AllConsumed(o, steps);
            && n <= |AllGiven(o, steps)| && s.sent == AllGiven(o, steps)[..n] && s.outbuf == AllGiven(o, steps)[n..]
            && m <= |AllReceived(o, steps)| && s.consumed == AllReceived(o, steps)[..m] && s.inbuf == AllReceived(o, steps)[m..]
  {
    var o := Opened(fd, handler);
    var s := After(o, steps);
    BytesAreConserved(fd, handler, steps);
    StreamsGrowOver(o, steps);
    assert s.given == AllGiven(o, steps) && s.received == AllReceived(o, steps);
    PrefixAndRest(s.sent, s.outbuf, s.given);
    PrefixAndRest(s.consumed, s.inbuf, s.received);
  }

  lemma LostCloses(s: Socket, calls: seq<Callback>)
    ensures Lost(s, calls).closed
  {
    CalledEnds(Monitor(s.(closed := true), false, false).(losses := s.losses + 1), calls);
  }

  lemma ReceiveCloses(s: Socket, e: Event)
    ensures ReceiveHalf(s, e).closed <==> s.closed || (e.onReadable && (e.receive.ReceiveFailed? || e.receive.EndOfStream?))
  {
    LostCloses(s, e.callbacks);
    if Receives(e) {
      CalledEnds(Accepted(s, e.receive.data), e.callbacks);
    }
  }

  /** A connection is marked lost by exactly the steps that find it so: a failed send, a failed receive or the end of
      the stream. */
  lemma LossIsNoticedIff(s: Socket, step: Step)
    ensures Apply(s, step).closed <==> s.closed || (step.Process? && FindsLoss(s, step.event))
  {
    if step.Process? {
      var half := SendHalf(s, step.event);
      LostCloses(s, step.event.callbacks);
      if half.1 {
        SentKeepsFlags(s, step.event);
        ReceiveCloses(half.0, step.event);
      }
    }
  }

  /** The connection is destroyed exactly by its user or from inside the receive callback, and then no interest of
      its socket is left with the event loop. */
  lemma DestructionIs(s: Socket, step: Step)
    requires Enabled(s, step)
    ensures Apply(s, step).destroyed <==> step.Destroy? || (Arrives(s, step) && !step.event.survives)
    ensures Apply(s, step).destroyed && s.handler && s.fd >= 0 ==>
              !Apply(s, step).readable && !Apply(s, step).writable && !Apply(s, step).handler
  {
    if step.Process? {
      ProcessDestroys(s, step.event);
    }
  }

  lemma {:induction false} CalledLives(s: Socket, calls: seq<Callback>)
    ensures Called(s, calls).destroyed == s.destroyed
    decreases |calls|
  {
    if calls != [] {
      match calls[0] {
        case Write(data) => CalledLives(Given(s, data), calls[1..]);
        case CloseConnection => CalledLives(Closed(s), calls[1..]);
      }
    }
  }

  lemma LostLives(s: Socket, calls: seq<Callback>)
    ensures Lost(s, calls).destroyed == s.destroyed
  {
    CalledLives(Monitor(s.(closed := true), false, false).(losses := s.losses + 1), calls);
  }

  lemma ProcessDestroys(s: Socket, e: Event)
    requires Enabled(s, Process(e))
    ensures var t := Processed(s, e);
            && (t.destroyed <==> Arrives(s, Process(e)) && !e.survives)
            && (t.destroyed && s.handler && s.fd >= 0 ==> !t.readable && !t.writable && !t.handler)
  {
    var half := SendHalf(s, e);
    LostLives(s, e.callbacks);
    if half.1 {
      SentKeepsFlags(s, e);
      LostLives(half.0, e.callbacks);
      if Receives(e) {
        CalledLives(Accepted(half.0, e.receive.data), e.callbacks);
        CalledEnds(Accepted(half.0, e.receive.data), e.callbacks);
      }
    }
  }
}
