/** How the sandbox reads a command's output: a bounded sink for the response body, the parser of
    Docker's multiplexed stream, and the split into stdout and stderr. */
module MuxStream {
  import opened Basics

  datatype Frame = Frame(kind: Byte, payload: seq<Byte>)

  // ----- the parser -----

  function Shifted(size: nat, b: Byte): nat { size * 256 + b }

  /** The big-endian size at bytes 4 to 7 of a header. */
  function Announced(data: seq<Byte>): nat
    requires |data| >= 8
  {
    Shifted(Shifted(Shifted(data[4], data[5]), data[6]), data[7])
  }

  /** A complete frame stands at the front. */
  predicate Whole(data: seq<Byte>) { |data| >= 8 && 8 + Announced(data) <= |data| }

  function FirstFrame(data: seq<Byte>): Frame
    requires Whole(data)
  {
    Frame(data[0], data[8..8 + Announced(data)])
  }

  function Rest(data: seq<Byte>): seq<Byte>
    requires Whole(data)
  {
    data[8 + Announced(data)..]
  }

  function Parse(data: seq<Byte>): seq<Frame> {
    if Whole(data) then [FirstFrame(data)] + Parse(Rest(data)) else []
  }

  /** The inner loop over the four size bytes, in 32-bit unsigned arithmetic. */
  method ReadSize(data: seq<Byte>, pos: nat) returns (size: nat)
    requires pos + 8 <= |data|
    ensures size == Announced(data[pos..])
  {
    size := 0;
    var i := 0;
    while i < 4
      invariant 0 <= i <= 4
      invariant i == 0 ==> size == 0
      invariant i == 1 ==> size == data[pos + 4]
      invariant i == 2 ==> size == Shifted(data[pos + 4], data[pos + 5])
      invariant i == 3 ==> size == Shifted(Shifted(data[pos + 4], data[pos + 5]), data[pos + 6])
      invariant i == 4 ==> size == Announced(data[pos..])
    {
      size := Shifted(size, data[pos + 4 + i]) % 0x1_0000_0000;
      i := i + 1;
    }
  }

  lemma Incomplete(data: seq<Byte>, pos: nat)
    requires pos <= |data| && (pos + 8 <= |data| ==> pos + 8 + Announced(data[pos..]) > |data|)
    ensures Parse(data[pos..]) == []
  {
  }

  lemma ShortRest(data: seq<Byte>, pos: nat)
    requires pos <= |data| < pos + 8
    ensures Parse(data[pos..]) == []
  {
  }

  /** One turn of the loop: the frame at pos is appended if it is whole. */
  method TakeFrame(data: seq<Byte>, pos: nat, frames: seq<Frame>) returns (whole: bool, more: seq<Frame>, next: nat)
    requires pos + 8 <= |data|
    ensures whole ==> pos < next <= |data| && more + Parse(data[next..]) == frames + Parse(data[pos..])
    ensures !whole ==> Parse(data[pos..]) == [] && more == frames && next == pos
  {
    var size := ReadSize(data, pos);
    if pos + 8 + size > |data| {
      Incomplete(data, pos);
      return false, frames, pos;
    }
    NextFrame(data, pos, size, frames);
    return true, frames + [Frame(data[pos], data[pos + 8..pos + 8 + size])], pos + 8 + size;
  }

  method ParseMuxStream(data: seq<Byte>) returns (frames: seq<Frame>)
    ensures frames == Parse(data)
  {
    frames := [];
    var pos := 0;
    assert data[0..] == data;
    while pos + 8 <= |data|
      invariant 0 <= pos <= |data|
      invariant frames + Parse(data[pos..]) == Parse(data)
      decreases |data| - pos
    {
      var whole, more, next := TakeFrame(data, pos, frames);
      if !whole {
        break;
      }
      frames, pos := more, next;
    }
    if pos + 8 > |data| {
      ShortRest(data, pos);
    }
  }

  lemma FrameAt(data: seq<Byte>, pos: nat)
    requires pos <= |data| && Whole(data[pos..])
    ensures var size := Announced(data[pos..]);
            && FirstFrame(data[pos..]) == Frame(data[pos], data[pos + 8..pos + 8 + size])
            && Rest(data[pos..]) == data[pos + 8 + size..]
  {
  }

  lemma NextFrame(data: seq<Byte>, pos: nat, size: nat, frames: seq<Frame>)
    requires pos + 8 + size <= |data| && size == Announced(data[pos..])
    ensures frames + Parse(data[pos..])
         == (frames + [Frame(data[pos], data[pos + 8..pos + 8 + size])]) + Parse(data[pos + 8 + size..])
  {
    FrameAt(data, pos);
    var f, rest := FirstFrame(data[pos..]), Parse(Rest(data[pos..]));
    assert frames + ([f] + rest) == (frames + [f]) + rest;
  }

  // ----- the format -----

  /** What the Docker daemon sends: a stream number, three reserved bytes, a size and the payload. */
  datatype Packet = Packet(kind: Byte, reserved: seq<Byte>, payload: seq<Byte>)

  predicate Sendable(p: Packet) { |p.reserved| == 3 && |p.payload| < 0x1_0000_0000 }

  function SizeBytes(n: nat): seq<Byte>
    requires n < 0x1_0000_0000
  {
    [n / 0x100_0000, n / 0x1_0000 % 256, n / 256 % 256, n % 256]
  }

  function Print(p: Packet): seq<Byte>
    requires Sendable(p)
  {
    [p.kind] + p.reserved + SizeBytes(|p.payload|) + p.payload
  }

  predicate AllSendable(ps: seq<Packet>) { forall i :: 0 <= i < |ps| ==> Sendable(ps[i]) }

  function PrintAll(ps: seq<Packet>): seq<Byte>
    requires AllSendable(ps)
  {
    if ps == [] then [] else Print(ps[0]) + PrintAll(ps[1..])
  }

  function Frames(ps: seq<Packet>): seq<Frame> {
    if ps == [] then [] else [Frame(ps[0].kind, ps[0].payload)] + Frames(ps[1..])
  }

  /** The header: the stream number first, three bytes nobody reads, and the size with its highest byte first. */
  lemma HeaderLayout(data: seq<Byte>)
    requires Whole(data)
    ensures var a: int, b: int, c: int, d: int := data[4], data[5], data[6], data[7];
            |FirstFrame(data).payload| == a * 0x100_0000 + b * 0x1_0000 + c * 0x100 + d
    ensures FirstFrame(data).kind == data[0] && data == data[..8] + FirstFrame(data).payload + Rest(data)
  {
  }

  lemma SizeDigits(n: nat)
    requires n < 0x1_0000_0000
    ensures ((n / 0x100_0000 * 256 + n / 0x1_0000 % 256) * 256 + n / 256 % 256) * 256 + n % 256 == n
  {
    assert n / 0x1_0000 == n / 256 / 256;
    assert n / 0x100_0000 == n / 0x1_0000 / 256;
  }

  lemma HeadOfPrint(p: Packet, more: seq<Byte>)
    requires Sendable(p)
    ensures Whole(Print(p) + more) && Announced(Print(p) + more) == |p.payload|
    ensures FirstFrame(Print(p) + more) == Frame(p.kind, p.payload) && Rest(Print(p) + more) == more
  {
    var data, n := Print(p) + more, |p.payload|;
    var digits := SizeBytes(n);
    assert forall k :: 0 <= k < 4 ==> data[4 + k] == digits[k];
    assert data[4] == digits[0] && data[5] == digits[1] && data[6] == digits[2] && data[7] == digits[3];
    SizeDigits(n);
    assert data[8..8 + n] == p.payload;
    assert data[8 + n..] == more;
  }

  lemma LeftNested(a: seq<Byte>, b: seq<Byte>, c: seq<Byte>)
    ensures (a + b) + c == a + (b + c)
  {
  }

  /** Whatever the reserved bytes are, parsing gives back what was sent; an unfinished frame at the end is
      left out. */
  lemma {:induction false} ParseOfPrinted(ps: seq<Packet>, tail: seq<Byte>)
    requires AllSendable(ps) && !Whole(tail)
    ensures Parse(PrintAll(ps) + tail) == Frames(ps)
  {
    if ps == [] {
      assert PrintAll(ps) + tail == tail;
    } else {
      LeftNested(Print(ps[0]), PrintAll(ps[1..]), tail);
      HeadOfPrint(ps[0], PrintAll(ps[1..]) + tail);
      ParseOfPrinted(ps[1..], tail);
    }
  }

  lemma LastDigit(q: nat, d: Byte)
    ensures Shifted(q, d) / 256 == q && Shifted(q, d) % 256 == d
  {
  }

  lemma SizeIsDigits(a: Byte, b: Byte, c: Byte, d: Byte)
    ensures Shifted(Shifted(Shifted(a, b), c), d) < 0x1_0000_0000
    ensures SizeBytes(Shifted(Shifted(Shifted(a, b), c), d)) == [a, b, c, d]
  {
    var n := Shifted(Shifted(Shifted(a, b), c), d);
    LastDigit(Shifted(Shifted(a, b), c), d);
    LastDigit(Shifted(a, b), c);
    LastDigit(a, b);
    assert n / 0x1_0000 == n / 256 / 256;
    assert n / 0x100_0000 == n / 0x1_0000 / 256;
  }

  lemma CutUp(data: seq<Byte>, n: nat)
    requires 8 + n <= |data|
    ensures data == [data[0]] + data[1..4] + [data[4], data[5], data[6], data[7]] + data[8..8 + n] + data[8 + n..]
  {
  }

  lemma PrintOfHead(data: seq<Byte>) returns (p: Packet)
    requires Whole(data)
    ensures Sendable(p) && data == Print(p) + Rest(data) && FirstFrame(data) == Frame(p.kind, p.payload)
  {
    var n := Announced(data);
    p := Packet(data[0], data[1..4], data[8..8 + n]);
    SizeIsDigits(data[4], data[5], data[6], data[7]);
    CutUp(data, n);
  }

  /** Conversely every byte string is a run of printed packets and an unfinished tail: what the parser
      returns is all there is. */
  lemma {:induction false} EveryStreamDecomposes(data: seq<Byte>) returns (ps: seq<Packet>, tail: seq<Byte>)
    ensures AllSendable(ps) && !Whole(tail)
    ensures data == PrintAll(ps) + tail && Parse(data) == Frames(ps)
  {
    if Whole(data) {
      var p := PrintOfHead(data);
      var rest: seq<Packet>;
      rest, tail := EveryStreamDecomposes(Rest(data));
      ps := [p] + rest;
      assert ps[1..] == rest;
      LeftNested(Print(p), PrintAll(rest), tail);
    } else {
      ps, tail := [], data;
    }
  }

  // ----- truncation -----

  lemma FrameOfPrefix(data: seq<Byte>, n: nat)
    requires n <= |data| && Whole(data[..n])
    ensures Whole(data) && FirstFrame(data[..n]) == FirstFrame(data)
    ensures 8 + Announced(data) <= n && Rest(data[..n]) == Rest(data)[..n - 8 - Announced(data)]
  {
    assert Announced(data[..n]) == Announced(data);
  }

  /** Cutting the bytes short only cuts frames off the end. */
  lemma {:induction false} ParseOfPrefix(data: seq<Byte>, n: nat)
    requires n <= |data|
    ensures Parse(data[..n]) <= Parse(data)
    decreases n
  {
    if Whole(data[..n]) {
      FrameOfPrefix(data, n);
      ParseOfPrefix(Rest(data), n - 8 - Announced(data));
    }
  }

  lemma PrintLength(p: Packet)
    requires Sendable(p)
    ensures |Print(p)| == 8 + |p.payload|
  {
  }

  lemma CutInsidePacket(p: Packet, more: seq<Byte>, n: nat)
    requires Sendable(p) && n < |Print(p)|
    ensures !Whole((Print(p) + more)[..n])
  {
    HeadOfPrint(p, more);
    PrintLength(p);
    var data := (Print(p) + more)[..n];
    if n >= 8 {
      assert Announced(data) == Announced(Print(p) + more);
    }
  }

  lemma CutBehindPacket(p: Packet, rest: seq<Byte>, n: nat, frames: seq<Frame>)
    requires Sendable(p) && |Print(p)| <= n <= |Print(p) + rest| && Parse(rest[..n - |Print(p)|]) == frames
    ensures Parse((Print(p) + rest)[..n]) == [Frame(p.kind, p.payload)] + frames
  {
    var m := n - |Print(p)|;
    assert (Print(p) + rest)[..n] == Print(p) + rest[..m];
    HeadOfPrint(p, rest[..m]);
  }

  lemma FirstOfTaken(ps: seq<Packet>, j: nat)
    requires AllSendable(ps) && j < |ps|
    ensures ps[..j + 1][1..] == ps[1..][..j]
    ensures Frames(ps[..j + 1]) == [Frame(ps[0].kind, ps[0].payload)] + Frames(ps[1..][..j])
    ensures |PrintAll(ps[..j + 1])| == |Print(ps[0])| + |PrintAll(ps[1..][..j])|
  {
    assert ps[..j + 1][1..] == ps[1..][..j];
  }

  lemma NoneFits(ps: seq<Packet>, n: nat)
    requires AllSendable(ps) && ps != [] && n < |Print(ps[0])|
    ensures n <= |PrintAll(ps)| && Parse(PrintAll(ps)[..n]) == Frames(ps[..0])
    ensures |PrintAll(ps[..0])| == 0 && n < |PrintAll(ps[..1])|
  {
    CutInsidePacket(ps[0], PrintAll(ps[1..]), n);
    FirstOfTaken(ps, 0);
  }

  lemma OneMoreFits(ps: seq<Packet>, n: nat, j: nat)
    requires AllSendable(ps) && ps != [] && |Print(ps[0])| <= n <= |PrintAll(ps)| && j < |ps|
    requires var rest, m := ps[1..], n - |Print(ps[0])|;
             && Parse(PrintAll(rest)[..m]) == Frames(rest[..j]) && |PrintAll(rest[..j])| <= m
             && (j < |rest| ==> m < |PrintAll(rest[..j + 1])|)
    ensures Parse(PrintAll(ps)[..n]) == Frames(ps[..j + 1])
    ensures |PrintAll(ps[..j + 1])| <= n && (j + 1 < |ps| ==> n < |PrintAll(ps[..j + 2])|)
  {
    CutBehindPacket(ps[0], PrintAll(ps[1..]), n, Frames(ps[1..][..j]));
    FirstOfTaken(ps, j);
    if j + 1 < |ps| {
      FirstOfTaken(ps, j + 1);
    }
  }

  /** Of a stream cut after n bytes exactly the frames that end within them are read. */
  lemma {:induction false} TruncationKeepsWholeFrames(ps: seq<Packet>, n: nat) returns (k: nat)
    requires AllSendable(ps) && n <= |PrintAll(ps)|
    ensures k <= |ps| && Parse(PrintAll(ps)[..n]) == Frames(ps[..k])
    ensures |PrintAll(ps[..k])| <= n && (k < |ps| ==> n < |PrintAll(ps[..k + 1])|)
  {
    if ps == [] {
      k := 0;
    } else if n < |Print(ps[0])| {
      k := 0;
      NoneFits(ps, n);
    } else {
      var j := TruncationKeepsWholeFrames(ps[1..], n - |Print(ps[0])|);
      OneMoreFits(ps, n, j);
      k := j + 1;
    }
  }

  // ----- stdout and stderr -----

  /** The payloads of one stream, in order. */
  function Output(kind: Byte, frames: seq<Frame>): seq<Byte> {
    if frames == [] then []
    else (if frames[0].kind == kind then frames[0].payload else []) + Output(kind, frames[1..])
  }

  lemma {:induction false} OutputAppend(kind: Byte, a: seq<Frame>, b: seq<Frame>)
    ensures Output(kind, a + b) == Output(kind, a) + Output(kind, b)
  {
    if a == [] {
      assert a + b == b;
    } else {
      assert (a + b)[1..] == a[1..] + b;
      OutputAppend(kind, a[1..], b);
    }
  }

  lemma OutputOfPrefix(kind: Byte, a: seq<Frame>, b: seq<Frame>)
    requires a <= b
    ensures Output(kind, a) <= Output(kind, b)
  {
    assert b == a + b[|a|..];
    OutputAppend(kind, a, b[|a|..]);
  }

  /** A frame's payload is part of its own stream's output, at its place, and of no other's. */
  lemma OutputTakesOwnFrames(k: Byte, a: seq<Frame>, j: Byte, p: seq<Byte>, b: seq<Frame>)
    ensures Output(k, a + [Frame(j, p)] + b) ==
            if j == k then Output(k, a) + p + Output(k, b) else Output(k, a + b)
  {
    OutputAppend(k, a + [Frame(j, p)], b);
    OutputAppend(k, a, [Frame(j, p)]);
    OutputAppend(k, a, b);
    assert [Frame(j, p)][1..] == [];
  }

  method SplitStreams(frames: seq<Frame>) returns (out: seq<Byte>, err: seq<Byte>)
    ensures out == Output(1, frames) && err == Output(2, frames)
  {
    out, err := [], [];
    var i := 0;
    while i < |frames|
      invariant 0 <= i <= |frames|
      invariant out + Output(1, frames[i..]) == Output(1, frames)
      invariant err + Output(2, frames[i..]) == Output(2, frames)
    {
      assert frames[i..][1..] == frames[i + 1..];
      if frames[i].kind == 1 {
        out := out + frames[i].payload;
      } else if frames[i].kind == 2 {
        err := err + frames[i].payload;
      }
      i := i + 1;
    }
  }

  // ----- the bounded sink -----

  function Min(a: nat, b: nat): nat { if a < b then a else b }

  function Clip(data: seq<Byte>, limit: nat): seq<Byte> { if |data| <= limit then data else data[..limit] }

  function Flatten(chunks: seq<seq<Byte>>): seq<Byte> {
    if chunks == [] then [] else Flatten(chunks[..|chunks| - 1]) + chunks[|chunks| - 1]
  }

  lemma {:induction false} FlattenPrefix(chunks: seq<seq<Byte>>, i: nat)
    requires i <= |chunks|
    ensures Flatten(chunks[..i]) <= Flatten(chunks)
  {
    if i == |chunks| {
      assert chunks[..i] == chunks;
    } else {
      assert chunks[..|chunks| - 1][..i] == chunks[..i];
      FlattenPrefix(chunks[..|chunks| - 1], i);
    }
  }

  class CurlOutput {
    var data: seq<Byte>
    const limit: nat
    var limited: bool

    constructor (limit: nat)
      ensures data == [] && this.limit == limit && !limited
    {
      this.data, this.limit, this.limited := [], limit, false;
    }

    /** The write callback: returning less than it was given makes libcurl abort the transfer. */
    method Write(chunk: seq<Byte>) returns (taken: nat)
      modifies this
      ensures |old(data) + chunk| <= limit ==>
                data == old(data) + chunk && limited == old(limited) && taken == |chunk|
      ensures |old(data) + chunk| > limit ==>
                limited && taken == 0
                && data == if |old(data)| <= limit then (old(data) + chunk)[..limit] else old(data)
    {
      if |data| + |chunk| > limit {
        var remaining := if limit > |data| then limit - |data| else 0;
        data := data + chunk[..remaining];
        limited := true;
        return 0;
      }
      data := data + chunk;
      return |chunk|;
    }

    /** A transfer of the body in chunks, up to the first that is not taken whole. However the body is cut
        into chunks, its first limit bytes arrive, and the flag says whether there was more. */
    method Transfer(chunks: seq<seq<Byte>>)
      requires data == [] && !limited
      modifies this
      ensures data == Clip(Flatten(chunks), limit) && |data| == Min(|Flatten(chunks)|, limit) && data <= Flatten(chunks)
      ensures limited <==> |Flatten(chunks)| > limit
    {
      var i := 0;
      while i < |chunks|
        invariant 0 <= i <= |chunks|
        invariant data == Flatten(chunks[..i]) && |data| <= limit && !limited
      {
        var taken := Write(chunks[i]);
        assert chunks[..i + 1][..i] == chunks[..i];
        if taken != |chunks[i]| {
          FlattenPrefix(chunks, i + 1);
          return;
        }
        i := i + 1;
      }
      assert chunks[..i] == chunks;
    }
  }

  /** The payloads of the packets of one kind, in the order they were sent. */
  function PayloadsOf(kind: Byte, ps: seq<Packet>): seq<Byte> {
    if ps == [] then []
    else
      var n := |ps| - 1;
      PayloadsOf(kind, ps[..n]) + if ps[n].kind == kind then ps[n].payload else []
  }

  lemma {:induction false} FramesSnoc(ps: seq<Packet>, p: Packet)
    ensures Frames(ps + [p]) == Frames(ps) + [Frame(p.kind, p.payload)]
  {
    if ps == [] {
      assert ps + [p] == [p] && [p][1..] == [];
    } else {
      assert (ps + [p])[1..] == ps[1..] + [p];
      FramesSnoc(ps[1..], p);
    }
  }

  lemma {:induction false} OutputIsPayloads(kind: Byte, ps: seq<Packet>)
    ensures Output(kind, Frames(ps)) == PayloadsOf(kind, ps)
  {
    if ps != [] {
      var n := |ps| - 1;
      assert ps == ps[..n] + [ps[n]];
      FramesSnoc(ps[..n], ps[n]);
      OutputTakesOwnFrames(kind, Frames(ps[..n]), ps[n].kind, ps[n].payload, []);
      assert Frames(ps[..n]) + [Frame(ps[n].kind, ps[n].payload)] + [] == Frames(ps);
      assert Frames(ps[..n]) + [] == Frames(ps[..n]);
      OutputIsPayloads(kind, ps[..n]);
    }
  }

  /** The body that arrives for the packets sent and what was left of a last one. */
  ghost predicate Carries(chunks: seq<seq<Byte>>, ps: seq<Packet>, tail: seq<Byte>) {
    AllSendable(ps) && !Whole(tail) && Flatten(chunks) == PrintAll(ps) + tail
  }

  /** The output of a command. Hitting the limit costs only the end of each stream; below it both streams
      are complete. */
  method ExecOutput(chunks: seq<seq<Byte>>, limit: nat) returns (out: seq<Byte>, err: seq<Byte>, limited: bool)
    ensures limited <==> |Flatten(chunks)| > limit
    ensures out == Output(1, Parse(Clip(Flatten(chunks), limit))) && err == Output(2, Parse(Clip(Flatten(chunks), limit)))
    ensures out <= Output(1, Parse(Flatten(chunks))) && err <= Output(2, Parse(Flatten(chunks)))
    ensures !limited ==> out == Output(1, Parse(Flatten(chunks))) && err == Output(2, Parse(Flatten(chunks)))
    ensures forall ps, tail :: Carries(chunks, ps, tail) ==>
              out <= PayloadsOf(1, ps) && err <= PayloadsOf(2, ps) &&
              (!limited ==> out == PayloadsOf(1, ps) && err == PayloadsOf(2, ps))
  {
    var sink := new CurlOutput(limit);
    sink.Transfer(chunks);
    limited := sink.limited;
    var frames := ParseMuxStream(sink.data);
    out, err := SplitStreams(frames);
    var body := Flatten(chunks);
    ParseOfPrefix(body, |sink.data|);
    assert body[..|sink.data|] == sink.data;
    OutputOfPrefix(1, frames, Parse(body));
    OutputOfPrefix(2, frames, Parse(body));
    forall ps, tail | Carries(chunks, ps, tail)
      ensures Output(1, Parse(body)) == PayloadsOf(1, ps) && Output(2, Parse(body)) == PayloadsOf(2, ps)
    {
      ParseOfPrinted(ps, tail);
      OutputIsPayloads(1, ps);
      OutputIsPayloads(2, ps);
    }
  }
}
