/** The sandbox's Base64 encoder with its 32-bit accumulator, against section 4 of RFC 4648. */
module Base64 {
  import opened Basics

  type Sextet = x: int | 0 <= x < 64

  /** One position of the encoded text: six bits, or padding. */
  datatype Code = Six(v: Sextet) | Padding

  // ----- regrouping bytes into sextets, as the standard gives it -----

  function First(a: Byte): Code { Six(a / 4) }
  function Second(a: Byte, b: Byte): Code { Six(a % 4 * 16 + b / 16) }
  function Third(b: Byte, c: Byte): Code { Six(b % 16 * 4 + c / 64) }
  function Fourth(c: Byte): Code { Six(c % 64) }

  function Quad(a: Byte, b: Byte, c: Byte): seq<Code> { [First(a), Second(a, b), Third(b, c), Fourth(c)] }

  /** 24-bit groups become four codes; a final group of 8 or 16 bits is zero-extended and padded. */
  function Group(s: seq<Byte>): seq<Code> {
    if |s| == 0 then []
    else if |s| == 1 then [First(s[0]), Second(s[0], 0), Padding, Padding]
    else if |s| == 2 then [First(s[0]), Second(s[0], s[1]), Third(s[1], 0), Padding]
    else Quad(s[0], s[1], s[2]) + Group(s[3..])
  }

  function Join(p: Sextet, q: Sextet, r: Sextet, t: Sextet): seq<Byte> {
    [p * 4 + q / 16, q % 16 * 16 + r / 4, r % 4 * 64 + t]
  }

  /** The decoder: padding may only stand at the end of the last group. */
  function Ungroup(t: seq<Code>): Option<seq<Byte>> {
    if |t| == 0 then Some([])
    else if |t| < 4 || t[0].Padding? || t[1].Padding? then None
    else if |t| == 4 && t[3].Padding? then
      if t[2].Padding? then Some(Join(t[0].v, t[1].v, 0, 0)[..1]) else Some(Join(t[0].v, t[1].v, t[2].v, 0)[..2])
    else if t[2].Padding? || t[3].Padding? then None
    else
      var rest := Ungroup(t[4..]);
      if rest.None? then None else Some(Join(t[0].v, t[1].v, t[2].v, t[3].v) + rest.value)
  }

  lemma JoinOfSplit(a: Byte, b: Byte, c: Byte)
    ensures Join(First(a).v, Second(a, b).v, Third(b, c).v, Fourth(c).v) == [a, b, c]
  {
  }

  lemma {:induction false} UngroupOfGroup(s: seq<Byte>)
    ensures Ungroup(Group(s)) == Some(s)
  {
    if |s| == 1 {
      JoinOfSplit(s[0], 0, 0);
      assert [s[0], 0, 0][..1] == s;
    } else if |s| == 2 {
      JoinOfSplit(s[0], s[1], 0);
      assert [s[0], s[1], 0][..2] == s;
    } else if |s| > 2 {
      JoinOfSplit(s[0], s[1], s[2]);
      UngroupOfGroup(s[3..]);
      assert Group(s)[4..] == Group(s[3..]);
      assert s == [s[0], s[1], s[2]] + s[3..];
    }
  }

  lemma {:induction false} GroupLength(s: seq<Byte>)
    ensures |Group(s)| == (|s| + 2) / 3 * 4
  {
    if |s| > 2 {
      GroupLength(s[3..]);
    }
  }

  // ----- the alphabet -----

  const UPPER := "ABCDEFGHIJKLMNOPQRSTUVWXYZ"
  const LOWER := "abcdefghijklmnopqrstuvwxyz"
  const DIGITS := "0123456789"
  const TABLE := UPPER + LOWER + DIGITS + "+/"

  /** Table 1 of RFC 4648. */
  function Glyph(c: Code): char {
    match c
    case Padding => '='
    case Six(v) =>
      if v < 26 then ('A' as int + v) as char
      else if v < 52 then ('a' as int + v - 26) as char
      else if v < 62 then ('0' as int + v - 52) as char
      else if v == 62 then '+' else '/'
  }

  function Meaning(c: char): Option<Code> {
    if 'A' <= c <= 'Z' then Some(Six(c as int - 'A' as int))
    else if 'a' <= c <= 'z' then Some(Six(c as int - 'a' as int + 26))
    else if '0' <= c <= '9' then Some(Six(c as int - '0' as int + 52))
    else if c == '+' then Some(Six(62))
    else if c == '/' then Some(Six(63))
    else if c == '=' then Some(Padding)
    else None
  }

  lemma MeaningOfGlyph(c: Code)
    ensures Meaning(Glyph(c)) == Some(c)
  {
  }

  lemma UpperAt(k: nat)
    requires k < 26
    ensures UPPER[k] as int == 'A' as int + k
  {
  }

  lemma LowerAt(k: nat)
    requires k < 26
    ensures LOWER[k] as int == 'a' as int + k
  {
  }

  lemma TableIsRight(v: Sextet)
    ensures |TABLE| == 64 && TABLE[v] == Glyph(Six(v))
  {
    if v < 26 {
      UpperAt(v);
    } else if v < 52 {
      LowerAt(v - 26);
    }
  }

  function Render(codes: seq<Code>): string {
    if codes == [] then [] else [Glyph(codes[0])] + Render(codes[1..])
  }

  lemma {:induction false} RenderAppend(a: seq<Code>, b: seq<Code>)
    ensures Render(a + b) == Render(a) + Render(b) && |Render(a)| == |a|
  {
    if a == [] {
      assert a + b == b;
    } else {
      assert (a + b)[1..] == a[1..] + b;
      RenderAppend(a[1..], b);
    }
  }

  function Scan(text: string): Option<seq<Code>> {
    if text == [] then Some([])
    else
      var first, rest := Meaning(text[0]), Scan(text[1..]);
      if first.None? || rest.None? then None else Some([first.value] + rest.value)
  }

  lemma {:induction false} ScanOfRender(codes: seq<Code>)
    ensures Scan(Render(codes)) == Some(codes)
  {
    if codes != [] {
      MeaningOfGlyph(codes[0]);
      ScanOfRender(codes[1..]);
      assert Render(codes)[1..] == Render(codes[1..]);
      assert codes == [codes[0]] + codes[1..];
    }
  }

  /** Standard Base64 and its decoder. */
  function Encode(s: seq<Byte>): string { Render(Group(s)) }

  function Decode(text: string): Option<seq<Byte>> {
    var codes := Scan(text);
    if codes.None? then None else Ungroup(codes.value)
  }

  lemma DecodeOfRender(codes: seq<Code>, s: seq<Byte>)
    requires Ungroup(codes) == Some(s)
    ensures Decode(Render(codes)) == Some(s)
  {
    ScanOfRender(codes);
  }

  /** Decoding undoes encoding, for every byte string. */
  lemma RoundTrip(s: seq<Byte>)
    ensures Decode(Encode(s)) == Some(s)
  {
    UngroupOfGroup(s);
    DecodeOfRender(Group(s), s);
  }

  lemma EncodedLength(s: seq<Byte>)
    ensures |Encode(s)| == (|s| + 2) / 3 * 4 && |Encode(s)| % 4 == 0
  {
    GroupLength(s);
    RenderAppend(Group(s), []);
    Fours((|s| + 2) / 3, 0);
  }

  lemma EncodeThree(a: Byte, b: Byte, c: Byte, rest: seq<Byte>)
    ensures Encode([a, b, c] + rest) == [Glyph(First(a)), Glyph(Second(a, b)), Glyph(Third(b, c)), Glyph(Fourth(c))] + Encode(rest)
  {
    var s := [a, b, c] + rest;
    assert s[3..] == rest;
    assert Group(s) == Quad(a, b, c) + Group(s[3..]);
    RenderFour(First(a), Second(a, b), Third(b, c), Fourth(c), Group(rest));
  }

  lemma EncodeShort(a: Byte, b: Byte)
    ensures Encode([a]) == [Glyph(First(a)), Glyph(Second(a, 0)), '=', '=']
    ensures Encode([a, b]) == [Glyph(First(a)), Glyph(Second(a, b)), Glyph(Third(b, 0)), '=']
  {
    RenderFour(First(a), Second(a, 0), Padding, Padding, []);
    assert Group([a]) == [First(a), Second(a, 0), Padding, Padding] + [];
    RenderFour(First(a), Second(a, b), Third(b, 0), Padding, []);
    assert Group([a, b]) == [First(a), Second(a, b), Third(b, 0), Padding] + [];
  }

  /** Encodings listed in section 10 of RFC 4648, and one that uses the last two characters. */
  lemma KnownEncodings()
    ensures Encode([0x66]) == "Zg==" && Encode([0x66, 0x6F]) == "Zm8=" && Encode([0x66, 0x6F, 0x6F]) == "Zm9v"
    ensures Encode([0xFB, 0xFF, 0xBF]) == "+/+/"
  {
    EncodeShort(0x66, 0x6F);
    assert "Zg==" == ['Z', 'g', '=', '='] && "Zm8=" == ['Z', 'm', '8', '='];
    KnownThree(0x66, 0x6F, 0x6F, 25, 38, 61, 47);
    assert "Zm9v" == ['Z', 'm', '9', 'v'];
    KnownThree(0xFB, 0xFF, 0xBF, 62, 63, 62, 63);
    assert "+/+/" == ['+', '/', '+', '/'];
  }

  lemma KnownThree(a: Byte, b: Byte, c: Byte, p: Sextet, q: Sextet, r: Sextet, t: Sextet)
    requires First(a) == Six(p) && Second(a, b) == Six(q) && Third(b, c) == Six(r) && Fourth(c) == Six(t)
    ensures Encode([a, b, c]) == [Glyph(Six(p)), Glyph(Six(q)), Glyph(Six(r)), Glyph(Six(t))]
  {
    EncodeThree(a, b, c, []);
    assert [a, b, c] + [] == [a, b, c];
  }

  lemma RenderFour(a: Code, b: Code, c: Code, d: Code, rest: seq<Code>)
    ensures Render([a, b, c, d] + rest) == [Glyph(a), Glyph(b), Glyph(c), Glyph(d)] + Render(rest)
  {
    RenderAppend([a, b, c, d], rest);
    RenderAppend([a, b], [c, d]);
    RenderAppend([a], [b]);
    RenderAppend([c], [d]);
    assert [a, b] + [c, d] == [a, b, c, d] && [a] + [b] == [a, b] && [c] + [d] == [c, d];
    assert [a][1..] == [] && [b][1..] == [] && [c][1..] == [] && [d][1..] == [];
  }

  // ----- what the loop has pushed -----

  /** The sextets completed by the bytes of s. */
  function Emitted(s: seq<Byte>): seq<Code> {
    if |s| == 0 then []
    else if |s| == 1 then [First(s[0])]
    else if |s| == 2 then [First(s[0]), Second(s[0], s[1])]
    else Quad(s[0], s[1], s[2]) + Emitted(s[3..])
  }

  /** The sextets byte c completes when it follows s. */
  function Completed(s: seq<Byte>, c: Byte): seq<Code> {
    if |s| % 3 == 0 then [First(c)]
    else if |s| % 3 == 1 then [Second(s[|s| - 1], c)]
    else [Third(s[|s| - 1], c), Fourth(c)]
  }

  lemma EmittedOfTwo(a: Byte, b: Byte)
    ensures Emitted([a]) == [First(a)] && Emitted([a, b]) == [First(a), Second(a, b)]
  {
  }

  lemma EmittedOfThree(a: Byte, b: Byte, c: Byte)
    ensures Emitted([a, b, c]) == [First(a), Second(a, b), Third(b, c), Fourth(c)]
  {
    assert [a, b, c][3..] == [];
  }

  lemma Displayed(s: seq<Byte>, c: Byte)
    requires |s| < 3
    ensures |s| == 0 ==> s == [] && s + [c] == [c]
    ensures |s| == 1 ==> s == [s[0]] && s + [c] == [s[0], c]
    ensures |s| == 2 ==> s == [s[0], s[1]] && s + [c] == [s[0], s[1], c]
  {
  }

  lemma CompletedAfter(s: seq<Byte>, b: Byte, c: Byte)
    requires s != [] && s[|s| - 1] == b
    ensures |s| % 3 == 1 ==> Completed(s, c) == [Second(b, c)]
    ensures |s| % 3 == 2 ==> Completed(s, c) == [Third(b, c), Fourth(c)]
  {
  }

  lemma CompletedShort(a: Byte, b: Byte, c: Byte)
    ensures Completed([], c) == [First(c)] && Completed([a], c) == [Second(a, c)]
    ensures Completed([a, b], c) == [Third(b, c), Fourth(c)]
  {
    var one, two := [a], [a, b];
    assert |one| == 1 && |two| == 2;
    CompletedAfter(one, a, c);
    CompletedAfter(two, b, c);
  }

  lemma ShortEmittedSnoc(a: Byte, b: Byte, c: Byte)
    ensures Emitted([c]) == Emitted([]) + Completed([], c)
    ensures Emitted([a, c]) == Emitted([a]) + Completed([a], c)
    ensures Emitted([a, b, c]) == Emitted([a, b]) + Completed([a, b], c)
  {
    CompletedShort(a, b, c);
    EmittedOfTwo(c, 0);
    EmittedOfTwo(a, c);
    EmittedOfTwo(a, b);
    EmittedOfThree(a, b, c);
  }

  lemma CompletedSkips(s: seq<Byte>, c: Byte)
    requires |s| >= 3
    ensures Completed(s[3..], c) == Completed(s, c)
  {
    assert |s[3..]| % 3 == |s| % 3;
  }

  lemma LeftNested(q: seq<Code>, e: seq<Code>, f: seq<Code>)
    ensures q + (e + f) == (q + e) + f
  {
  }

  lemma EmittedUnfold(s: seq<Byte>)
    requires |s| >= 3
    ensures Emitted(s) == Quad(s[0], s[1], s[2]) + Emitted(s[3..])
  {
  }

  lemma SnocSkips(s: seq<Byte>, c: Byte)
    requires |s| >= 3
    ensures (s + [c])[3..] == s[3..] + [c]
    ensures (s + [c])[0] == s[0] && (s + [c])[1] == s[1] && (s + [c])[2] == s[2]
  {
  }

  lemma {:induction false} EmittedSnoc(s: seq<Byte>, c: Byte)
    ensures Emitted(s + [c]) == Emitted(s) + Completed(s, c)
  {
    if |s| < 3 {
      Displayed(s, c);
      ShortEmittedSnoc(if |s| > 0 then s[0] else 0, if |s| > 1 then s[1] else 0, c);
    } else {
      EmittedSnoc(s[3..], c);
      CompletedSkips(s, c);
      SnocSkips(s, c);
      EmittedUnfold(s);
      EmittedUnfold(s + [c]);
      LeftNested(Quad(s[0], s[1], s[2]), Emitted(s[3..]), Completed(s, c));
    }
  }

  /** The final partial sextet. */
  function Final(s: seq<Byte>): seq<Code> {
    if |s| % 3 == 1 then [Second(s[|s| - 1], 0)]
    else if |s| % 3 == 2 then [Third(s[|s| - 1], 0)]
    else []
  }

  function PaddingFor(n: nat): seq<Code> {
    if n % 4 == 2 then [Padding, Padding] else if n % 4 == 3 then [Padding] else []
  }

  lemma {:induction false} EmittedLength(s: seq<Byte>)
    ensures |Emitted(s)| == |s| / 3 * 4 + |s| % 3
  {
    if |s| >= 3 {
      EmittedLength(s[3..]);
    }
  }

  lemma Regroup(q: seq<Code>, e: seq<Code>, f: seq<Code>, p: seq<Code>)
    ensures q + (e + f + p) == (q + e) + f + p
  {
  }

  lemma FinalSkips(s: seq<Byte>)
    requires |s| >= 3
    ensures Final(s[3..]) == Final(s)
  {
    assert |s[3..]| % 3 == |s| % 3;
  }

  lemma GroupUnfold(s: seq<Byte>)
    requires |s| >= 3
    ensures Group(s) == Quad(s[0], s[1], s[2]) + Group(s[3..])
  {
  }

  /** The characters pushed for s before padding. */
  function Pushed(s: seq<Byte>): nat { |s| / 3 * 4 + |s| % 3 + |Final(s)| }

  lemma Thirds(n: nat)
    requires n >= 3
    ensures n / 3 == (n - 3) / 3 + 1 && n % 3 == (n - 3) % 3
  {
  }

  lemma PaddingPeriod(n: nat)
    ensures PaddingFor(n + 4) == PaddingFor(n)
  {
    assert (n + 4) % 4 == n % 4;
  }

  lemma PaddingSkips(s: seq<Byte>)
    requires |s| >= 3
    ensures PaddingFor(Pushed(s[3..])) == PaddingFor(Pushed(s))
  {
    FinalSkips(s);
    Thirds(|s|);
    PaddingPeriod(Pushed(s[3..]));
  }

  lemma Fours(q: nat, r: nat)
    requires r < 4
    ensures (4 * q + r) % 4 == r
  {
  }

  lemma PushedLength(s: seq<Byte>)
    ensures |Emitted(s) + Final(s)| == Pushed(s) && Pushed(s) % 4 != 1
  {
    EmittedLength(s);
    Fours(|s| / 3, |s| % 3 + |Final(s)|);
  }

  lemma {:induction false} GroupIsEmitted(s: seq<Byte>)
    ensures Group(s) == Emitted(s) + Final(s) + PaddingFor(Pushed(s))
  {
    if |s| >= 3 {
      GroupIsEmitted(s[3..]);
      FinalSkips(s);
      PaddingSkips(s);
      GroupUnfold(s);
      EmittedUnfold(s);
      Regroup(Quad(s[0], s[1], s[2]), Emitted(s[3..]), Final(s), PaddingFor(Pushed(s)));
    }
  }

  // ----- the 32-bit accumulator -----

  /** Conversion to a 32-bit two's complement int. */
  function Wrap(x: int): int { (x + 0x8000_0000) % 0x1_0000_0000 - 0x8000_0000 }

  lemma WrapKeepsLowBits(x: int)
    ensures Wrap(x) % 4096 == x % 4096
  {
    var k := (x + 0x8000_0000) / 0x1_0000_0000;
    assert Wrap(x) == x - k * 0x1_0000_0000;
    assert (x - k * 0x1_0000_0000) % 4096 == x % 4096;
  }

  /** (val << 8) + c in 32-bit arithmetic. */
  function Push(val: int, c: Byte): int { Wrap(Wrap(val * 256) + c) }

  lemma TimesLowBits(val: int)
    ensures val * 256 % 4096 == val % 16 * 256
  {
    var k := val / 16;
    assert val * 256 == 4096 * k + (val % 16) * 256;
  }

  lemma LowBitsOfSum(x: int, p: nat, c: Byte)
    requires p < 16 && x % 4096 == p * 256
    ensures (x + c) % 4096 == p * 256 + c
  {
    var k := x / 4096;
    assert x + c == 4096 * k + (p * 256 + c);
  }

  /** Wrap-around never reaches the twelve bits that are still to be pushed. */
  lemma PushLowBits(val: int, c: Byte)
    ensures Push(val, c) % 4096 == val % 16 * 256 + c
  {
    TimesLowBits(val);
    WrapKeepsLowBits(val * 256);
    LowBitsOfSum(Wrap(val * 256), val % 16, c);
    WrapKeepsLowBits(Wrap(val * 256) + c);
  }

  lemma LowSextet(x: int, q: int, r: Sextet)
    requires x == 64 * q + r
    ensures x % 64 == r
  {
  }

  lemma QuarterOf(x: int, q: int, r: Byte)
    requires x == 256 * q + r
    ensures x / 4 == 64 * q + r / 4 && x / 16 == 16 * q + r / 16 && x / 64 == 4 * q + r / 64
  {
  }

  lemma LowOctet(x: int, q: int, r: Byte)
    requires x == 256 * q + r
    ensures x % 256 == r
  {
  }

  lemma LowByte(val: int, k: int, p: int, c: Byte)
    requires val == 4096 * k + p * 256 + c
    ensures val % 64 == c % 64 && val % 256 == c
  {
    LowOctet(val, 16 * k + p, c);
    LowSextet(val, 64 * k + 4 * p + c / 64, c % 64);
  }

  /** The shifts the encoder uses only see the low twelve bits: the last byte c and four bits p of the
      one before. */
  lemma SextetOfLowBits(val: int, p: nat, c: Byte)
    requires p < 16 && val % 4096 == p * 256 + c
    ensures val / 4 % 64 == c / 4 && val / 16 % 64 == p % 4 * 16 + c / 16
    ensures val / 64 % 64 == p * 4 + c / 64 && val % 64 == c % 64 && val % 256 == c
  {
    var k := val / 4096;
    assert val == 4096 * k + p * 256 + c;
    QuarterOf(val, 16 * k + p, c);
    LowSextet(val / 4, 16 * k + p, c / 4);
    LowSextet(val / 16, 4 * k + p / 4, p % 4 * 16 + c / 16);
    LowSextet(val / 64, k, p * 4 + c / 64);
    LowByte(val, k, p, c);
  }

  /** val >> bits on a signed int: division rounding down. */
  function ShiftRight(val: int, bits: nat): int {
    if bits == 0 then val else ShiftRight(val, bits - 1) / 2
  }

  lemma ShiftRightIsDivision(val: int)
    ensures ShiftRight(val, 0) == val && ShiftRight(val, 2) == val / 4
    ensures ShiftRight(val, 4) == val / 16 && ShiftRight(val, 6) == val / 64
  {
    assert ShiftRight(val, 1) == val / 2;
    assert ShiftRight(val, 3) == ShiftRight(val, 2) / 2;
    assert ShiftRight(val, 5) == ShiftRight(val, 4) / 2;
  }

  lemma LowNibble(x: int, q: int, r: int)
    requires x == 16 * q + r && 0 <= r < 16
    ensures x % 16 == r
  {
  }

  lemma LowBitsOfByte(val: int, b: Byte)
    requires val % 256 == b
    ensures val % 16 == b % 16
  {
    LowNibble(val, 16 * (val / 256) + b / 16, b % 16);
  }

  lemma QuarterOfNibble(b: Byte)
    ensures b % 16 % 4 == b % 4
  {
    assert b == 4 * (4 * (b / 16) + b % 16 / 4) + b % 16 % 4;
  }

  /** (val >> bits) & 0x3F */
  function Bits(val: int, bits: nat): Sextet { ShiftRight(val, bits) % 64 }

  lemma BitsOfBytes(val: int, b: Byte, c: Byte)
    requires val % 4096 == b % 16 * 256 + c
    ensures Six(Bits(val, 2)) == First(c) && Six(Bits(val, 4)) == Second(b, c)
    ensures Six(Bits(val, 6)) == Third(b, c) && Six(Bits(val, 0)) == Fourth(c)
  {
    SextetOfLowBits(val, b % 16, c);
    ShiftRightIsDivision(val);
    QuarterOfNibble(b);
  }

  lemma PushedBits(val: int, b: Byte, c: Byte)
    requires val % 256 == b
    ensures var v := Push(val, c);
            && Six(Bits(v, 2)) == First(c) && Six(Bits(v, 4)) == Second(b, c)
            && Six(Bits(v, 6)) == Third(b, c) && Six(Bits(v, 0)) == Fourth(c) && v % 256 == c
  {
    PushLowBits(val, c);
    LowBitsOfByte(val, b);
    BitsOfBytes(Push(val, c), b, c);
    SextetOfLowBits(Push(val, c), b % 16, c);
  }

  lemma FinalBits(val: int, b: Byte)
    requires val % 256 == b
    ensures Six(Bits(Wrap(val * 256), 4)) == Second(b, 0) && Six(Bits(Wrap(val * 256), 6)) == Third(b, 0)
  {
    WrapKeepsLowBits(val * 256);
    TimesLowBits(val);
    LowBitsOfByte(val, b);
    BitsOfBytes(Wrap(val * 256), b, 0);
  }

  // ----- the encoder -----

  /** table[(val >> bits) & 0x3F] */
  method Character(val: int, bits: nat) returns (c: char)
    ensures c == Glyph(Six(Bits(val, bits)))
  {
    TableIsRight(Bits(val, bits));
    c := TABLE[Bits(val, bits)];
  }

  /** The bit position the loop is at after n bytes. */
  function Position(n: nat): int { if n % 3 == 0 then -6 else if n % 3 == 1 then -4 else -2 }

  /** The sextets the inner loop takes from val, starting at a position. */
  function Taken(val: int, position: int): seq<Code>
    decreases position + 6
  {
    if position < 0 then [] else [Six(Bits(val, position))] + Taken(val, position - 6)
  }

  /** The inner loop: pushes a character for every six complete bits. */
  method PushSextets(output: string, val: int, position: int) returns (pushed: string, left: int)
    requires position >= -6
    ensures pushed == output + Render(Taken(val, position))
    ensures -6 <= left < 0 && (position - left) % 6 == 0
  {
    pushed, left := output, position;
    while left >= 0
      invariant -6 <= left <= position && (position - left) % 6 == 0
      invariant pushed + Render(Taken(val, left)) == output + Render(Taken(val, position))
    {
      var c := Character(val, left);
      assert Taken(val, left)[1..] == Taken(val, left - 6);
      pushed := pushed + [c];
      left := left - 6;
    }
  }

  lemma TakenShort(v: int)
    ensures Taken(v, 2) == [Six(Bits(v, 2))] && Taken(v, 4) == [Six(Bits(v, 4))]
    ensures Taken(v, 6) == [Six(Bits(v, 6)), Six(Bits(v, 0))]
  {
    assert Taken(v, 0) == [Six(Bits(v, 0))] + Taken(v, -6);
    assert Taken(v, 6) == [Six(Bits(v, 6))] + Taken(v, 0);
  }

  lemma TakenIsCompleted(s: seq<Byte>, val: int, c: Byte)
    requires val % 256 == if s == [] then 0 else s[|s| - 1]
    ensures Taken(Push(val, c), Position(|s|) + 8) == Completed(s, c) && Push(val, c) % 256 == c
  {
    PushedBits(val, if s == [] then 0 else s[|s| - 1], c);
    TakenShort(Push(val, c));
  }

  lemma NextPosition(n: nat, left: int)
    requires -6 <= left < 0 && (Position(n) + 8 - left) % 6 == 0
    ensures left == Position(n + 1)
  {
    assert (n + 1) % 3 == if n % 3 == 2 then 0 else n % 3 + 1;
  }

  method Pad(text: string) returns (padded: string)
    requires |text| % 4 != 1
    ensures padded == text + Render(PaddingFor(|text|))
  {
    padded := text;
    while |padded| % 4 != 0
      invariant |padded| % 4 != 1 && |padded| <= |text| + 2
      invariant padded + Render(PaddingFor(|padded|)) == text + Render(PaddingFor(|text|))
      decreases |text| + 2 - |padded|
    {
      PaddingStep(|padded|);
      padded := padded + "=";
    }
  }

  lemma PaddingStep(n: nat)
    requires n % 4 == 2 || n % 4 == 3
    ensures Render(PaddingFor(n)) == "=" + Render(PaddingFor(n + 1))
  {
    assert PaddingFor(n)[1..] == PaddingFor(n + 1);
  }

  /** The body of the loop over the input. */
  method TakeByte(ghost s: seq<Byte>, c: Byte, text: string, val: int, valb: int)
    returns (output: string, val': int, valb': int)
    requires text == Render(Emitted(s)) && valb == Position(|s|)
    requires val % 256 == if s == [] then 0 else s[|s| - 1]
    ensures output == Render(Emitted(s + [c])) && valb' == Position(|s| + 1) && val' % 256 == c
  {
    TakenIsCompleted(s, val, c);
    EmittedSnoc(s, c);
    RenderAppend(Emitted(s), Completed(s, c));
    val' := Push(val, c);
    output, valb' := PushSextets(text, val', valb + 8);
    NextPosition(|s|, valb');
  }

  /** The encoder yields the standard's encoding of every byte string, however often the 32-bit
      accumulator has wrapped around; so its output always decodes to the input. */
  method Base64Encode(input: seq<Byte>) returns (output: string)
    ensures output == Encode(input)
    ensures |output| % 4 == 0 && Decode(output) == Some(input)
  {
    output := [];
    var val, valb := 0, -6;
    var i := 0;
    while i < |input|
      invariant 0 <= i <= |input|
      invariant output == Render(Emitted(input[..i])) && valb == Position(i)
      invariant val % 256 == if i == 0 then 0 else input[i - 1]
    {
      assert input[..i + 1] == input[..i] + [input[i]];
      output, val, valb := TakeByte(input[..i], input[i], output, val, valb);
      i := i + 1;
    }
    assert input[..i] == input;
    output := Finish(input, output, val, valb);
    RoundTrip(input);
    EncodedLength(input);
  }

  method Finish(ghost input: seq<Byte>, text: string, val: int, valb: int) returns (output: string)
    requires text == Render(Emitted(input)) && valb == Position(|input|)
    requires input != [] ==> val % 256 == input[|input| - 1]
    ensures output == Encode(input)
  {
    output := text;
    ghost var all := Emitted(input) + Final(input);
    RenderAppend(Emitted(input), Final(input));
    if valb > -6 {
      FinalBits(val, input[|input| - 1]);
      var c := Character(Wrap(val * 256), valb + 8);
      output := output + [c];
    }
    assert output == Render(all);
    GroupIsEmitted(input);
    PushedLength(input);
    RenderAppend(all, PaddingFor(|all|));
    output := Pad(output);
  }
}
