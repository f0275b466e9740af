/**
 The record level of the Protocol Buffers wire format (encoding specification, sections "Base 128
 Varints" and "Message Structure"): a message is a sequence of records, each a tag and a payload.
 */
module Wire {
  import opened Basics

  const UINT32: nat := 0x1_0000_0000
  const UINT64: nat := 0x1_0000_0000_0000_0000
  /** The reader refuses lengths within 16 bytes of the largest int. */
  const MAX_LENGTH: nat := 0x7fff_ffff - 16
  const MAX_FIELD: nat := 0x1fff_ffff

  datatype Record =
    | Varint(field: nat, value: nat)
    | Fixed64(field: nat, data: seq<Byte>)
    | Bytes(field: nat, data: seq<Byte>)
    | Fixed32(field: nat, data: seq<Byte>)

  ghost predicate Valid(r: Record) {
    1 <= r.field <= MAX_FIELD &&
    match r
    case Varint(_, v) => v < UINT64
    case Fixed64(_, d) => |d| == 8
    case Bytes(_, d) => |d| <= MAX_LENGTH
    case Fixed32(_, d) => |d| == 4
  }

  // ----- varints -----

  function Base128(n: nat): (r: seq<Byte>)
    ensures |r| >= 1
  {
    if n < 128 then [n] else [n % 128 + 128] + Base128(n / 128)
  }

  function VarintSize(n: nat): nat {
    if n < 128 then 1 else 1 + VarintSize(n / 128)
  }

  lemma {:induction false} VarintSizeIsLength(n: nat)
    ensures |Base128(n)| == VarintSize(n)
  {
    if n >= 128 {
      VarintSizeIsLength(n / 128);
    }
  }

  datatype Read<T> = Got(value: T, rest: seq<Byte>) | Bad

  function Power128(i: nat): nat {
    if i == 0 then 1 else 128 * Power128(i - 1)
  }

  /** Reads a base-128 number of at most `limit` bytes. */
  function ReadBase128(bytes: seq<Byte>, limit: nat): (r: Read<nat>)
    ensures r.Got? ==> |r.rest| < |bytes|
    decreases limit
  {
    if bytes == [] || limit == 0 then Bad
    else if bytes[0] < 128 then Got(bytes[0], bytes[1..])
    else
      var tail := ReadBase128(bytes[1..], limit - 1);
      if tail.Bad? then Bad else Got(bytes[0] - 128 + 128 * tail.value, tail.rest)
  }

  lemma {:induction false} ReadOfBase128(n: nat, rest: seq<Byte>, limit: nat)
    requires limit > 0 && n < Power128(limit)
    ensures ReadBase128(Base128(n) + rest, limit) == Got(n, rest)
    decreases limit
  {
    var bytes := Base128(n) + rest;
    if n < 128 {
      assert bytes[1..] == rest;
    } else {
      assert bytes[1..] == Base128(n / 128) + rest;
      ReadOfBase128(n / 128, rest, limit - 1);
    }
  }

  lemma PowersOf128()
    ensures Power128(5) == 0x8_0000_0000
    ensures Power128(10) > UINT64
  {
    assert Power128(2) == 16384;
    assert Power128(4) == 16384 * 16384;
    assert Power128(5) == 128 * 16384 * 16384;
    assert Power128(7) == 16384 * Power128(5);
    assert Power128(9) == 16384 * Power128(7);
    assert Power128(10) == 128 * Power128(9);
  }

  // ----- records -----

  function WireType(r: Record): nat {
    match r case Varint(_, _) => 0 case Fixed64(_, _) => 1 case Bytes(_, _) => 2 case Fixed32(_, _) => 5
  }

  function Tag(r: Record): nat { 8 * r.field + WireType(r) }

  function PrintPayload(r: Record): seq<Byte> {
    match r
    case Varint(_, v) => Base128(v)
    case Fixed64(_, d) => d
    case Bytes(_, d) => Base128(|d|) + d
    case Fixed32(_, d) => d
  }

  function PrintRecord(r: Record): (s: seq<Byte>)
    ensures |s| >= 1
  {
    Base128(Tag(r)) + PrintPayload(r)
  }

  function Print(records: seq<Record>): seq<Byte> {
    if records == [] then [] else PrintRecord(records[0]) + Print(records[1..])
  }

  function ReadTag(bytes: seq<Byte>): Read<nat> {
    var r := ReadBase128(bytes, 5);
    if r.Bad? then Bad else Got(r.value % UINT32, r.rest)
  }

  function ReadVarint64(bytes: seq<Byte>): Read<nat> {
    var r := ReadBase128(bytes, 10);
    if r.Bad? then Bad else Got(r.value % UINT64, r.rest)
  }

  function ReadRaw(bytes: seq<Byte>, n: nat): Read<seq<Byte>> {
    if n <= |bytes| then Got(bytes[..n], bytes[n..]) else Bad
  }

  function ReadBytes(bytes: seq<Byte>): (r: Read<seq<Byte>>)
    ensures r.Got? ==> |r.rest| < |bytes| && |r.value| <= MAX_LENGTH
  {
    var n := ReadBase128(bytes, 5);
    if n.Bad? || n.value > MAX_LENGTH then Bad else ReadRaw(n.rest, n.value)
  }

  /** The payload of a record of a given wire type. Start-group tags are treated as malformed. */
  function ReadPayload(field: nat, wireType: nat, bytes: seq<Byte>): (r: Read<Record>)
    ensures r.Got? ==> |r.rest| <= |bytes|
  {
    if wireType == 0 then
      var v := ReadVarint64(bytes);
      if v.Bad? then Bad else Got(Varint(field, v.value), v.rest)
    else if wireType == 1 then
      var v := ReadRaw(bytes, 8);
      if v.Bad? then Bad else Got(Fixed64(field, v.value), v.rest)
    else if wireType == 2 then
      var v := ReadBytes(bytes);
      if v.Bad? then Bad else Got(Bytes(field, v.value), v.rest)
    else if wireType == 5 then
      var v := ReadRaw(bytes, 4);
      if v.Bad? then Bad else Got(Fixed32(field, v.value), v.rest)
    else Bad
  }

  /** One record off the front. A zero tag, field number 0, an end-group tag and wire types 6 and 7
      are malformed. */
  function ReadRecord(bytes: seq<Byte>): (r: Read<Record>)
    ensures r.Got? ==> |r.rest| < |bytes|
  {
    var tag := ReadTag(bytes);
    if tag.Bad? || tag.value / 8 == 0 then Bad
    else ReadPayload(tag.value / 8, tag.value % 8, tag.rest)
  }

  lemma CutAt(d: seq<Byte>, rest: seq<Byte>)
    ensures ReadRaw(d + rest, |d|) == Got(d, rest)
  {
    assert (d + rest)[..|d|] == d && (d + rest)[|d|..] == rest;
  }

  lemma VarintFrom(bytes: seq<Byte>, v: nat, rest: seq<Byte>)
    requires ReadBase128(bytes, 10) == Got(v, rest) && v < UINT64
    ensures ReadVarint64(bytes) == Got(v, rest)
  {
  }

  lemma BytesFrom(bytes: seq<Byte>, n: nat, body: seq<Byte>, d: seq<Byte>, rest: seq<Byte>)
    requires ReadBase128(bytes, 5) == Got(n, body) && n <= MAX_LENGTH && ReadRaw(body, n) == Got(d, rest)
    ensures ReadBytes(bytes) == Got(d, rest)
  {
  }

  lemma FitsTheLimit(v: nat)
    ensures v < UINT32 ==> v < Power128(5)
    ensures v < UINT64 ==> v < Power128(10)
  {
    PowersOf128();
  }

  lemma ReadPrintedVarint(v: nat, rest: seq<Byte>)
    requires v < UINT64
    ensures ReadVarint64(Base128(v) + rest) == Got(v, rest)
  {
    FitsTheLimit(v);
    ReadOfBase128(v, rest, 10);
    VarintFrom(Base128(v) + rest, v, rest);
  }

  lemma ReadPrintedBytes(d: seq<Byte>, rest: seq<Byte>)
    requires |d| <= MAX_LENGTH
    ensures ReadBytes(Base128(|d|) + d + rest) == Got(d, rest)
  {
    FitsTheLimit(|d|);
    ReadOfBase128(|d|, d + rest, 5);
    CutAt(d, rest);
    Nested(Base128(|d|), d, rest);
    BytesFrom(Base128(|d|) + (d + rest), |d|, d + rest, d, rest);
  }

  lemma Nested(a: seq<Byte>, b: seq<Byte>, c: seq<Byte>)
    ensures (a + b) + c == a + (b + c)
  {
  }

  lemma ReadPrintedPayload(r: Record, rest: seq<Byte>)
    requires Valid(r)
    ensures ReadPayload(r.field, WireType(r), PrintPayload(r) + rest) == Got(r, rest)
  {
    match r
    case Varint(_, v) => ReadPrintedVarint(v, rest);
    case Bytes(_, d) => ReadPrintedBytes(d, rest);
    case Fixed64(_, d) => CutAt(d, rest);
    case Fixed32(_, d) => CutAt(d, rest);
  }

  lemma TagParts(r: Record)
    requires Valid(r)
    ensures Tag(r) < UINT32 && Tag(r) / 8 == r.field && Tag(r) % 8 == WireType(r)
  {
  }

  lemma TagFrom(bytes: seq<Byte>, tag: nat, rest: seq<Byte>)
    requires ReadBase128(bytes, 5) == Got(tag, rest) && tag < UINT32
    ensures ReadTag(bytes) == Got(tag, rest)
  {
  }

  lemma ReadPrintedTag(r: Record, rest: seq<Byte>)
    requires Valid(r)
    ensures ReadTag(Base128(Tag(r)) + rest) == Got(Tag(r), rest)
  {
    TagParts(r);
    FitsTheLimit(Tag(r));
    ReadOfBase128(Tag(r), rest, 5);
    TagFrom(Base128(Tag(r)) + rest, Tag(r), rest);
  }

  lemma ReadTagged(bytes: seq<Byte>, tag: nat, body: seq<Byte>, r: Record, rest: seq<Byte>)
    requires ReadTag(bytes) == Got(tag, body) && tag / 8 >= 1
    requires ReadPayload(tag / 8, tag % 8, body) == Got(r, rest)
    ensures ReadRecord(bytes) == Got(r, rest)
  {
  }

  lemma TagFirst(r: Record, rest: seq<Byte>)
    ensures PrintRecord(r) + rest == Base128(Tag(r)) + (PrintPayload(r) + rest)
  {
    Nested(Base128(Tag(r)), PrintPayload(r), rest);
  }

  lemma ReadOfPrint(r: Record, rest: seq<Byte>)
    requires Valid(r)
    ensures ReadRecord(PrintRecord(r) + rest) == Got(r, rest)
  {
    TagFirst(r, rest);
    ReadPrintedTag(r, PrintPayload(r) + rest);
    TagParts(r);
    ReadPrintedPayload(r, rest);
    ReadTagged(PrintRecord(r) + rest, Tag(r), PrintPayload(r) + rest, r, rest);
  }

  /** All records of a byte string, or Bad. */
  function ReadAll(bytes: seq<Byte>): Read<seq<Record>>
    decreases |bytes|
  {
    if bytes == [] then Got([], [])
    else
      var first := ReadRecord(bytes);
      if first.Bad? then Bad
      else
        var others := ReadAll(first.rest);
        if others.Bad? then Bad else Got([first.value] + others.value, [])
  }

  lemma {:induction false} ReadAllOfPrint(records: seq<Record>)
    requires forall i :: 0 <= i < |records| ==> Valid(records[i])
    ensures ReadAll(Print(records)) == Got(records, [])
  {
    if records != [] {
      ReadOfPrint(records[0], Print(records[1..]));
      ReadAllOfPrint(records[1..]);
      assert [records[0]] + records[1..] == records;
    }
  }

  lemma {:induction false} PrintConcat(a: seq<Record>, b: seq<Record>)
    ensures Print(a + b) == Print(a) + Print(b)
  {
    if a == [] {
      assert a + b == b;
    } else {
      assert (a + b)[0] == a[0] && (a + b)[1..] == a[1..] + b;
      PrintConcat(a[1..], b);
    }
  }

  // ----- sizes -----

  function RecordSize(r: Record): nat {
    VarintSize(Tag(r)) +
    match r
    case Varint(_, v) => VarintSize(v)
    case Fixed64(_, d) => |d|
    case Bytes(_, d) => VarintSize(|d|) + |d|
    case Fixed32(_, d) => |d|
  }

  lemma RecordSizeIsLength(r: Record)
    ensures |PrintRecord(r)| == RecordSize(r)
  {
    VarintSizeIsLength(Tag(r));
    match r
    case Varint(_, v) => VarintSizeIsLength(v);
    case Bytes(_, d) => VarintSizeIsLength(|d|);
    case _ =>
  }

  // ----- what the reader accepts -----

  /** All bytes but the last have the continuation bit. */
  ghost predicate IsVarint(s: seq<Byte>) {
    s != [] && s[|s| - 1] < 128 && forall i :: 0 <= i < |s| - 1 ==> s[i] >= 128
  }

  /** Groups of seven bits, the least significant first. */
  function Groups(s: seq<Byte>): nat { if s == [] then 0 else s[0] % 128 + 128 * Groups(s[1..]) }

  /** Writing yields the shortest varint of the number. */
  lemma {:induction false} Base128IsShortest(n: nat)
    ensures IsVarint(Base128(n)) && Groups(Base128(n)) == n
    ensures |Base128(n)| > 1 ==> Base128(n)[|Base128(n)| - 1] != 0
  {
    if n >= 128 {
      Base128IsShortest(n / 128);
      assert Base128(n)[1..] == Base128(n / 128);
    } else {
      assert [n][1..] == [];
    }
  }

  lemma VarintTail(s: seq<Byte>)
    requires s != [] && s[0] >= 128
    ensures IsVarint(s) <==> IsVarint(s[1..])
  {
    if IsVarint(s[1..]) {
      forall i | 0 <= i < |s| - 1
        ensures s[i] >= 128
      {
        if i > 0 {
          assert s[1..][i - 1] == s[i];
        }
      }
    }
  }

  lemma {:induction false} ReadOfVarint(bytes: seq<Byte>, limit: nat, n: nat)
    requires n <= limit && n <= |bytes| && IsVarint(bytes[..n])
    ensures ReadBase128(bytes, limit) == Got(Groups(bytes[..n]), bytes[n..])
    decreases n
  {
    if bytes[0] < 128 {
      assert n == 1;
      assert bytes[..1][1..] == [];
    } else {
      assert bytes[..n][1..] == bytes[1..][..n - 1];
      VarintTail(bytes[..n]);
      ReadOfVarint(bytes[1..], limit - 1, n - 1);
      assert bytes[1..][n - 1..] == bytes[n..];
    }
  }

  lemma {:induction false} VarintOfRead(bytes: seq<Byte>, limit: nat) returns (n: nat)
    requires ReadBase128(bytes, limit).Got?
    ensures 1 <= n <= limit && n <= |bytes| && IsVarint(bytes[..n])
    decreases limit
  {
    if bytes[0] < 128 {
      n := 1;
    } else {
      var m := VarintOfRead(bytes[1..], limit - 1);
      n := m + 1;
      assert bytes[..n][1..] == bytes[1..][..m];
      VarintTail(bytes[..n]);
    }
  }

  /** The reader takes exactly the varints of at most `limit` bytes, shortest or not. */
  lemma ReadBase128Iff(bytes: seq<Byte>, limit: nat, v: nat, rest: seq<Byte>)
    ensures ReadBase128(bytes, limit) == Got(v, rest) <==>
            exists n :: 0 <= n <= limit && n <= |bytes| && IsVarint(bytes[..n]) && v == Groups(bytes[..n]) && rest == bytes[n..]
  {
    if ReadBase128(bytes, limit).Got? {
      var n := VarintOfRead(bytes, limit);
      ReadOfVarint(bytes, limit, n);
    }
    forall n | 0 <= n <= limit && n <= |bytes| && IsVarint(bytes[..n])
      ensures ReadBase128(bytes, limit) == Got(Groups(bytes[..n]), bytes[n..])
    {
      ReadOfVarint(bytes, limit, n);
    }
  }

  /** The bytes are a payload of the record, as the wire type says. */
  ghost predicate IsPayload(s: seq<Byte>, wireType: nat, r: Record) {
    match r
    case Varint(_, v) => wireType == 0 && |s| <= 10 && IsVarint(s) && v == Groups(s) % UINT64
    case Fixed64(_, d) => wireType == 1 && s == d && |d| == 8
    case Bytes(_, d) =>
      wireType == 2 && exists k :: 0 <= k <= 5 && k <= |s| && IsVarint(s[..k]) && Groups(s[..k]) == |d| <= MAX_LENGTH && s[k..] == d
    case Fixed32(_, d) => wireType == 5 && s == d && |d| == 4
  }

  /** The bytes are a tag, read modulo 2^32, and the payload of the record. */
  ghost predicate IsRecord(s: seq<Byte>, r: Record) {
    exists k :: 0 <= k <= 5 && k <= |s| && IsVarint(s[..k]) && TaggedPayload(Groups(s[..k]) % UINT32, s[k..], r)
  }

  ghost predicate TaggedPayload(tag: nat, s: seq<Byte>, r: Record) {
    tag / 8 == r.field && r.field >= 1 && IsPayload(s, tag % 8, r)
  }

  lemma Sliced(bytes: seq<Byte>, k: nat, n: nat)
    requires k <= n <= |bytes|
    ensures bytes[k..][..n - k] == bytes[k..n] && bytes[k..][n - k..] == bytes[n..]
  {
  }

  lemma LengthPrefixed(bytes: seq<Byte>, k: nat, n: nat)
    requires k <= 5 && k <= n <= |bytes| && IsVarint(bytes[..k]) && Groups(bytes[..k]) == n - k <= MAX_LENGTH
    ensures ReadBytes(bytes) == Got(bytes[k..n], bytes[n..])
  {
    ReadOfVarint(bytes, 5, k);
    Sliced(bytes, k, n);
    BytesFrom(bytes, n - k, bytes[k..], bytes[k..n], bytes[n..]);
  }

  lemma PayloadIsRead(bytes: seq<Byte>, n: nat, wireType: nat, r: Record)
    requires n <= |bytes| && IsPayload(bytes[..n], wireType, r)
    ensures ReadPayload(r.field, wireType, bytes) == Got(r, bytes[n..])
  {
    match r
    case Varint(_, v) => ReadOfVarint(bytes, 10, n);
    case Bytes(_, d) =>
      var s := bytes[..n];
      var k :| 0 <= k <= 5 && k <= |s| && IsVarint(s[..k]) && Groups(s[..k]) == |d| <= MAX_LENGTH && s[k..] == d;
      assert s[..k] == bytes[..k];
      LengthPrefixed(bytes, k, n);
    case _ =>
  }

  lemma ReadIsPayload(field: nat, wireType: nat, bytes: seq<Byte>) returns (n: nat)
    requires ReadPayload(field, wireType, bytes).Got?
    ensures n <= |bytes| && IsPayload(bytes[..n], wireType, ReadPayload(field, wireType, bytes).value)
    ensures ReadPayload(field, wireType, bytes).rest == bytes[n..] && ReadPayload(field, wireType, bytes).value.field == field
  {
    if wireType == 0 {
      n := VarintOfRead(bytes, 10);
      ReadOfVarint(bytes, 10, n);
    } else if wireType == 1 {
      n := 8;
    } else if wireType == 2 {
      var k := VarintOfRead(bytes, 5);
      ReadOfVarint(bytes, 5, k);
      n := k + Groups(bytes[..k]);
      LengthPrefixed(bytes, k, n);
      assert bytes[..n][..k] == bytes[..k] && bytes[..n][k..] == bytes[k..n];
    } else {
      n := 4;
    }
  }

  lemma TaggedIsRead(bytes: seq<Byte>, n: nat, k: nat, r: Record)
    requires k <= 5 && k <= n <= |bytes| && IsVarint(bytes[..k])
    requires TaggedPayload(Groups(bytes[..k]) % UINT32, bytes[k..n], r)
    ensures ReadRecord(bytes) == Got(r, bytes[n..])
  {
    var tag := Groups(bytes[..k]) % UINT32;
    ReadOfVarint(bytes, 5, k);
    assert ReadTag(bytes) == Got(tag, bytes[k..]);
    Sliced(bytes, k, n);
    PayloadIsRead(bytes[k..], n - k, tag % 8, r);
    ReadTagged(bytes, tag, bytes[k..], r, bytes[n..]);
  }

  lemma RecordIsRead(bytes: seq<Byte>, n: nat, r: Record)
    requires n <= |bytes| && IsRecord(bytes[..n], r)
    ensures ReadRecord(bytes) == Got(r, bytes[n..])
  {
    var s := bytes[..n];
    var k :| 0 <= k <= 5 && k <= |s| && IsVarint(s[..k]) && TaggedPayload(Groups(s[..k]) % UINT32, s[k..], r);
    assert s[..k] == bytes[..k] && s[k..] == bytes[k..n];
    TaggedIsRead(bytes, n, k, r);
  }

  lemma ReadIsRecord(bytes: seq<Byte>) returns (n: nat)
    requires ReadRecord(bytes).Got?
    ensures n <= |bytes| && IsRecord(bytes[..n], ReadRecord(bytes).value) && ReadRecord(bytes).rest == bytes[n..]
  {
    var k := VarintOfRead(bytes, 5);
    ReadOfVarint(bytes, 5, k);
    var tag := Groups(bytes[..k]) % UINT32;
    var m := ReadIsPayload(tag / 8, tag % 8, bytes[k..]);
    n := k + m;
    assert bytes[..n][..k] == bytes[..k] && bytes[..n][k..] == bytes[k..][..m] && bytes[k..][m..] == bytes[n..];
  }

  /** The reader takes exactly the records: a tag with a field number from 1 on and the payload its wire type
      announces. */
  lemma ReadRecordIff(bytes: seq<Byte>, r: Record, rest: seq<Byte>)
    ensures ReadRecord(bytes) == Got(r, rest) <==>
            exists n :: 0 <= n <= |bytes| && IsRecord(bytes[..n], r) && rest == bytes[n..]
  {
    if ReadRecord(bytes).Got? {
      var n := ReadIsRecord(bytes);
    }
    forall n | 0 <= n <= |bytes| && IsRecord(bytes[..n], r)
      ensures ReadRecord(bytes) == Got(r, bytes[n..])
    {
      RecordIsRead(bytes, n, r);
    }
  }
}
