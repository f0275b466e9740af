/**
 The message objects: size calculation that fills the cached sizes, serialization that prints nested
 length prefixes from those caches, the parse loop, and merging, each against module JudgeMessages.
 */
module JudgeCodec {
  import opened Basics
  import opened Utf8
  import opened Wire
  import opened JudgeMessages

  // ----- sizes -----

  function RecordsSize(records: seq<Record>): nat {
    if records == [] then 0 else RecordSize(records[0]) + RecordsSize(records[1..])
  }

  lemma {:induction false} RecordsSizeIsLength(records: seq<Record>)
    ensures |Print(records)| == RecordsSize(records)
  {
    if records != [] {
      RecordSizeIsLength(records[0]);
      RecordsSizeIsLength(records[1..]);
    }
  }

  lemma {:induction false} RecordsSizeConcat(a: seq<Record>, b: seq<Record>)
    ensures RecordsSize(a + b) == RecordsSize(a) + RecordsSize(b)
  {
    if a == [] {
      assert a + b == b;
    } else {
      assert (a + b)[0] == a[0] && (a + b)[1..] == a[1..] + b;
      RecordsSizeConcat(a[1..], b);
    }
  }

  lemma OneRecord(r: Record)
    ensures RecordsSize([r]) == RecordSize(r) && Print([r]) == PrintRecord(r)
  {
    assert [r][1..] == [];
  }

  /** Fields below 16 have one-byte tags. */
  lemma SmallTag(r: Record)
    requires r.field < 16
    ensures RecordSize(r) == 1 + |PrintPayload(r)|
  {
    RecordSizeIsLength(r);
    assert |Base128(Tag(r))| == 1;
  }

  function Int32FieldSize(x: int): nat
    requires IsInt32(x)
  {
    if x == 0 then 0 else 1 + VarintSize(FromInt32(x))
  }

  lemma Int32FieldSizeIsRight(field: nat, x: int)
    requires IsInt32(x) && field < 16
    ensures RecordsSize(Int32Field(field, x)) == Int32FieldSize(x)
  {
    if x != 0 {
      OneRecord(Varint(field, FromInt32(x)));
      SmallTag(Varint(field, FromInt32(x)));
      VarintSizeIsLength(FromInt32(x));
    }
  }

  lemma StatusSize(m: Status)
    requires ValidStatus(m)
    ensures |StatusBytes(m)| ==
      Int32FieldSize(m.timeCost) + Int32FieldSize(m.memoryCost) + Int32FieldSize(m.result) + RecordsSize(m.unknown)
  {
    var f1, f2, f3 := Int32Field(1, m.timeCost), Int32Field(2, m.memoryCost), Int32Field(3, m.result);
    RecordsSizeIsLength(StatusRecords(m));
    RecordsSizeConcat(f1, f2 + (f3 + m.unknown));
    RecordsSizeConcat(f2, f3 + m.unknown);
    RecordsSizeConcat(f3, m.unknown);
    Int32FieldSizeIsRight(1, m.timeCost);
    Int32FieldSizeIsRight(2, m.memoryCost);
    Int32FieldSizeIsRight(3, m.result);
  }

  lemma PrintStatus(m: Status)
    requires ValidStatus(m)
    ensures StatusBytes(m) == Print(Int32Field(1, m.timeCost)) + Print(Int32Field(2, m.memoryCost)) +
                              Print(Int32Field(3, m.result)) + Print(m.unknown)
  {
    var f1, f2, f3 := Int32Field(1, m.timeCost), Int32Field(2, m.memoryCost), Int32Field(3, m.result);
    PrintConcat(f1, f2 + (f3 + m.unknown));
    PrintConcat(f2, f3 + m.unknown);
    PrintConcat(f3, m.unknown);
  }

  // ----- one step of the parse loops -----

  lemma ParseStatusStep(m: Status, bytes: seq<Byte>)
    requires bytes != []
    ensures var r := ReadRecord(bytes);
            ParseStatus(m, bytes) == if r.Bad? then None else ParseStatus(TakeIntoStatus(m, r.value), r.rest)
  {
    var r := ReadRecord(bytes);
    if r.Got? {
      var others := ReadAll(r.rest);
      if others.Got? {
        assert ([r.value] + others.value)[1..] == others.value;
      }
    }
  }

  lemma ParseFinishedStep(m: Finished, bytes: seq<Byte>)
    requires bytes != []
    ensures var r := ReadRecord(bytes);
            ParseFinished(m, bytes) ==
              if r.Bad? then None
              else
                var m' := TakeIntoFinished(m, r.value);
                if m'.None? then None else ParseFinished(m'.value, r.rest)
  {
    var r := ReadRecord(bytes);
    if r.Got? {
      var others := ReadAll(r.rest);
      if others.Got? {
        assert ([r.value] + others.value)[1..] == others.value;
      }
    }
  }

  /** A one-byte tag read off the front. */
  lemma ReadSmallTag(bytes: seq<Byte>)
    requires bytes != [] && bytes[0] < 128
    ensures ReadTag(bytes) == Got(bytes[0], bytes[1..])
  {
  }

  lemma ReadNested(bytes: seq<Byte>)
    requires bytes != [] && bytes[0] == 34
    ensures var data := ReadBytes(bytes[1..]);
            ReadRecord(bytes) == if data.Bad? then Bad else Got(Bytes(4, data.value), data.rest)
  {
    ReadSmallTag(bytes);
  }

  /** Parsing on from a nested message: it is parsed by itself and appended. */
  lemma ParseNestedStep(m: Finished, bytes: seq<Byte>)
    requires bytes != [] && bytes[0] == 34
    ensures var data := ReadBytes(bytes[1..]);
            ParseFinished(m, bytes) ==
              if data.Bad? then None
              else
                var status := ParseStatus(NO_STATUS, data.value);
                if status.None? then None
                else ParseFinished(m.(statuses := m.statuses + [status.value]), data.rest)
  {
    ReadNested(bytes);
    ParseFinishedStep(m, bytes);
  }

  lemma Regroup(t: seq<Byte>, a: seq<Byte>, b: seq<Byte>, c: seq<Byte>, d: seq<Byte>)
    ensures t + a + b + c + d == t + (a + b + c + d)
  {
  }

  lemma LeftNested(a: seq<Byte>, b: seq<Byte>, c: seq<Byte>, d: seq<Byte>, e: seq<Byte>)
    ensures a + (b + (c + (d + e))) == a + b + c + d + e
  {
    assert b + (c + (d + e)) == b + c + d + e;
    Regroup(a, b, c, d, e);
  }

  method WriteInt32(field: nat, x: int, target: seq<Byte>) returns (written: seq<Byte>)
    requires IsInt32(x)
    ensures written == target + Print(Int32Field(field, x))
  {
    written := target;
    if x != 0 {
      OneRecord(Varint(field, FromInt32(x)));
      written := written + PrintRecord(Varint(field, FromInt32(x)));
    }
  }

  // ----- SubmitStatus -----

  method StatusByteSize(m: Status) returns (size: nat)
    requires ValidStatus(m)
    ensures size == |StatusBytes(m)|
  {
    size := 0;
    if m.timeCost != 0 {
      size := size + 1 + VarintSize(FromInt32(m.timeCost));
    }
    if m.memoryCost != 0 {
      size := size + 1 + VarintSize(FromInt32(m.memoryCost));
    }
    if m.result != 0 {
      size := size + 1 + VarintSize(FromInt32(m.result));
    }
    size := size + RecordsSize(m.unknown);
    StatusSize(m);
  }

  method SerializeStatus(m: Status, target: seq<Byte>) returns (written: seq<Byte>)
    requires ValidStatus(m)
    ensures written == target + StatusBytes(m)
  {
    written := WriteInt32(1, m.timeCost, target);
    written := WriteInt32(2, m.memoryCost, written);
    written := WriteInt32(3, m.result, written);
    written := written + Print(m.unknown);
    PrintStatus(m);
    Regroup(target, Print(Int32Field(1, m.timeCost)), Print(Int32Field(2, m.memoryCost)),
            Print(Int32Field(3, m.result)), Print(m.unknown));
  }

  /** The parse loop: each record overwrites the field it belongs to or joins the unknown ones. */
  method ParseStatusLoop(into: Status, bytes: seq<Byte>) returns (ok: bool, m: Status)
    ensures ok <==> ParseStatus(into, bytes).Some?
    ensures ok ==> m == ParseStatus(into, bytes).value
  {
    m := into;
    var rest := bytes;
    while rest != []
      invariant ParseStatus(into, bytes) == ParseStatus(m, rest)
      decreases |rest|
    {
      ParseStatusStep(m, rest);
      var read := ReadRecord(rest);
      if read.Bad? { return false, m; }
      var record := read.value;
      if record.Varint? && record.field == 1 {
        m := m.(timeCost := ToInt32(record.value));
      } else if record.Varint? && record.field == 2 {
        m := m.(memoryCost := ToInt32(record.value));
      } else if record.Varint? && record.field == 3 {
        m := m.(result := ToInt32(record.value));
      } else {
        m := m.(unknown := m.unknown + [record]);
      }
      rest := read.rest;
    }
    ok := true;
  }

  // ----- the outer message: sizes and printing with cached length prefixes -----

  function NestedSize(size: nat): nat { VarintSize(size) + size }

  /** The printed nested messages. */
  function Bodies(statuses: seq<Status>): (r: seq<seq<Byte>>)
    requires forall i :: 0 <= i < |statuses| ==> ValidStatus(statuses[i])
    ensures |r| == |statuses| && forall i :: 0 <= i < |r| ==> r[i] == StatusBytes(statuses[i])
  {
    if statuses == [] then [] else [StatusBytes(statuses[0])] + Bodies(statuses[1..])
  }

  function NestedFields(bodies: seq<seq<Byte>>): seq<Record> {
    if bodies == [] then [] else NestedFields(bodies[..|bodies| - 1]) + [Bytes(4, bodies[|bodies| - 1])]
  }

  /** Total payload size of the nested messages, without their one-byte tags. */
  function NestedSizes(bodies: seq<seq<Byte>>): nat {
    if bodies == [] then 0 else NestedSizes(bodies[..|bodies| - 1]) + NestedSize(|bodies[|bodies| - 1]|)
  }

  lemma {:induction false} NestedFieldsCons(body: seq<Byte>, bodies: seq<seq<Byte>>)
    ensures NestedFields([body] + bodies) == [Bytes(4, body)] + NestedFields(bodies)
  {
    var all := [body] + bodies;
    if bodies == [] {
      assert all[..0] == [];
    } else {
      var n := |bodies| - 1;
      assert all[..|all| - 1] == [body] + bodies[..n];
      NestedFieldsCons(body, bodies[..n]);
    }
  }

  lemma {:induction false} FieldsOfBodies(statuses: seq<Status>)
    requires forall i :: 0 <= i < |statuses| ==> ValidStatus(statuses[i])
    ensures StatusFields(statuses) == NestedFields(Bodies(statuses))
  {
    if statuses != [] {
      FieldsOfBodies(statuses[1..]);
      NestedFieldsCons(StatusBytes(statuses[0]), Bodies(statuses[1..]));
    }
  }

  lemma NestedFieldSize(body: seq<Byte>)
    ensures RecordsSize([Bytes(4, body)]) == 1 + NestedSize(|body|)
  {
    OneRecord(Bytes(4, body));
    SmallTag(Bytes(4, body));
    VarintSizeIsLength(|body|);
  }

  lemma {:induction false} NestedSizesRight(bodies: seq<seq<Byte>>)
    ensures RecordsSize(NestedFields(bodies)) == |bodies| + NestedSizes(bodies)
  {
    if bodies != [] {
      var n := |bodies| - 1;
      NestedSizesRight(bodies[..n]);
      RecordsSizeConcat(NestedFields(bodies[..n]), [Bytes(4, bodies[n])]);
      NestedFieldSize(bodies[n]);
    }
  }

  function UInt32FieldSize(x: nat): nat { if x == 0 then 0 else 1 + VarintSize(x) }

  function StringFieldSize(s: seq<Byte>): nat { if s == [] then 0 else 1 + NestedSize(|s|) }

  lemma ScalarFieldSizes(field: nat, x: nat, s: seq<Byte>)
    requires field < 16
    ensures RecordsSize(UInt32Field(field, x)) == UInt32FieldSize(x)
    ensures RecordsSize(StringField(field, s)) == StringFieldSize(s)
  {
    OneRecord(Varint(field, x));
    SmallTag(Varint(field, x));
    VarintSizeIsLength(x);
    OneRecord(Bytes(field, s));
    SmallTag(Bytes(field, s));
    VarintSizeIsLength(|s|);
  }

  lemma FinishedSize(m: Finished)
    requires ValidFinished(m)
    ensures |FinishedBytes(m)| ==
      |m.statuses| + NestedSizes(Bodies(m.statuses)) + StringFieldSize(m.questionId) +
      UInt32FieldSize(m.submissionId) + UInt32FieldSize(m.userId) + RecordsSize(m.unknown)
  {
    var f1, f2, f3, f4 := UInt32Field(1, m.submissionId), StringField(2, m.questionId),
                          UInt32Field(3, m.userId), StatusFields(m.statuses);
    RecordsSizeIsLength(FinishedRecords(m));
    RecordsSizeConcat(f1, f2 + (f3 + (f4 + m.unknown)));
    RecordsSizeConcat(f2, f3 + (f4 + m.unknown));
    RecordsSizeConcat(f3, f4 + m.unknown);
    RecordsSizeConcat(f4, m.unknown);
    ScalarFieldSizes(1, m.submissionId, []);
    ScalarFieldSizes(2, 0, m.questionId);
    ScalarFieldSizes(3, m.userId, []);
    FieldsOfBodies(m.statuses);
    NestedSizesRight(Bodies(m.statuses));
  }

  /** The single fields, each counted only if it differs from its default. */
  method AddFieldSizes(total: nat, questionId: seq<Byte>, submissionId: nat, userId: nat) returns (size: nat)
    ensures size == total + StringFieldSize(questionId) + UInt32FieldSize(submissionId) + UInt32FieldSize(userId)
  {
    size := total;
    if questionId != [] {
      size := size + 1 + NestedSize(|questionId|);
    }
    if submissionId != 0 {
      size := size + 1 + VarintSize(submissionId);
    }
    if userId != 0 {
      size := size + 1 + VarintSize(userId);
    }
  }

  /** A nested message as it is written: tag 34, the cached size, the message's own bytes. */
  function PrintNested(size: nat, body: seq<Byte>): seq<Byte> {
    Base128(34) + Base128(size) + body
  }

  function PrintAllNested(sizes: seq<nat>, bodies: seq<seq<Byte>>): seq<Byte>
    requires |sizes| == |bodies|
  {
    if bodies == [] then []
    else
      var n := |bodies| - 1;
      PrintAllNested(sizes[..n], bodies[..n]) + PrintNested(sizes[n], bodies[n])
  }

  /** What serialization writes, given the cached sizes it finds. */
  function PrintWithCaches(sizes: seq<nat>, m: Finished): seq<Byte>
    requires ValidFinished(m) && |sizes| == |m.statuses|
  {
    Print(UInt32Field(1, m.submissionId)) + Print(StringField(2, m.questionId)) +
    Print(UInt32Field(3, m.userId)) + PrintAllNested(sizes, Bodies(m.statuses)) + Print(m.unknown)
  }

  ghost predicate CachesRight(sizes: seq<nat>, bodies: seq<seq<Byte>>) {
    |sizes| == |bodies| && forall i :: 0 <= i < |bodies| ==> sizes[i] == |bodies[i]|
  }

  lemma NestedIsField(body: seq<Byte>)
    ensures PrintNested(|body|, body) == Print([Bytes(4, body)])
  {
    OneRecord(Bytes(4, body));
    assert Base128(34) + Base128(|body|) + body == Base128(34) + (Base128(|body|) + body);
  }

  lemma {:induction false} NestedWithRightCaches(sizes: seq<nat>, bodies: seq<seq<Byte>>)
    requires CachesRight(sizes, bodies)
    ensures PrintAllNested(sizes, bodies) == Print(NestedFields(bodies))
  {
    if bodies != [] {
      var n := |bodies| - 1;
      NestedWithRightCaches(sizes[..n], bodies[..n]);
      PrintConcat(NestedFields(bodies[..n]), [Bytes(4, bodies[n])]);
      NestedIsField(bodies[n]);
    }
  }

  lemma PrintFinished(m: Finished)
    requires ValidFinished(m)
    ensures FinishedBytes(m) == Print(UInt32Field(1, m.submissionId)) + Print(StringField(2, m.questionId)) +
                                Print(UInt32Field(3, m.userId)) + Print(StatusFields(m.statuses)) + Print(m.unknown)
  {
    var f1, f2, f3, f4 := UInt32Field(1, m.submissionId), StringField(2, m.questionId),
                          UInt32Field(3, m.userId), StatusFields(m.statuses);
    PrintConcat(f1, f2 + (f3 + (f4 + m.unknown)));
    PrintConcat(f2, f3 + (f4 + m.unknown));
    PrintConcat(f3, f4 + m.unknown);
    PrintConcat(f4, m.unknown);
    LeftNested(Print(f1), Print(f2), Print(f3), Print(f4), Print(m.unknown));
  }

  /** With the sizes ByteSizeLong caches, serialization prints the message. */
  lemma RightCachesPrintTheMessage(sizes: seq<nat>, m: Finished)
    requires ValidFinished(m) && CachesRight(sizes, Bodies(m.statuses))
    ensures PrintWithCaches(sizes, m) == FinishedBytes(m)
  {
    NestedWithRightCaches(sizes, Bodies(m.statuses));
    FieldsOfBodies(m.statuses);
    PrintFinished(m);
  }

  method WriteUInt32(field: nat, x: nat, target: seq<Byte>) returns (written: seq<Byte>)
    ensures written == target + Print(UInt32Field(field, x))
  {
    written := target;
    if x != 0 {
      OneRecord(Varint(field, x));
      written := written + PrintRecord(Varint(field, x));
    }
  }

  method WriteString(field: nat, text: seq<Byte>, target: seq<Byte>) returns (written: seq<Byte>)
    ensures written == target + Print(StringField(field, text))
  {
    written := target;
    if text != [] {
      OneRecord(Bytes(field, text));
      written := written + PrintRecord(Bytes(field, text));
    }
  }

  /** A JudgeFinishedRequest object. Its nested messages are owned by their list and so are values
      here; `caches` holds the size each of them has cached. */
  class FinishedMessage {
    var submissionId: nat
    var questionId: seq<Byte>
    var userId: nat
    var statuses: seq<Status>
    var caches: seq<nat>
    var unknown: seq<Record>
    var cachedSize: nat

    ghost function View(): Finished
      reads this
    {
      Finished(submissionId, questionId, userId, statuses, unknown)
    }

    ghost predicate Valid()
      reads this
    {
      |caches| == |statuses|
    }

    constructor ()
      ensures Valid() && View() == NOT_FINISHED && cachedSize == 0
    {
      submissionId, questionId, userId, unknown := 0, [], 0, [];
      statuses, caches, cachedSize := [], [], 0;
    }

    /** Computes the printed size and leaves every nested message with its own size cached. */
    method ByteSizeLong() returns (size: nat)
      requires Valid() && ValidFinished(View())
      modifies this`cachedSize, this`caches
      ensures Valid()
      ensures size == cachedSize == |FinishedBytes(View())|
      ensures CachesRight(caches, Bodies(statuses))
    {
      ghost var m := View();
      FinishedSize(m);
      size, caches := SizeNested(statuses);
      size := AddFieldSizes(size, questionId, submissionId, userId);
      size := size + RecordsSize(unknown);
      cachedSize := size;
      assert View() == m;
    }

    /** Prints the fields in order; nested length prefixes come from the cached sizes. */
    method Serialize(target: seq<Byte>) returns (written: seq<Byte>)
      requires Valid() && ValidFinished(View())
      ensures written == target + PrintWithCaches(caches, View())
    {
      written := WriteUInt32(1, submissionId, target);
      written := WriteString(2, questionId, written);
      written := WriteUInt32(3, userId, written);
      written := WriteNested(caches, statuses, written);
      written := written + Print(unknown);
      RegroupFive(target, Print(UInt32Field(1, submissionId)), Print(StringField(2, questionId)),
                  Print(UInt32Field(3, userId)), PrintAllNested(caches, Bodies(statuses)), Print(unknown));
    }

    /** The library's order of calls: size first, which fills the caches, then print. */
    method SerializeToBytes() returns (bytes: seq<Byte>)
      requires Valid() && ValidFinished(View())
      modifies this`cachedSize, this`caches
      ensures Valid()
      ensures bytes == FinishedBytes(View()) && |bytes| == cachedSize
    {
      var size := ByteSizeLong();
      bytes := Serialize([]);
      RightCachesPrintTheMessage(caches, View());
    }

    method MergeFrom(from: FinishedMessage)
      requires from != this && Valid() && from.Valid()
      modifies this
      ensures Valid() && View() == MergeFinished(old(View()), from.View())
    {
      statuses := statuses + from.statuses;
      caches := caches + from.caches;
      if from.questionId != [] {
        questionId := from.questionId;
      }
      if from.submissionId != 0 {
        submissionId := from.submissionId;
      }
      if from.userId != 0 {
        userId := from.userId;
      }
      unknown := unknown + from.unknown;
    }

    /** The parse loop. Consecutive nested messages are taken in an inner loop that recognises the
        one-byte tag 34 without going back to the tag switch. */
    method Parse(bytes: seq<Byte>) returns (ok: bool)
      requires Valid()
      modifies this`submissionId, this`questionId, this`userId, this`statuses, this`caches, this`unknown
      ensures Valid()
      ensures ok <==> ParseFinished(old(View()), bytes).Some?
      ensures ok ==> View() == ParseFinished(old(View()), bytes).value
    {
      var rest := bytes;
      while rest != []
        invariant Valid() && ParseFinished(old(View()), bytes) == ParseFinished(View(), rest)
        decreases |rest|
      {
        ghost var before := |rest|;
        ok, rest := TakeRecord(rest);
        if !ok { return false; }
        while rest != [] && rest[0] == 34
          invariant Valid() && |rest| < before
          invariant ParseFinished(old(View()), bytes) == ParseFinished(View(), rest)
          decreases |rest|
        {
          ok, rest := TakeStatus(rest);
          if !ok { return false; }
        }
      }
      ok := true;
    }

    /** One pass of the tag switch. */
    method TakeRecord(bytes: seq<Byte>) returns (ok: bool, rest: seq<Byte>)
      requires Valid() && bytes != []
      modifies this`submissionId, this`questionId, this`userId, this`statuses, this`caches, this`unknown
      ensures Valid()
      ensures !ok ==> ParseFinished(old(View()), bytes) == None
      ensures ok ==> |rest| < |bytes| && ParseFinished(old(View()), bytes) == ParseFinished(View(), rest)
    {
      ParseFinishedStep(View(), bytes);
      var read := ReadRecord(bytes);
      if read.Bad? { return false, []; }
      var record := read.value;
      rest := read.rest;
      ok := true;
      if record.Varint? && record.field == 1 {
        submissionId := record.value % UINT32;
      } else if record.Bytes? && record.field == 2 {
        ok := ValidUtf8(record.data);
        if ok {
          questionId := record.data;
        }
      } else if record.Varint? && record.field == 3 {
        userId := record.value % UINT32;
      } else if record.Bytes? && record.field == 4 {
        var status;
        ok, status := ParseStatusLoop(NO_STATUS, record.data);
        if ok {
          statuses, caches := statuses + [status], caches + [0];
        }
      } else {
        unknown := unknown + [record];
      }
    }

    /** The inner loop's body: skip the tag byte and parse the nested message that follows. */
    method TakeStatus(bytes: seq<Byte>) returns (ok: bool, rest: seq<Byte>)
      requires Valid() && bytes != [] && bytes[0] == 34
      modifies this`statuses, this`caches
      ensures Valid()
      ensures !ok ==> ParseFinished(old(View()), bytes) == None
      ensures ok ==> |rest| < |bytes| && ParseFinished(old(View()), bytes) == ParseFinished(View(), rest)
    {
      ParseNestedStep(View(), bytes);
      var data := ReadBytes(bytes[1..]);
      if data.Bad? { return false, []; }
      var status;
      ok, status := ParseStatusLoop(NO_STATUS, data.value);
      rest := data.rest;
      if ok {
        statuses, caches := statuses + [status], caches + [0];
      }
    }
  }

  /** Sizes every nested message: the total with tags and length prefixes, and the size each caches. */
  method SizeNested(statuses: seq<Status>) returns (total: nat, sizes: seq<nat>)
    requires forall i :: 0 <= i < |statuses| ==> ValidStatus(statuses[i])
    ensures total == |statuses| + NestedSizes(Bodies(statuses))
    ensures CachesRight(sizes, Bodies(statuses))
  {
    total, sizes := |statuses|, [];
    ghost var bodies := Bodies(statuses);
    var i := 0;
    while i < |statuses|
      invariant 0 <= i <= |statuses|
      invariant total == |statuses| + NestedSizes(bodies[..i])
      invariant CachesRight(sizes, bodies[..i])
    {
      var nested := StatusByteSize(statuses[i]);
      sizes := sizes + [nested];
      NestedSizesSnoc(bodies, i);
      CachesSnoc(sizes[..i], bodies, i);
      assert sizes == sizes[..i] + [nested];
      total := total + NestedSize(nested);
      i := i + 1;
    }
    assert bodies[..i] == bodies;
  }

  /** Writes every nested message behind its tag and its cached size. */
  method WriteNested(sizes: seq<nat>, statuses: seq<Status>, target: seq<Byte>) returns (written: seq<Byte>)
    requires |sizes| == |statuses| && forall i :: 0 <= i < |statuses| ==> ValidStatus(statuses[i])
    ensures written == target + PrintAllNested(sizes, Bodies(statuses))
  {
    written := target;
    ghost var bodies := Bodies(statuses);
    var i := 0;
    while i < |statuses|
      invariant 0 <= i <= |statuses|
      invariant written == target + PrintAllNested(sizes[..i], bodies[..i])
    {
      NestedSnoc(sizes, bodies, i);
      AppendNested(target, PrintAllNested(sizes[..i], bodies[..i]), sizes[i], bodies[i]);
      written := written + Base128(34);
      written := written + Base128(sizes[i]);
      written := SerializeStatus(statuses[i], written);
      i := i + 1;
    }
    assert sizes[..i] == sizes && bodies[..i] == bodies;
  }

  lemma RegroupFive(t: seq<Byte>, a: seq<Byte>, b: seq<Byte>, c: seq<Byte>, d: seq<Byte>, e: seq<Byte>)
    ensures t + a + b + c + d + e == t + (a + b + c + d + e)
  {
    Regroup(t, a, b, c, d);
  }

  lemma NestedSizesSnoc(bodies: seq<seq<Byte>>, i: nat)
    requires i < |bodies|
    ensures NestedSizes(bodies[..i + 1]) == NestedSizes(bodies[..i]) + NestedSize(|bodies[i]|)
  {
    assert bodies[..i + 1][..i] == bodies[..i];
  }

  lemma CachesSnoc(sizes: seq<nat>, bodies: seq<seq<Byte>>, i: nat)
    requires i < |bodies| && CachesRight(sizes, bodies[..i])
    ensures CachesRight(sizes + [|bodies[i]|], bodies[..i + 1])
  {
  }

  lemma NestedSnoc(sizes: seq<nat>, bodies: seq<seq<Byte>>, i: nat)
    requires |sizes| == |bodies| && i < |bodies|
    ensures PrintAllNested(sizes[..i + 1], bodies[..i + 1])
         == PrintAllNested(sizes[..i], bodies[..i]) + PrintNested(sizes[i], bodies[i])
  {
    assert sizes[..i + 1][..i] == sizes[..i] && bodies[..i + 1][..i] == bodies[..i];
  }

  lemma AppendNested(before: seq<Byte>, done: seq<Byte>, size: nat, body: seq<Byte>)
    ensures before + done + Base128(34) + Base128(size) + body == before + (done + PrintNested(size, body))
  {
    var a, b := Base128(34), Base128(size);
    Regroup(before, done, a, b, body);
    assert done + a + b + body == done + (a + b + body);
  }

  // ----- the layout of the two messages -----

  /** A varint field below 16: one tag byte, which the wire type leaves as it is, and the number. */
  function NumberAt(tag: Byte, v: nat): seq<Byte> { if v == 0 then [] else [tag] + Base128(v) }

  /** A length-delimited field below 16. */
  function TextAt(tag: Byte, text: seq<Byte>): seq<Byte> { if text == [] then [] else [tag] + Base128(|text|) + text }

  lemma OneTag(r: Record)
    requires r.field < 16
    ensures Print([r]) == [Tag(r)] + PrintPayload(r)
  {
    OneRecord(r);
  }

  lemma NumberIsAt(field: nat, v: nat)
    requires 1 <= field < 16
    ensures Print(UInt32Field(field, v)) == NumberAt(8 * field, v)
  {
    if v != 0 {
      OneTag(Varint(field, v));
    }
  }

  lemma TextIsAt(field: nat, text: seq<Byte>)
    requires 1 <= field < 16
    ensures Print(StringField(field, text)) == TextAt(8 * field + 2, text)
  {
    if text != [] {
      OneTag(Bytes(field, text));
      assert [8 * field + 2] + (Base128(|text|) + text) == [8 * field + 2] + Base128(|text|) + text;
    }
  }

  /** time_cost under tag byte 8, memory_cost under 16 and result under 24, each the two's complement of the value
      in 64 bits and left out if zero. */
  lemma StatusLayout(m: Status)
    requires ValidStatus(m)
    ensures StatusBytes(m) == NumberAt(8, m.timeCost % UINT64) + NumberAt(16, m.memoryCost % UINT64) +
                              NumberAt(24, m.result % UINT64) + Print(m.unknown)
  {
    PrintStatus(m);
    SignedIsAt(1, m.timeCost);
    SignedIsAt(2, m.memoryCost);
    SignedIsAt(3, m.result);
  }

  lemma SignedIsAt(field: nat, x: int)
    requires 1 <= field < 16 && IsInt32(x)
    ensures Print(Int32Field(field, x)) == NumberAt(8 * field, x % UINT64)
  {
    assert x % UINT64 == FromInt32(x);
    NumberIsAt(field, FromInt32(x));
  }

  /** The nested messages one after the other, each under tag byte 34 with its own length. */
  function NestedAt(statuses: seq<Status>): seq<Byte>
    requires forall i :: 0 <= i < |statuses| ==> ValidStatus(statuses[i])
  {
    if statuses == [] then []
    else
      var body := StatusBytes(statuses[0]);
      [34] + Base128(|body|) + body + NestedAt(statuses[1..])
  }

  lemma {:induction false} NestedIsAt(statuses: seq<Status>)
    requires forall i :: 0 <= i < |statuses| ==> ValidStatus(statuses[i])
    ensures Print(StatusFields(statuses)) == NestedAt(statuses)
  {
    if statuses != [] {
      var body, rest := StatusBytes(statuses[0]), StatusFields(statuses[1..]);
      NestedIsAt(statuses[1..]);
      PrintConcat([Bytes(4, body)], rest);
      OneTag(Bytes(4, body));
      assert [34] + (Base128(|body|) + body) == [34] + Base128(|body|) + body;
    }
  }

  /** submission_id under tag byte 8, question_id under 18, user_id under 24, then the nested messages. */
  lemma FinishedLayout(m: Finished)
    requires ValidFinished(m)
    ensures FinishedBytes(m) == NumberAt(8, m.submissionId) + TextAt(18, m.questionId) + NumberAt(24, m.userId) +
                                NestedAt(m.statuses) + Print(m.unknown)
  {
    PrintFinished(m);
    NumberIsAt(1, m.submissionId);
    TextIsAt(2, m.questionId);
    NumberIsAt(3, m.userId);
    NestedIsAt(m.statuses);
  }
}
