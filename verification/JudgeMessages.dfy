/**
 SubmitStatus and JudgeFinishedRequest as values: the records they print, how a parser folds records
 into them, and the laws between printing, parsing and merging. Fields a message does not define are
 kept, in order, in `unknown`.
 */
module JudgeMessages {
  import opened Basics
  import opened Utf8
  import opened Wire

  datatype Status = Status(timeCost: int, memoryCost: int, result: int, unknown: seq<Record>)

  datatype Finished = Finished(
    submissionId: nat, questionId: seq<Byte>, userId: nat, statuses: seq<Status>, unknown: seq<Record>)

  const NO_STATUS := Status(0, 0, 0, [])
  const NOT_FINISHED := Finished(0, [], 0, [], [])

  lemma HeadOver<T>(a: seq<T>, b: seq<T>)
    requires b != []
    ensures a + [b[0]] + b[1..] == a + b
  {
  }

  // ----- integers on the wire -----

  predicate IsInt32(x: int) { -0x8000_0000 <= x < 0x8000_0000 }

  /** int32 and enum values are sign-extended to 64 bits. */
  function FromInt32(x: int): (v: nat)
    requires IsInt32(x)
    ensures v < UINT64
  {
    if x < 0 then x + UINT64 else x
  }

  function ToInt32(v: nat): (x: int)
    ensures IsInt32(x)
  {
    var w := v % UINT32;
    if w >= 0x8000_0000 then w - UINT32 else w
  }

  lemma Int32RoundTrip(x: int)
    requires IsInt32(x)
    ensures ToInt32(FromInt32(x)) == x
  {
    if x < 0 {
      assert (x + UINT64) % UINT32 == x + UINT32;
    }
  }

  // ----- SubmitStatus -----

  predicate KnownToStatus(r: Record) { r.Varint? && 1 <= r.field <= 3 }

  ghost predicate ValidStatus(m: Status) {
    && IsInt32(m.timeCost) && IsInt32(m.memoryCost) && IsInt32(m.result)
    && forall i :: 0 <= i < |m.unknown| ==> Valid(m.unknown[i]) && !KnownToStatus(m.unknown[i])
  }

  function Int32Field(field: nat, x: int): seq<Record>
    requires IsInt32(x)
  {
    if x == 0 then [] else [Varint(field, FromInt32(x))]
  }

  function StatusRecords(m: Status): seq<Record>
    requires ValidStatus(m)
  {
    Int32Field(1, m.timeCost) + (Int32Field(2, m.memoryCost) + (Int32Field(3, m.result) + m.unknown))
  }

  function StatusBytes(m: Status): seq<Byte>
    requires ValidStatus(m)
  {
    Print(StatusRecords(m))
  }

  function TakeIntoStatus(m: Status, r: Record): Status {
    if r.Varint? && r.field == 1 then m.(timeCost := ToInt32(r.value))
    else if r.Varint? && r.field == 2 then m.(memoryCost := ToInt32(r.value))
    else if r.Varint? && r.field == 3 then m.(result := ToInt32(r.value))
    else m.(unknown := m.unknown + [r])
  }

  function FoldStatus(m: Status, records: seq<Record>): Status
    decreases |records|
  {
    if records == [] then m else FoldStatus(TakeIntoStatus(m, records[0]), records[1..])
  }

  function ParseStatus(into: Status, bytes: seq<Byte>): Option<Status> {
    var r := ReadAll(bytes);
    if r.Bad? then None else Some(FoldStatus(into, r.value))
  }

  function MergeStatus(to: Status, from: Status): Status {
    Status(if from.timeCost != 0 then from.timeCost else to.timeCost,
           if from.memoryCost != 0 then from.memoryCost else to.memoryCost,
           if from.result != 0 then from.result else to.result,
           to.unknown + from.unknown)
  }

  lemma {:induction false} FoldStatusConcat(m: Status, a: seq<Record>, b: seq<Record>)
    ensures FoldStatus(m, a + b) == FoldStatus(FoldStatus(m, a), b)
    decreases |a|
  {
    if a == [] {
      assert a + b == b;
    } else {
      assert (a + b)[0] == a[0] && (a + b)[1..] == a[1..] + b;
      FoldStatusConcat(TakeIntoStatus(m, a[0]), a[1..], b);
    }
  }

  lemma {:induction false} FoldUnknownStatus(m: Status, records: seq<Record>)
    requires forall i :: 0 <= i < |records| ==> !KnownToStatus(records[i])
    ensures FoldStatus(m, records) == m.(unknown := m.unknown + records)
    decreases |records|
  {
    if records == [] {
      assert m.unknown + records == m.unknown;
    } else {
      FoldUnknownStatus(TakeIntoStatus(m, records[0]), records[1..]);
      HeadOver(m.unknown, records);
    }
  }

  lemma FoldInt32Field(m: Status, field: nat, x: int)
    requires IsInt32(x) && 1 <= field <= 3
    ensures FoldStatus(m, Int32Field(field, x)) ==
      if x == 0 then m
      else if field == 1 then m.(timeCost := x)
      else if field == 2 then m.(memoryCost := x)
      else m.(result := x)
  {
    Int32RoundTrip(x);
    if x != 0 {
      var r := Varint(field, FromInt32(x));
      assert [r][1..] == [];
      assert FoldStatus(m, [r]) == FoldStatus(TakeIntoStatus(m, r), []);
    }
  }

  /** Folding a message's records into any message is merging the message into it. */
  lemma FoldOwnStatus(to: Status, m: Status)
    requires ValidStatus(m)
    ensures FoldStatus(to, StatusRecords(m)) == MergeStatus(to, m)
  {
    var f1, f2, f3 := Int32Field(1, m.timeCost), Int32Field(2, m.memoryCost), Int32Field(3, m.result);
    FoldStatusConcat(to, f1, f2 + (f3 + m.unknown));
    FoldInt32Field(to, 1, m.timeCost);
    var to1 := FoldStatus(to, f1);
    FoldStatusConcat(to1, f2, f3 + m.unknown);
    FoldInt32Field(to1, 2, m.memoryCost);
    var to2 := FoldStatus(to1, f2);
    FoldStatusConcat(to2, f3, m.unknown);
    FoldInt32Field(to2, 3, m.result);
    FoldUnknownStatus(FoldStatus(to2, f3), m.unknown);
  }

  lemma StatusRecordsValid(m: Status)
    requires ValidStatus(m)
    ensures forall i :: 0 <= i < |StatusRecords(m)| ==> Valid(StatusRecords(m)[i])
  {
  }

  /** Parsing a printed status on top of any other is merging the two. */
  lemma ParsePrintedStatus(to: Status, m: Status)
    requires ValidStatus(m)
    ensures ParseStatus(to, StatusBytes(m)) == Some(MergeStatus(to, m))
  {
    StatusRecordsValid(m);
    ReadAllOfPrint(StatusRecords(m));
    FoldOwnStatus(to, m);
  }

  lemma StatusRoundTrip(m: Status)
    requires ValidStatus(m)
    ensures ParseStatus(NO_STATUS, StatusBytes(m)) == Some(m)
  {
    ParsePrintedStatus(NO_STATUS, m);
    assert [] + m.unknown == m.unknown;
  }

  lemma StatusConcatIsMerge(a: Status, b: Status)
    requires ValidStatus(a) && ValidStatus(b)
    ensures ParseStatus(NO_STATUS, StatusBytes(a) + StatusBytes(b)) == Some(MergeStatus(a, b))
  {
    var ra, rb := StatusRecords(a), StatusRecords(b);
    StatusRecordsValid(a);
    StatusRecordsValid(b);
    PrintConcat(ra, rb);
    ReadAllOfPrint(ra + rb);
    FoldStatusConcat(NO_STATUS, ra, rb);
    FoldOwnStatus(NO_STATUS, a);
    FoldOwnStatus(MergeStatus(NO_STATUS, a), b);
    assert [] + a.unknown == a.unknown;
    assert MergeStatus(NO_STATUS, a) == a;
  }

  // ----- JudgeFinishedRequest -----

  predicate KnownToFinished(r: Record) {
    (r.Varint? && (r.field == 1 || r.field == 3)) || (r.Bytes? && (r.field == 2 || r.field == 4))
  }

  ghost predicate ValidFinished(m: Finished) {
    && m.submissionId < UINT32 && m.userId < UINT32 && |m.questionId| <= MAX_LENGTH
    && (forall i :: 0 <= i < |m.statuses| ==> ValidStatus(m.statuses[i]) && |StatusBytes(m.statuses[i])| <= MAX_LENGTH)
    && (forall i :: 0 <= i < |m.unknown| ==> Valid(m.unknown[i]) && !KnownToFinished(m.unknown[i]))
  }

  function UInt32Field(field: nat, x: nat): seq<Record> {
    if x == 0 then [] else [Varint(field, x)]
  }

  function StringField(field: nat, s: seq<Byte>): seq<Record> {
    if s == [] then [] else [Bytes(field, s)]
  }

  function StatusFields(statuses: seq<Status>): seq<Record>
    requires forall i :: 0 <= i < |statuses| ==> ValidStatus(statuses[i])
  {
    if statuses == [] then [] else [StatusField(statuses[0])] + StatusFields(statuses[1..])
  }

  function FinishedRecords(m: Finished): seq<Record>
    requires ValidFinished(m)
  {
    UInt32Field(1, m.submissionId) +
    (StringField(2, m.questionId) + (UInt32Field(3, m.userId) + (StatusFields(m.statuses) + m.unknown)))
  }

  function FinishedBytes(m: Finished): seq<Byte>
    requires ValidFinished(m)
  {
    Print(FinishedRecords(m))
  }

  /** None: the record is refused, and with it the whole message. */
  function TakeIntoFinished(m: Finished, r: Record): Option<Finished> {
    if r.Varint? && r.field == 1 then Some(m.(submissionId := r.value % UINT32))
    else if r.Bytes? && r.field == 2 then
      (if ValidUtf8(r.data) then Some(m.(questionId := r.data)) else None)
    else if r.Varint? && r.field == 3 then Some(m.(userId := r.value % UINT32))
    else if r.Bytes? && r.field == 4 then
      var s := ParseStatus(NO_STATUS, r.data);
      (if s.None? then None else Some(m.(statuses := m.statuses + [s.value])))
    else Some(m.(unknown := m.unknown + [r]))
  }

  function FoldFinished(m: Finished, records: seq<Record>): Option<Finished>
    decreases |records|
  {
    if records == [] then Some(m)
    else
      var m' := TakeIntoFinished(m, records[0]);
      if m'.None? then None else FoldFinished(m'.value, records[1..])
  }

  function ParseFinished(into: Finished, bytes: seq<Byte>): Option<Finished> {
    var r := ReadAll(bytes);
    if r.Bad? then None else FoldFinished(into, r.value)
  }

  function MergeFinished(to: Finished, from: Finished): Finished {
    Finished(if from.submissionId != 0 then from.submissionId else to.submissionId,
             if from.questionId != [] then from.questionId else to.questionId,
             if from.userId != 0 then from.userId else to.userId,
             to.statuses + from.statuses, to.unknown + from.unknown)
  }

  lemma {:induction false} FoldFinishedConcat(m: Finished, a: seq<Record>, b: seq<Record>)
    ensures FoldFinished(m, a + b) ==
      var first := FoldFinished(m, a);
      if first.None? then None else FoldFinished(first.value, b)
    decreases |a|
  {
    if a == [] {
      assert a + b == b;
    } else {
      assert (a + b)[0] == a[0] && (a + b)[1..] == a[1..] + b;
      var m' := TakeIntoFinished(m, a[0]);
      if m'.Some? {
        FoldFinishedConcat(m'.value, a[1..], b);
      }
    }
  }

  lemma {:induction false} FoldUnknownFinished(m: Finished, records: seq<Record>)
    requires forall i :: 0 <= i < |records| ==> !KnownToFinished(records[i])
    ensures FoldFinished(m, records) == Some(m.(unknown := m.unknown + records))
    decreases |records|
  {
    if records == [] {
      assert m.unknown + records == m.unknown;
    } else {
      FoldUnknownFinished(m.(unknown := m.unknown + [records[0]]), records[1..]);
      HeadOver(m.unknown, records);
    }
  }

  lemma FoldOneFinished(m: Finished, r: Record)
    ensures FoldFinished(m, [r]) == TakeIntoFinished(m, r)
  {
    assert [r][1..] == [];
  }

  function StatusField(s: Status): Record
    requires ValidStatus(s)
  {
    Bytes(4, StatusBytes(s))
  }

  lemma FoldOneStatus(m: Finished, s: Status)
    requires ValidStatus(s)
    ensures FoldFinished(m, [StatusField(s)]) == Some(m.(statuses := m.statuses + [s]))
  {
    StatusRoundTrip(s);
    FoldOneFinished(m, StatusField(s));
  }

  lemma FoldNextStatus(m: Finished, s: Status, records: seq<Record>)
    requires ValidStatus(s)
    ensures FoldFinished(m, [StatusField(s)] + records) == FoldFinished(m.(statuses := m.statuses + [s]), records)
  {
    FoldOneStatus(m, s);
    FoldFinishedConcat(m, [StatusField(s)], records);
  }

  lemma {:induction false} FoldStatusFields(m: Finished, statuses: seq<Status>)
    requires forall i :: 0 <= i < |statuses| ==> ValidStatus(statuses[i])
    ensures FoldFinished(m, StatusFields(statuses)) == Some(m.(statuses := m.statuses + statuses))
    decreases |statuses|
  {
    if statuses == [] {
      assert m.statuses + statuses == m.statuses;
    } else {
      var m' := m.(statuses := m.statuses + [statuses[0]]);
      var fields := StatusFields(statuses[1..]);
      assert StatusFields(statuses) == [StatusField(statuses[0])] + fields;
      assert FoldFinished(m, StatusFields(statuses)) == FoldFinished(m', fields) by {
        FoldNextStatus(m, statuses[0], fields);
      }
      FoldStatusFields(m', statuses[1..]);
      HeadOver(m.statuses, statuses);
    }
  }

  /** The two integer fields and the string, each folded by itself. */
  lemma FoldScalarFields(to: Finished, id: nat, question: seq<Byte>, user: nat)
    requires id < UINT32 && user < UINT32
    ensures FoldFinished(to, UInt32Field(1, id)) == Some(if id == 0 then to else to.(submissionId := id))
    ensures FoldFinished(to, StringField(2, question)) ==
            if question == [] then Some(to)
            else if ValidUtf8(question) then Some(to.(questionId := question)) else None
    ensures FoldFinished(to, UInt32Field(3, user)) == Some(if user == 0 then to else to.(userId := user))
  {
    FoldOneFinished(to, Varint(1, id));
    FoldOneFinished(to, Bytes(2, question));
    FoldOneFinished(to, Varint(3, user));
  }

  lemma FoldListsFinished(to: Finished, m: Finished)
    requires ValidFinished(m)
    ensures FoldFinished(to, StatusFields(m.statuses) + m.unknown)
         == Some(to.(statuses := to.statuses + m.statuses, unknown := to.unknown + m.unknown))
  {
    FoldFinishedConcat(to, StatusFields(m.statuses), m.unknown);
    FoldStatusFields(to, m.statuses);
    FoldUnknownFinished(to.(statuses := to.statuses + m.statuses), m.unknown);
  }

  /** Folding a message's records into any message is merging it in, if its string is valid. */
  lemma FoldOwnFinished(to: Finished, m: Finished)
    requires ValidFinished(m)
    ensures FoldFinished(to, FinishedRecords(m)) ==
            if ValidUtf8(m.questionId) then Some(MergeFinished(to, m)) else None
  {
    var f1, f2, f3 := UInt32Field(1, m.submissionId), StringField(2, m.questionId), UInt32Field(3, m.userId);
    var lists := StatusFields(m.statuses) + m.unknown;
    var to1 := if m.submissionId == 0 then to else to.(submissionId := m.submissionId);
    var to2 := if m.questionId == [] then to1 else to1.(questionId := m.questionId);
    var to3 := if m.userId == 0 then to2 else to2.(userId := m.userId);
    FoldFinishedConcat(to, f1, f2 + (f3 + lists));
    FoldScalarFields(to, m.submissionId, m.questionId, m.userId);
    FoldFinishedConcat(to1, f2, f3 + lists);
    FoldScalarFields(to1, m.submissionId, m.questionId, m.userId);
    if ValidUtf8(m.questionId) {
      FoldFinishedConcat(to2, f3, lists);
      FoldScalarFields(to2, m.submissionId, m.questionId, m.userId);
      FoldListsFinished(to3, m);
    }
  }

  lemma {:induction false} StatusFieldsValid(statuses: seq<Status>)
    requires forall i :: 0 <= i < |statuses| ==> ValidStatus(statuses[i]) && |StatusBytes(statuses[i])| <= MAX_LENGTH
    ensures forall i :: 0 <= i < |StatusFields(statuses)| ==> Valid(StatusFields(statuses)[i])
  {
    if statuses != [] {
      StatusFieldsValid(statuses[1..]);
    }
  }

  lemma FinishedRecordsValid(m: Finished)
    requires ValidFinished(m)
    ensures forall i :: 0 <= i < |FinishedRecords(m)| ==> Valid(FinishedRecords(m)[i])
  {
    StatusFieldsValid(m.statuses);
  }

  lemma ParseOfRecords(into: Finished, bytes: seq<Byte>, records: seq<Record>)
    requires ReadAll(bytes) == Got(records, [])
    ensures ParseFinished(into, bytes) == FoldFinished(into, records)
  {
  }

  lemma MergeIntoNothing(m: Finished)
    ensures MergeFinished(NOT_FINISHED, m) == m
  {
    assert [] + m.unknown == m.unknown && [] + m.statuses == m.statuses;
  }

  /** Parsing undoes printing exactly for messages whose question id is well-formed UTF-8; any other
      message is printed all the same, and its bytes are refused. */
  lemma FinishedRoundTripIff(m: Finished)
    requires ValidFinished(m)
    ensures ParseFinished(NOT_FINISHED, FinishedBytes(m)) == if ValidUtf8(m.questionId) then Some(m) else None
    ensures ParseFinished(NOT_FINISHED, FinishedBytes(m)) == Some(m) <==>
            exists points :: AllScalar(points) && EncodeAll(points) == m.questionId
  {
    ValidIffEncoded(m.questionId);
    FinishedRecordsValid(m);
    ReadAllOfPrint(FinishedRecords(m));
    ParseOfRecords(NOT_FINISHED, FinishedBytes(m), FinishedRecords(m));
    FoldOwnFinished(NOT_FINISHED, m);
    MergeIntoNothing(m);
  }

  lemma {:induction false} ReadAllOfTwo(ra: seq<Record>, rb: seq<Record>)
    requires forall i :: 0 <= i < |ra| ==> Valid(ra[i])
    requires forall i :: 0 <= i < |rb| ==> Valid(rb[i])
    ensures ReadAll(Print(ra) + Print(rb)) == Got(ra + rb, [])
  {
    PrintConcat(ra, rb);
    ReadAllOfPrint(ra + rb);
  }

  lemma FoldOfTwo(ra: seq<Record>, rb: seq<Record>, a: Finished)
    requires FoldFinished(NOT_FINISHED, ra) == Some(a)
    ensures FoldFinished(NOT_FINISHED, ra + rb) == FoldFinished(a, rb)
  {
    FoldFinishedConcat(NOT_FINISHED, ra, rb);
  }

  /** Parsing two printed messages one after the other is merging the second into the first. */
  lemma FinishedConcatIsMerge(a: Finished, b: Finished)
    requires ValidFinished(a) && ValidFinished(b) && ValidUtf8(a.questionId) && ValidUtf8(b.questionId)
    ensures ParseFinished(NOT_FINISHED, FinishedBytes(a) + FinishedBytes(b)) == Some(MergeFinished(a, b))
  {
    var ra, rb := FinishedRecords(a), FinishedRecords(b);
    FinishedRecordsValid(a);
    FinishedRecordsValid(b);
    ReadAllOfTwo(ra, rb);
    ParseOfRecords(NOT_FINISHED, FinishedBytes(a) + FinishedBytes(b), ra + rb);
    FoldOwnFinished(NOT_FINISHED, a);
    MergeIntoNothing(a);
    FoldOfTwo(ra, rb, a);
    FoldOwnFinished(a, b);
  }

  // ----- parsing any records: the last one wins, the repeated and the unknown are collected -----

  /** The last value given for a number field. */
  function LastNumber(records: seq<Record>, field: nat): Option<nat> {
    if records == [] then None
    else
      var n := |records| - 1;
      if records[n].Varint? && records[n].field == field then Some(records[n].value) else LastNumber(records[..n], field)
  }

  function LastText(records: seq<Record>, field: nat): Option<seq<Byte>> {
    if records == [] then None
    else
      var n := |records| - 1;
      if records[n].Bytes? && records[n].field == field then Some(records[n].data) else LastText(records[..n], field)
  }

  /** All texts given for a field, in order. */
  function Texts(records: seq<Record>, field: nat): seq<seq<Byte>> {
    if records == [] then []
    else
      var n := |records| - 1;
      Texts(records[..n], field) + if records[n].Bytes? && records[n].field == field then [records[n].data] else []
  }

  function NotNumbers(records: seq<Record>): seq<Record> {
    if records == [] then []
    else
      var n := |records| - 1;
      NotNumbers(records[..n]) + if KnownToStatus(records[n]) then [] else [records[n]]
  }

  /** The 32-bit two's complement number congruent to v. */
  predicate Signed(x: int, v: nat) { -0x8000_0000 <= x < 0x8000_0000 && (x - v) % 0x1_0000_0000 == 0 }

  lemma ToInt32IsSigned(v: nat)
    ensures Signed(ToInt32(v), v)
  {
    var q := v / UINT32;
    assert v == UINT32 * q + v % UINT32;
  }

  predicate Holds(x: int, given: Option<nat>, default: int) {
    if given.Some? then Signed(x, given.value) else x == default
  }

  lemma FoldOneRecord(m: Status, r: Record)
    ensures FoldStatus(m, [r]) == TakeIntoStatus(m, r)
  {
    assert [r][1..] == [];
  }

  /** Whatever the records and their order: each field holds the last value given for it, and the records that
      are no field of the message are kept in order. */
  lemma {:induction false} StatusHoldsTheLast(m: Status, records: seq<Record>)
    ensures var r := FoldStatus(m, records);
            && Holds(r.timeCost, LastNumber(records, 1), m.timeCost)
            && Holds(r.memoryCost, LastNumber(records, 2), m.memoryCost)
            && Holds(r.result, LastNumber(records, 3), m.result)
            && r.unknown == m.unknown + NotNumbers(records)
    decreases |records|
  {
    if records != [] {
      var n := |records| - 1;
      var before, last := records[..n], records[n];
      assert records == before + [last];
      StatusHoldsTheLast(m, before);
      FoldStatusConcat(m, before, [last]);
      FoldOneRecord(FoldStatus(m, before), last);
      if last.Varint? {
        ToInt32IsSigned(last.value);
      }
    }
  }

  function NotFields(records: seq<Record>): seq<Record> {
    if records == [] then []
    else
      var n := |records| - 1;
      NotFields(records[..n]) + if KnownToFinished(records[n]) then [] else [records[n]]
  }

  /** The nested messages the texts stand for, or None if one of them is malformed. */
  function AllStatuses(texts: seq<seq<Byte>>): Option<seq<Status>> {
    if texts == [] then Some([])
    else
      var n := |texts| - 1;
      var before, last := AllStatuses(texts[..n]), ParseStatus(NO_STATUS, texts[n]);
      if before.None? || last.None? then None else Some(before.value + [last.value])
  }

  ghost predicate AllUtf8(texts: seq<seq<Byte>>) { forall i :: 0 <= i < |texts| ==> ValidUtf8(texts[i]) }

  lemma TextsOfSnoc(before: seq<Record>, last: Record, field: nat)
    ensures var records := before + [last];
            && Texts(records, field) ==
                 (if last.Bytes? && last.field == field then Texts(before, field) + [last.data] else Texts(before, field))
            && LastNumber(records, field) ==
                 (if last.Varint? && last.field == field then Some(last.value) else LastNumber(before, field))
            && LastText(records, field) ==
                 (if last.Bytes? && last.field == field then Some(last.data) else LastText(before, field))
            && NotFields(records) == (if KnownToFinished(last) then NotFields(before) else NotFields(before) + [last])
  {
    var records := before + [last];
    assert records[..|records| - 1] == before;
  }

  lemma StatusesOfSnoc(texts: seq<seq<Byte>>, text: seq<Byte>)
    ensures AllStatuses(texts + [text]) ==
            var before, last := AllStatuses(texts), ParseStatus(NO_STATUS, text);
            if before.None? || last.None? then None else Some(before.value + [last.value])
    ensures AllUtf8(texts + [text]) <==> AllUtf8(texts) && ValidUtf8(text)
  {
    var all := texts + [text];
    assert all[..|all| - 1] == texts;
    if AllUtf8(all) {
      assert forall i :: 0 <= i < |texts| ==> texts[i] == all[i];
      assert all[|texts|] == text;
    }
  }

  lemma Appended<T>(a: seq<T>, b: seq<T>, x: T)
    ensures a + (b + [x]) == a + b + [x]
  {
  }

  /** What a request must be after the records, if they are accepted. */
  ghost predicate IsResult(m: Finished, records: seq<Record>, r: Finished) {
    var id, user, question := LastNumber(records, 1), LastNumber(records, 3), LastText(records, 2);
    && r.submissionId == (if id.Some? then id.value % 0x1_0000_0000 else m.submissionId)
    && r.userId == (if user.Some? then user.value % 0x1_0000_0000 else m.userId)
    && r.questionId == (if question.Some? then question.value else m.questionId)
    && AllStatuses(Texts(records, 4)).Some? && r.statuses == m.statuses + AllStatuses(Texts(records, 4)).value
    && r.unknown == m.unknown + NotFields(records)
  }

  lemma ResultOfSnoc(m: Finished, before: seq<Record>, last: Record, r: Finished)
    requires IsResult(m, before, r) && AllUtf8(Texts(before, 2))
    ensures var r' := TakeIntoFinished(r, last);
            && (r'.Some? <==> AllUtf8(Texts(before + [last], 2)) && AllStatuses(Texts(before + [last], 4)).Some?)
            && (r'.Some? ==> IsResult(m, before + [last], r'.value))
  {
    TextsOfSnoc(before, last, 1);
    TextsOfSnoc(before, last, 2);
    TextsOfSnoc(before, last, 3);
    TextsOfSnoc(before, last, 4);
    Appended(m.unknown, NotFields(before), last);
    if last.Bytes? {
      StatusesOfSnoc(Texts(before, 2), last.data);
      StatusesOfSnoc(Texts(before, 4), last.data);
      var status := ParseStatus(NO_STATUS, last.data);
      if status.Some? {
        Appended(m.statuses, AllStatuses(Texts(before, 4)).value, status.value);
      }
    }
  }

  lemma RefusedStays(before: seq<Record>, last: Record)
    requires !(AllUtf8(Texts(before, 2)) && AllStatuses(Texts(before, 4)).Some?)
    ensures !(AllUtf8(Texts(before + [last], 2)) && AllStatuses(Texts(before + [last], 4)).Some?)
  {
    TextsOfSnoc(before, last, 2);
    TextsOfSnoc(before, last, 4);
    if last.Bytes? {
      StatusesOfSnoc(Texts(before, 2), last.data);
      StatusesOfSnoc(Texts(before, 4), last.data);
    }
  }

  /** A request is accepted exactly when every question id given is UTF-8 and every nested message is well formed;
      then it holds the last values given, all nested messages in order, and the rest as unknown. */
  lemma {:induction false} FinishedHoldsTheLast(m: Finished, records: seq<Record>)
    ensures FoldFinished(m, records).Some? <==> AllUtf8(Texts(records, 2)) && AllStatuses(Texts(records, 4)).Some?
    ensures FoldFinished(m, records).Some? ==> IsResult(m, records, FoldFinished(m, records).value)
    decreases |records|
  {
    if records != [] {
      var n := |records| - 1;
      var before, last := records[..n], records[n];
      assert records == before + [last];
      FinishedHoldsTheLast(m, before);
      FoldFinishedConcat(m, before, [last]);
      var first := FoldFinished(m, before);
      if first.Some? {
        FoldOneFinished(first.value, last);
        ResultOfSnoc(m, before, last, first.value);
      } else {
        RefusedStays(before, last);
      }
    }
  }
}
