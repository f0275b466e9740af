/** Well-formed UTF-8 as the parser of string fields checks it, against the encoding of code points. */
module Utf8 {
  import opened Basics

  // ----- the check, by lead byte (Unicode, table 3-7) -----

  predicate Tail(b: Byte) { 0x80 <= b <= 0xBF }

  /** The length of the well-formed sequence at the front, or 0. */
  function Utf8Length(s: seq<Byte>): (n: nat)
    ensures n <= |s|
  {
    if |s| >= 1 && s[0] <= 0x7F then 1
    else if |s| >= 2 && 0xC2 <= s[0] <= 0xDF && Tail(s[1]) then 2
    else if |s| >= 3 && Tail(s[1]) && Tail(s[2]) &&
            ((s[0] == 0xE0 && s[1] >= 0xA0) || (0xE1 <= s[0] <= 0xEC) ||
             (s[0] == 0xED && s[1] <= 0x9F) || (0xEE <= s[0] <= 0xEF)) then 3
    else if |s| >= 4 && Tail(s[1]) && Tail(s[2]) && Tail(s[3]) &&
            ((s[0] == 0xF0 && s[1] >= 0x90) || (0xF1 <= s[0] <= 0xF3) || (s[0] == 0xF4 && s[1] <= 0x8F)) then 4
    else 0
  }

  predicate ValidUtf8(s: seq<Byte>)
    decreases |s|
  {
    s == [] || (Utf8Length(s) > 0 && ValidUtf8(s[Utf8Length(s)..]))
  }

  // ----- the encoding form, by bit distribution (Unicode, table 3-6) -----

  /** Code points that may be encoded: all but the surrogates. */
  predicate Scalar(p: int) { 0 <= p <= 0x10FFFF && !(0xD800 <= p <= 0xDFFF) }

  function EncodePoint(p: int): (s: seq<Byte>)
    requires Scalar(p)
    ensures |s| > 0
  {
    if p < 0x80 then [p]
    else if p < 0x800 then [0xC0 + p / 64, 0x80 + p % 64]
    else if p < 0x1_0000 then [0xE0 + p / 4096, 0x80 + p / 64 % 64, 0x80 + p % 64]
    else [0xF0 + p / 0x4_0000, 0x80 + p / 4096 % 64, 0x80 + p / 64 % 64, 0x80 + p % 64]
  }

  ghost predicate AllScalar(points: seq<int>) { forall i :: 0 <= i < |points| ==> Scalar(points[i]) }

  function EncodeAll(points: seq<int>): seq<Byte>
    requires AllScalar(points)
  {
    if points == [] then [] else EncodePoint(points[0]) + EncodeAll(points[1..])
  }

  // ----- the two agree -----

  lemma LengthLocal(s: seq<Byte>, rest: seq<Byte>)
    requires Utf8Length(s) == |s| > 0
    ensures Utf8Length(s + rest) == |s|
  {
  }

  lemma PointIsWellFormed(p: int)
    requires Scalar(p)
    ensures Utf8Length(EncodePoint(p)) == |EncodePoint(p)|
  {
  }

  lemma {:induction false} EncodingIsValid(points: seq<int>)
    requires AllScalar(points)
    ensures ValidUtf8(EncodeAll(points))
  {
    if points != [] {
      var first, rest := EncodePoint(points[0]), EncodeAll(points[1..]);
      PointIsWellFormed(points[0]);
      LengthLocal(first, rest);
      assert (first + rest)[|first|..] == rest;
      EncodingIsValid(points[1..]);
    }
  }

  /** Every well-formed sequence is the encoding of one code point. */
  lemma PointOf(s: seq<Byte>) returns (p: int)
    requires Utf8Length(s) > 0
    ensures Scalar(p) && EncodePoint(p) == s[..Utf8Length(s)]
  {
    var n := Utf8Length(s);
    if n == 1 {
      p := s[0];
    } else if n == 2 {
      p := PointOfTwo(s[0], s[1]);
    } else if n == 3 {
      p := PointOfThree(s[0], s[1], s[2]);
    } else {
      p := PointOfFour(s[0], s[1], s[2], s[3]);
    }
  }

  lemma PointOfTwo(a: Byte, b: Byte) returns (p: int)
    requires 0xC2 <= a <= 0xDF && Tail(b)
    ensures Scalar(p) && EncodePoint(p) == [a, b]
  {
    p := (a - 0xC0) * 64 + (b - 0x80);
    assert p / 64 == a - 0xC0 && p % 64 == b - 0x80;
  }

  lemma PointOfThree(a: Byte, b: Byte, c: Byte) returns (p: int)
    requires 0xE0 <= a <= 0xEF && Tail(b) && Tail(c) && (a == 0xE0 ==> b >= 0xA0) && (a == 0xED ==> b <= 0x9F)
    ensures Scalar(p) && EncodePoint(p) == [a, b, c]
  {
    var q := (a - 0xE0) * 64 + (b - 0x80);
    p := q * 64 + (c - 0x80);
    Digits(p, q, c - 0x80);
    Digits(q, a - 0xE0, b - 0x80);
    assert p / 4096 == p / 64 / 64;
  }

  lemma PointOfFour(a: Byte, b: Byte, c: Byte, d: Byte) returns (p: int)
    requires 0xF0 <= a <= 0xF4 && Tail(b) && Tail(c) && Tail(d) && (a == 0xF0 ==> b >= 0x90) && (a == 0xF4 ==> b <= 0x8F)
    ensures Scalar(p) && EncodePoint(p) == [a, b, c, d]
  {
    var r := (a - 0xF0) * 64 + (b - 0x80);
    var q := r * 64 + (c - 0x80);
    p := q * 64 + (d - 0x80);
    Digits(p, q, d - 0x80);
    Digits(q, r, c - 0x80);
    Digits(r, a - 0xF0, b - 0x80);
    assert p / 4096 == p / 64 / 64;
    assert p / 0x4_0000 == p / 4096 / 64;
  }

  lemma Digits(x: int, q: int, r: int)
    requires x == q * 64 + r && 0 <= r < 64
    ensures x / 64 == q && x % 64 == r
  {
  }

  lemma {:induction false} PointsOf(s: seq<Byte>) returns (points: seq<int>)
    requires ValidUtf8(s)
    ensures AllScalar(points) && EncodeAll(points) == s
    decreases |s|
  {
    if s == [] {
      points := [];
    } else {
      var n := Utf8Length(s);
      var p := PointOf(s);
      var rest := PointsOf(s[n..]);
      points := [p] + rest;
      assert points[1..] == rest;
      assert s == s[..n] + s[n..];
    }
  }

  /** A byte string passes the check exactly when it is the encoding of some code points. */
  lemma ValidIffEncoded(s: seq<Byte>)
    ensures ValidUtf8(s) <==> exists points :: AllScalar(points) && EncodeAll(points) == s
  {
    if ValidUtf8(s) {
      var points := PointsOf(s);
    }
    if exists points :: AllScalar(points) && EncodeAll(points) == s {
      var points :| AllScalar(points) && EncodeAll(points) == s;
      EncodingIsValid(points);
    }
  }
}
