/** The two conversions between MySQL date-times and microseconds since 1970.
    timegm is given by the closed formula for the days before a year; gmtime by walking the proleptic
    Gregorian calendar year by year and month by month. Integers are unbounded: where C++ arithmetic would
    leave 32 or 64 bits the original is undefined, and the theorems that depend on it say so. */
module Calendar {

  predicate Leap(y: int) { (y % 4 == 0 && y % 100 != 0) || y % 400 == 0 }

  function DaysIn(y: int): nat { if Leap(y) then 366 else 365 }

  /** Months are numbered from 0, as in struct tm. */
  function MonthDays(y: int, m: nat): nat
    requires m < 12
  {
    if m == 1 then (if Leap(y) then 29 else 28)
    else if m == 3 || m == 5 || m == 8 || m == 10 then 30
    else 31
  }

  // ----- timegm: a closed formula -----

  /** The leap years up to and including y. */
  function Leaps(y: int): int { y / 4 - y / 100 + y / 400 }

  /** Days from 1 January 1970 to 1 January of y. */
  function DaysBefore(y: int): int { 365 * (y - 1970) + Leaps(y - 1) - Leaps(1969) }

  function DaysBeforeMonth(y: int, m: nat): nat
    requires m <= 12
  {
    if m == 0 then 0 else DaysBeforeMonth(y, m - 1) + MonthDays(y, m - 1)
  }

  /** struct tm with the full year: tm_year + 1900. */
  datatype Tm = Tm(year: int, mon: int, mday: int, hour: int, min: int, sec: int)

  predicate InRange(v: Tm) {
    0 <= v.mon < 12 && 1 <= v.mday <= 31 && 0 <= v.hour < 24 && 0 <= v.min < 60 && 0 <= v.sec < 60
  }

  predicate RealDate(v: Tm) { InRange(v) && v.mday <= MonthDays(v.year, v.mon) }

  function SecondOfDay(v: Tm): int { (v.hour * 60 + v.min) * 60 + v.sec }

  function DayNumber(v: Tm): int
    requires InRange(v)
  {
    DaysBefore(v.year) + DaysBeforeMonth(v.year, v.mon) + v.mday - 1
  }

  function Timegm(v: Tm): int
    requires InRange(v)
  {
    DayNumber(v) * 86400 + SecondOfDay(v)
  }

  // ----- gmtime: walking the calendar -----

  /** The year and day within it that lie d days after 1 January of y. */
  function Forward(d: nat, y: int): (int, nat) {
    if d < DaysIn(y) then (y, d) else Forward(d - DaysIn(y), y + 1)
  }

  function Back(d: int, y: int): (int, nat)
    requires d < 0
    decreases -d
  {
    if d + DaysIn(y - 1) < 0 then Back(d + DaysIn(y - 1), y - 1) else (y - 1, d + DaysIn(y - 1))
  }

  function YearAndDay(d: int): (int, nat) { if d < 0 then Back(d, 1970) else Forward(d, 1970) }

  function MonthAndDay(d: nat, y: int, m: nat): (nat, nat)
    requires m < 12
    decreases 12 - m
  {
    if d < MonthDays(y, m) || m == 11 then (m, d) else MonthAndDay(d - MonthDays(y, m), y, m + 1)
  }

  function Gmtime(seconds: int): Tm {
    var yd := YearAndDay(seconds / 86400);
    var md := MonthAndDay(yd.1, yd.0, 0);
    var s := seconds % 86400;
    Tm(yd.0, md.0, md.1 + 1, s / 3600, s / 60 % 60, s % 60)
  }

  // ----- the formula and the walk agree -----

  lemma QuotientStep(y: int, n: int)
    requires n == 4 || n == 100 || n == 400
    ensures y / n - (y - 1) / n == if y % n == 0 then 1 else 0
  {
  }

  lemma Multiple(y: int, n: int, k: int)
    requires (n == 4 || n == 100) && y == n * k
    ensures y % n == 0
  {
  }

  lemma Divisibility(y: int)
    ensures y % 400 == 0 ==> y % 100 == 0
    ensures y % 100 == 0 ==> y % 4 == 0
  {
    if y % 100 == 0 {
      Multiple(y, 4, 25 * (y / 100));
    }
    if y % 400 == 0 {
      Multiple(y, 100, 4 * (y / 400));
    }
  }

  lemma LeapsStep(y: int)
    ensures Leaps(y) == Leaps(y - 1) + if Leap(y) then 1 else 0
  {
    QuotientStep(y, 4);
    QuotientStep(y, 100);
    QuotientStep(y, 400);
    Divisibility(y);
  }

  lemma YearStep(y: int)
    ensures DaysBefore(y + 1) == DaysBefore(y) + DaysIn(y)
  {
    LeapsStep(y);
  }

  lemma {:induction false} ForwardKeepsDay(d: nat, y: int)
    ensures var r := Forward(d, y); r.1 < DaysIn(r.0) && DaysBefore(r.0) + r.1 == DaysBefore(y) + d && r.0 >= y
  {
    if d >= DaysIn(y) {
      YearStep(y);
      ForwardKeepsDay(d - DaysIn(y), y + 1);
    }
  }

  lemma {:induction false} BackKeepsDay(d: int, y: int)
    requires d < 0
    ensures var r := Back(d, y); r.1 < DaysIn(r.0) && DaysBefore(r.0) + r.1 == DaysBefore(y) + d && r.0 < y
    decreases -d
  {
    YearStep(y - 1);
    if d + DaysIn(y - 1) < 0 {
      BackKeepsDay(d + DaysIn(y - 1), y - 1);
    }
  }

  lemma YearAndDayIsRight(d: int)
    ensures var r := YearAndDay(d); r.1 < DaysIn(r.0) && DaysBefore(r.0) + r.1 == d && (r.0 >= 1970 <==> d >= 0)
  {
    if d < 0 {
      BackKeepsDay(d, 1970);
    } else {
      ForwardKeepsDay(d, 1970);
    }
  }

  lemma MonthsFillTheYear(y: int)
    ensures DaysBeforeMonth(y, 12) == DaysIn(y)
  {
    assert DaysBeforeMonth(y, 3) == DaysBeforeMonth(y, 0) + 31 + MonthDays(y, 1) + 31 by {
      assert DaysBeforeMonth(y, 1) == 31;
      assert DaysBeforeMonth(y, 2) == 31 + MonthDays(y, 1);
    }
    assert DaysBeforeMonth(y, 6) == DaysBeforeMonth(y, 3) + 91 by {
      assert DaysBeforeMonth(y, 4) == DaysBeforeMonth(y, 3) + 30;
      assert DaysBeforeMonth(y, 5) == DaysBeforeMonth(y, 4) + 31;
    }
    assert DaysBeforeMonth(y, 9) == DaysBeforeMonth(y, 6) + 92 by {
      assert DaysBeforeMonth(y, 7) == DaysBeforeMonth(y, 6) + 31;
      assert DaysBeforeMonth(y, 8) == DaysBeforeMonth(y, 7) + 31;
    }
    assert DaysBeforeMonth(y, 12) == DaysBeforeMonth(y, 9) + 92 by {
      assert DaysBeforeMonth(y, 10) == DaysBeforeMonth(y, 9) + 31;
      assert DaysBeforeMonth(y, 11) == DaysBeforeMonth(y, 10) + 30;
    }
  }

  lemma {:induction false} MonthAndDayIsRight(d: nat, y: int, m: nat)
    requires m < 12 && DaysBeforeMonth(y, m) + d < DaysIn(y)
    ensures var r := MonthAndDay(d, y, m);
            r.0 < 12 && r.1 < MonthDays(y, r.0) && DaysBeforeMonth(y, r.0) + r.1 == DaysBeforeMonth(y, m) + d
    decreases 12 - m
  {
    if m == 11 {
      MonthsFillTheYear(y);
    } else if d >= MonthDays(y, m) {
      MonthAndDayIsRight(d - MonthDays(y, m), y, m + 1);
    }
  }

  lemma ClockFields(s: int)
    requires 0 <= s < 86400
    ensures 0 <= s / 3600 < 24 && 0 <= s / 60 % 60 < 60 && (s / 3600 * 60 + s / 60 % 60) * 60 + s % 60 == s
  {
    assert s / 3600 == s / 60 / 60;
  }

  /** timegm undoes gmtime, and gmtime only yields dates that exist. */
  lemma TimegmOfGmtime(seconds: int)
    ensures RealDate(Gmtime(seconds)) && Timegm(Gmtime(seconds)) == seconds
    ensures Gmtime(seconds).year >= 1970 <==> seconds >= 0
  {
    var d := seconds / 86400;
    YearAndDayIsRight(d);
    var yd := YearAndDay(d);
    MonthAndDayIsRight(yd.1, yd.0, 0);
    ClockFields(seconds % 86400);
  }

  lemma {:induction false} ForwardFinds(y0: int, y: int, d: nat)
    requires y0 <= y && d < DaysIn(y)
    ensures DaysBefore(y) >= DaysBefore(y0) && Forward(DaysBefore(y) - DaysBefore(y0) + d, y0) == (y, d)
    decreases y - y0
  {
    if y0 < y {
      YearStep(y0);
      ForwardFinds(y0 + 1, y, d);
    }
  }

  lemma {:induction false} MonthFinds(y: int, m0: nat, m: nat, d: nat)
    requires m0 <= m < 12 && d < MonthDays(y, m)
    ensures DaysBeforeMonth(y, m) >= DaysBeforeMonth(y, m0)
    ensures MonthAndDay(DaysBeforeMonth(y, m) - DaysBeforeMonth(y, m0) + d, y, m0) == (m, d)
    decreases m - m0
  {
    if m0 < m {
      MonthFinds(y, m0 + 1, m, d);
    }
  }

  lemma {:induction false} MonthStartsMonotone(y: int, m: nat)
    requires m < 12
    ensures DaysBeforeMonth(y, m) + MonthDays(y, m) <= DaysIn(y)
    decreases 12 - m
  {
    if m == 11 {
      MonthsFillTheYear(y);
    } else {
      MonthStartsMonotone(y, m + 1);
    }
  }

  lemma SplitSeconds(day: int, s: int)
    requires 0 <= s < 86400
    ensures (day * 86400 + s) / 86400 == day && (day * 86400 + s) % 86400 == s
  {
  }

  lemma ClockFinds(h: int, m: int, s: int)
    requires 0 <= h < 24 && 0 <= m < 60 && 0 <= s < 60
    ensures var t := (h * 60 + m) * 60 + s; 0 <= t < 86400 && t / 3600 == h && t / 60 % 60 == m && t % 60 == s
  {
    var t := (h * 60 + m) * 60 + s;
    assert t / 60 == h * 60 + m;
    assert t / 3600 == t / 60 / 60;
  }

  /** gmtime undoes timegm on the dates that exist from 1970 on. */
  lemma GmtimeOfTimegm(v: Tm)
    requires RealDate(v) && v.year >= 1970
    ensures Gmtime(Timegm(v)) == v && Timegm(v) >= 0
  {
    var d := DaysBeforeMonth(v.year, v.mon) + v.mday - 1;
    MonthStartsMonotone(v.year, v.mon);
    ForwardFinds(1970, v.year, d);
    MonthFinds(v.year, 0, v.mon, v.mday - 1);
    ClockFinds(v.hour, v.min, v.sec);
    SplitSeconds(DayNumber(v), SecondOfDay(v));
  }

  // ----- the conversions -----

  type Unsigned = x: int | 0 <= x < 0x1_0000_0000

  datatype MysqlTime = MysqlTime(year: Unsigned, month: Unsigned, day: Unsigned,
                                 hour: Unsigned, minute: Unsigned, second: Unsigned, micros: nat)

  /** static_cast<int> of an unsigned, and back. */
  function ToInt(x: Unsigned): int { if x < 0x8000_0000 then x else x - 0x1_0000_0000 }

  function ToUnsigned(x: int): Unsigned { x % 0x1_0000_0000 }

  predicate Rejected(t: MysqlTime) {
    t.year < 1970 || t.month < 1 || t.month > 12 || t.day < 1 || t.day > 31 ||
    t.hour > 23 || t.minute > 59 || t.second > 59 || t.micros > 999999
  }

  /** The struct tm handed to timegm. */
  function Value(t: MysqlTime): Tm {
    Tm(ToInt(t.year), ToInt(t.month) - 1, ToInt(t.day), ToInt(t.hour), ToInt(t.minute), ToInt(t.second))
  }

  /** timegm normalises its argument; a date it had to change is refused, as is one before 1970. */
  function Count(value: Tm, micros: nat): int
    requires InRange(value)
  {
    var seconds := Timegm(value);
    if seconds < 0 || Gmtime(seconds) != value then 0 else seconds * 1000000 + micros
  }

  function DateTimeToInt(t: MysqlTime): int { if Rejected(t) then 0 else Count(Value(t), t.micros) }

  /** Division and remainder as C++ has them: rounding toward zero. */
  function Quotient(x: int, n: nat): int
    requires n > 0
  {
    if x >= 0 then x / n else -((-x) / n)
  }

  function Remainder(x: int, n: nat): int
    requires n > 0
  {
    x - Quotient(x, n) * n
  }

  /** Whole seconds and the microseconds past them. */
  function Split(ts: int): (int, int) {
    var seconds, micros := Quotient(ts, 1000000), Remainder(ts, 1000000);
    if micros < 0 then (seconds - 1, micros + 1000000) else (seconds, micros)
  }

  /** The adjusted truncating division rounds down. */
  lemma SplitRoundsDown(ts: int)
    ensures Split(ts) == (ts / 1000000, ts % 1000000)
  {
    var q, r := Quotient(ts, 1000000), Remainder(ts, 1000000);
    assert -1000000 < r < 1000000 && ts == q * 1000000 + r;
  }

  function Pack(utc: Tm, micros: nat): MysqlTime
    requires RealDate(utc)
  {
    MysqlTime(ToUnsigned(utc.year), utc.mon + 1, utc.mday, utc.hour, utc.min, utc.sec, micros)
  }

  function IntToDateTime(ts: int): MysqlTime {
    SplitRoundsDown(ts);
    TimegmOfGmtime(Split(ts).0);
    Pack(Gmtime(Split(ts).0), Split(ts).1)
  }

  predicate Int64(x: int) { -0x8000_0000_0000_0000 <= x < 0x8000_0000_0000_0000 }

  /** A 64-bit count of microseconds reaches fewer than 300000 years either way. */
  lemma YearsFit(seconds: int)
    requires -9223372036855 <= seconds <= 9223372036855
    ensures -300000 < Gmtime(seconds).year < 300000
  {
    var v := Gmtime(seconds);
    TimegmOfGmtime(seconds);
    MonthStartsMonotone(v.year, v.mon);
    assert DayNumber(v) == seconds / 86400;
    assert -106751992 <= DayNumber(v) <= 106751992;
    assert DaysBefore(v.year) <= DayNumber(v) < DaysBefore(v.year) + 366;
    DaysBeforeBounds(v.year);
  }

  lemma DaysBeforeBounds(y: int)
    ensures y >= 300000 ==> DaysBefore(y) > 106751992
    ensures y <= -300000 ==> DaysBefore(y) < -106751992 - 366
  {
  }

  lemma CountOfRealDate(v: Tm, micros: nat)
    requires RealDate(v)
    ensures Count(v, micros) == if v.year >= 1970 then Timegm(v) * 1000000 + micros else 0
  {
    if v.year >= 1970 {
      GmtimeOfTimegm(v);
    } else {
      TimegmOfGmtime(Timegm(v));
    }
  }

  lemma ValueOfPack(v: Tm, micros: nat)
    requires RealDate(v) && -300000 < v.year < 300000 && micros <= 999999
    ensures Value(Pack(v, micros)) == v && (Rejected(Pack(v, micros)) <==> 0 <= v.year < 1970)
    ensures v.year >= 1970 ==> RealTime(Pack(v, micros))
  {
  }

  lemma CountOfPack(v: Tm, micros: nat)
    requires RealDate(v) && -300000 < v.year < 300000 && micros <= 999999
    ensures DateTimeToInt(Pack(v, micros)) == if v.year >= 1970 then Timegm(v) * 1000000 + micros else 0
  {
    ValueOfPack(v, micros);
    CountOfRealDate(v, micros);
  }

  /** The promise of the pair of conversions, on every 64-bit count: converting there and back gives the
      count for times from 1970 on, and 0 for earlier ones. */
  lemma CountRoundTrip(ts: int)
    requires Int64(ts)
    ensures DateTimeToInt(IntToDateTime(ts)) == if ts >= 0 then ts else 0
  {
    SplitRoundsDown(ts);
    TimegmOfGmtime(ts / 1000000);
    YearsFit(ts / 1000000);
    CountOfPack(Gmtime(ts / 1000000), ts % 1000000);
  }

  predicate RealTime(t: MysqlTime) {
    1970 <= t.year < 0x8000_0000 && t.micros <= 999999 && RealDate(Value(t))
  }

  lemma PackOfValue(t: MysqlTime)
    requires RealTime(t)
    ensures Pack(Value(t), t.micros) == t && !Rejected(t) && Value(t).year >= 1970
  {
  }

  lemma SplitOfCount(seconds: int, micros: nat)
    requires micros <= 999999
    ensures Split(seconds * 1000000 + micros) == (seconds, micros)
  {
    SplitRoundsDown(seconds * 1000000 + micros);
  }

  lemma RealTimeRoundTrip(t: MysqlTime)
    requires RealTime(t)
    ensures IntToDateTime(DateTimeToInt(t)) == t
  {
    PackOfValue(t);
    CountOfRealDate(Value(t), t.micros);
    SplitOfCount(Timegm(Value(t)), t.micros);
    GmtimeOfTimegm(Value(t));
  }

  lemma UnrealBecomesZero(t: MysqlTime)
    requires !RealTime(t)
    ensures DateTimeToInt(t) == 0
  {
    if DateTimeToInt(t) != 0 {
      TimegmOfGmtime(Timegm(Value(t)));
    }
  }

  /** A date-time converts to a count and back to itself exactly when it is a date that exists, from 1970
      on; every other date-time becomes 0. Where the year does not survive the cast to int less 1900, or
      the count exceeds 64 bits, the original is undefined. */
  lemma DateTimeRoundTrip(t: MysqlTime)
    requires Int64(DateTimeToInt(t)) && (t.year < 0x8000_0000 || t.year >= 0x8000_0000 + 1900)
    ensures IntToDateTime(DateTimeToInt(t)) == t <==> RealTime(t)
    ensures !RealTime(t) ==> DateTimeToInt(t) == 0
  {
    if RealTime(t) {
      RealTimeRoundTrip(t);
    } else {
      UnrealBecomesZero(t);
      CountsAreReal(DateTimeToInt(t));
    }
  }

  lemma CountsAreReal(ts: int)
    requires Int64(ts) && ts >= 0
    ensures RealTime(IntToDateTime(ts))
  {
    SplitRoundsDown(ts);
    TimegmOfGmtime(ts / 1000000);
    YearsFit(ts / 1000000);
    ValueOfPack(Gmtime(ts / 1000000), ts % 1000000);
  }

  /** Counts tell apart the date-times that exist. */
  lemma CountsAreDistinct(t: MysqlTime, u: MysqlTime)
    requires RealTime(t) && RealTime(u) && DateTimeToInt(t) == DateTimeToInt(u)
    ensures t == u
  {
    RealTimeRoundTrip(t);
    RealTimeRoundTrip(u);
  }

  // ----- the Gregorian calendar in 400-year eras -----

  /** Days since 1 January 1970 of a date, counted in eras of 146097 days and years that begin in March, whose months
      begin every 153 days in five. Months are numbered from 0 for January. */
  function CivilDays(y: int, m: nat, d: int): int
    requires m < 12
  {
    var shifted := if m < 2 then y - 1 else y;
    var era, year := shifted / 400, shifted % 400;
    var march := if m < 2 then m + 10 else m - 2;
    era * 146097 + year * 365 + year / 4 - year / 100 + (153 * march + 2) / 5 + d - 1 - 719468
  }

  lemma EraLeaps(y: int)
    ensures Leaps(y) == 97 * (y / 400) + y % 400 / 4 - y % 400 / 100
  {
    var e, r := y / 400, y % 400;
    assert y == 400 * e + r;
    QuarterEra(e, r);
  }

  lemma QuarterEra(e: int, r: int)
    requires 0 <= r < 400
    ensures (400 * e + r) / 4 == 100 * e + r / 4 && (400 * e + r) / 100 == 4 * e + r / 100 && (400 * e + r) / 400 == e
  {
  }

  lemma YearInEras(y: int)
    ensures 365 * y + Leaps(y) == 146097 * (y / 400) + 365 * (y % 400) + y % 400 / 4 - y % 400 / 100
  {
    EraLeaps(y);
    assert y == 400 * (y / 400) + y % 400;
  }

  /** The months by their lengths are the months by the rule of 153 days in five. */
  lemma MonthsInFives(y: int, m: nat)
    requires m < 12
    ensures m == 0 ==> DaysBeforeMonth(y, m) == 0
    ensures m == 1 ==> DaysBeforeMonth(y, m) == 31
    ensures m >= 2 ==> DaysBeforeMonth(y, m) == 31 + (if Leap(y) then 29 else 28) + (153 * (m - 2) + 2) / 5
  {
    if m > 0 {
      MonthsInFives(y, m - 1);
    }
  }

  /** The day number that timegm and gmtime agree on is that of the Gregorian calendar. */
  lemma DayNumberIsCivil(v: Tm)
    requires InRange(v)
    ensures DayNumber(v) == CivilDays(v.year, v.mon, v.mday)
  {
    MonthsInFives(v.year, v.mon);
    YearInEras(v.year - 1);
    YearInEras(v.year);
    LeapsStep(v.year);
    assert Leaps(1969) == 477;
  }

  /** The count of a date that exists is its place in the Gregorian calendar, to the microsecond. */
  lemma CountIsCivil(t: MysqlTime)
    requires RealTime(t)
    ensures DateTimeToInt(t) ==
            ((CivilDays(t.year, t.month - 1, t.day) * 86400) + (t.hour * 60 + t.minute) * 60 + t.second) * 1000000 + t.micros
  {
    PackOfValue(t);
    CountOfRealDate(Value(t), t.micros);
    DayNumberIsCivil(Value(t));
  }
}
