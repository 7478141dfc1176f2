/**
 * Calendar dates as Python's proleptic-Gregorian day numbers: 0001-01-01 is
 * day 1 and 9999-12-31 (`date.max`) is day 3652059. Adding a day past
 * `date.max` is an overflow in Python; the model keeps the range in the type
 * so that every step past the end has to be handled explicitly.
 *
 * Timestamps are whole seconds of UTC counted from 0001-01-01 00:00, so
 * that a timestamp's calendar date is the day it falls in. The Unix epoch
 * 1970-01-01 00:00, from which providers count their milliseconds, is the
 * timestamp `UnixEpoch`.
 */
module Dates {
  import opened Common

  const MaxOrdinal: int := 3652059

  /** A `datetime.date`, as its day number. */
  type Date = n: int | 1 <= n <= MaxOrdinal witness 1

  type Year = y: int | 1 <= y <= 9999 witness 1

  /** Python's `date.weekday()`: Monday is 0, Sunday is 6. */
  function Weekday(d: int): (w: int)
    ensures 0 <= w < 7
  {
    (d + 6) % 7
  }

  /** Weekdays repeat with period 7 and advance by one each day. */
  lemma WeekdayShift(d: int, k: int)
    ensures Weekday(d + k) == (Weekday(d) + k) % 7
  {
  }

  /** The weekday of a day number, given its quotient by seven. */
  lemma WeekdayIs(d: int, q: int, w: int)
    requires 0 <= w < 7 && d + 6 == 7 * q + w
    ensures Weekday(d) == w
  {
  }

  predicate IsLeap(y: int)
  {
    y % 4 == 0 && (y % 100 != 0 || y % 400 == 0)
  }

  function DaysInYear(y: int): int
  {
    if IsLeap(y) then 366 else 365
  }

  function DaysInMonth(y: int, m: int): (r: int)
    requires 1 <= m <= 12
    ensures 28 <= r <= 31
  {
    if m == 2 then (if IsLeap(y) then 29 else 28)
    else if m == 4 || m == 6 || m == 9 || m == 11 then 30
    else 31
  }

  /** Days of year `y` before the first of month `m`. */
  function DaysBeforeMonth(y: int, m: int): (r: int)
    requires 1 <= m <= 12
    ensures m == 12 ==> r + DaysInMonth(y, 12) == DaysInYear(y)
    ensures 0 <= r
    decreases m
  {
    if m == 1 then 0 else DaysBeforeMonth(y, m - 1) + DaysInMonth(y, m - 1)
  }

  /** Days before January 1 of year `y`. */
  function DaysBeforeYear(y: int): int
    requires y >= 1
  {
    var z := y - 1;
    z * 365 + z / 4 - z / 100 + z / 400
  }

  lemma DivSucc(z: int, k: int)
    requires k == 4 || k == 100 || k == 400
    requires z >= 0
    ensures (z + 1) / k == z / k + (if (z + 1) % k == 0 then 1 else 0)
  {
    var q, r := z / k, z % k;
    assert z == k * q + r;
    if r == k - 1 {
      assert z + 1 == k * (q + 1);
    } else {
      assert z + 1 == k * q + (r + 1);
    }
  }

  lemma CenturyIsQuadrennial(y: int)
    ensures y % 100 == 0 ==> y % 4 == 0
    ensures y % 400 == 0 ==> y % 100 == 0
  {
    if y % 100 == 0 {
      var q := y / 100;
      assert y == 4 * (25 * q);
    }
    if y % 400 == 0 {
      var q := y / 400;
      assert y == 100 * (4 * q);
    }
  }

  lemma DaysBeforeYearStep(y: int)
    requires y >= 1
    ensures DaysBeforeYear(y + 1) == DaysBeforeYear(y) + DaysInYear(y)
  {
    DivSucc(y - 1, 4);
    DivSucc(y - 1, 100);
    DivSucc(y - 1, 400);
    CenturyIsQuadrennial(y);
  }

  lemma {:induction false} DaysBeforeYearMonotone(y1: int, y2: int)
    requires 1 <= y1 <= y2
    ensures DaysBeforeYear(y1) + 365 * (y2 - y1) <= DaysBeforeYear(y2)
    decreases y2 - y1
  {
    if y1 < y2 {
      DaysBeforeYearStep(y1);
      DaysBeforeYearMonotone(y1 + 1, y2);
    }
  }

  predicate ValidYMD(y: int, m: int, d: int)
  {
    1 <= y <= 9999 && 1 <= m <= 12 && 1 <= d <= DaysInMonth(y, m)
  }

  /** `date(y, m, d).toordinal()`. */
  function FromYMD(y: int, m: int, d: int): (r: Date)
    requires ValidYMD(y, m, d)
    ensures DaysBeforeYear(y) < r <= DaysBeforeYear(y) + DaysInYear(y)
  {
    DaysBeforeMonthBound(y, m);
    DaysBeforeYearMonotone(y, 9999);
    DaysBeforeYearStep(y);
    DaysBeforeYear(y) + DaysBeforeMonth(y, m) + d
  }

  lemma {:induction false} DaysBeforeMonthBound(y: int, m: int)
    requires 1 <= m <= 12
    ensures DaysBeforeMonth(y, m) + DaysInMonth(y, m) <= DaysInYear(y)
    decreases 12 - m
  {
    if m < 12 {
      DaysBeforeMonthBound(y, m + 1);
    }
  }

  /** `date(y, m, d)` with the same day number in a different month is impossible. */
  lemma FromYMDInjectiveDay(y: int, m: int, d1: int, d2: int)
    requires ValidYMD(y, m, d1) && ValidYMD(y, m, d2)
    ensures FromYMD(y, m, d1) - FromYMD(y, m, d2) == d1 - d2
  {
  }

  /**
   * The year a day number falls in, computed as Python's `_ord2ymd` does:
   * by whole 400-, 100-, 4- and 1-year cycles.
   */
  function YearOf(n: Date): (y: Year)
    ensures DaysBeforeYear(y) < n <= DaysBeforeYear(y) + DaysInYear(y)
  {
    var n0 := n - 1;
    var n400 := n0 / 146097;
    var r400 := n0 % 146097;
    var n100 := r400 / 36524;
    var r100 := r400 % 36524;
    var n4 := r100 / 1461;
    var r4 := r100 % 1461;
    var n1 := r4 / 365;
    var y0 := 400 * n400 + 100 * n100 + 4 * n4 + n1 + 1;
    if n1 == 4 || n100 == 4 then
      YearOfEndOfCycle(n400, n100, n4, n1, r4);
      y0 - 1
    else
      DaysBeforeYearDecomposed(n400, n100, n4, n1);
      DaysBeforeYearStep(y0);
      y0
  }

  /** The day count before year `400a + 100b + 4c + e + 1`. */
  lemma DaysBeforeYearDecomposed(a: int, b: int, c: int, e: int)
    requires a >= 0 && 0 <= b <= 3 && 0 <= c <= 24 && 0 <= e <= 3
    ensures DaysBeforeYear(400 * a + 100 * b + 4 * c + e + 1)
         == 146097 * a + 36524 * b + 1461 * c + 365 * e
  {
    var z := 400 * a + 100 * b + 4 * c + e;
    assert z / 4 == 100 * a + 25 * b + c;
    assert z / 100 == 4 * a + b;
    assert z / 400 == a;
  }

  lemma YearOfEndOfCycle(a: int, b: int, c: int, e: int, r4: int)
    requires a >= 0 && 0 <= b <= 4 && 0 <= c <= 24 && 0 <= e <= 4
    requires 0 <= r4 < 1461 && e == r4 / 365
    requires e == 4 || b == 4
    requires b == 4 ==> c == 0 && e == 0 && r4 == 0
    requires e == 4 ==> b <= 3 && (c == 24 ==> b == 3)
    ensures var y := 400 * a + 100 * b + 4 * c + e;
            DaysBeforeYear(y) <= 146097 * a + 36524 * b + 1461 * c + r4
            < DaysBeforeYear(y) + DaysInYear(y)
  {
    if b == 4 {
      DaysBeforeYearDecomposed(a, 3, 24, 3);
      LeapQuadricentennial(a + 1);
    } else {
      DaysBeforeYearDecomposed(a, b, c, 3);
      LeapQuadrennial(a, b, c);
    }
  }

  lemma LeapQuadricentennial(q: int)
    ensures IsLeap(400 * q)
  {
    assert 400 * q == 4 * (100 * q);
    assert 400 * q == 100 * (4 * q);
  }

  /** The last year of a four-year cycle is a leap year. */
  lemma LeapQuadrennial(a: int, b: int, c: int)
    requires 0 <= b <= 3 && 0 <= c <= 24 && (c == 24 ==> b == 3)
    ensures IsLeap(400 * a + 100 * b + 4 * c + 4)
  {
    var y := 400 * a + 100 * b + 4 * c + 4;
    if c == 24 {
      assert y == 400 * (a + 1);
      LeapQuadricentennial(a + 1);
    } else {
      assert y == 4 * (100 * a + 25 * b + c + 1);
      assert y == 100 * (4 * a + b) + (4 * c + 4);
    }
  }

  /** The year of a day number is the unique year whose days contain it. */
  lemma YearOfUnique(n: Date, y: int)
    requires 1 <= y && DaysBeforeYear(y) < n <= DaysBeforeYear(y) + DaysInYear(y)
    ensures YearOf(n) == y
  {
    var x := YearOf(n);
    if x < y {
      DaysBeforeYearStep(x);
      DaysBeforeYearMonotone(x + 1, y);
    } else if y < x {
      DaysBeforeYearStep(y);
      DaysBeforeYearMonotone(y + 1, x);
    }
  }

  lemma YearOfFromYMD(y: int, m: int, d: int)
    requires ValidYMD(y, m, d)
    ensures YearOf(FromYMD(y, m, d)) == y
  {
    YearOfUnique(FromYMD(y, m, d), y);
  }

  // ------------------------------------------------------------------
  // Year, month and day of a day number
  // ------------------------------------------------------------------

  /** The month holding day `doy` of year `y`, searching from month `m`. */
  function MonthFrom(y: int, doy: int, m: int): (r: int)
    requires 1 <= m <= 12 && DaysBeforeMonth(y, m) < doy <= DaysInYear(y)
    ensures m <= r <= 12
    ensures DaysBeforeMonth(y, r) < doy <= DaysBeforeMonth(y, r) + DaysInMonth(y, r)
    decreases 12 - m
  {
    if m == 12 || doy <= DaysBeforeMonth(y, m) + DaysInMonth(y, m) then m
    else MonthFrom(y, doy, m + 1)
  }

  lemma {:induction false} MonthFromFinds(y: int, m0: int, m: int, d: int)
    requires 1 <= m0 <= m <= 12 && 1 <= d <= DaysInMonth(y, m)
    ensures DaysBeforeMonth(y, m0) < DaysBeforeMonth(y, m) + d <= DaysInYear(y)
    ensures MonthFrom(y, DaysBeforeMonth(y, m) + d, m0) == m
    decreases m - m0
  {
    DaysBeforeMonthBound(y, m);
    DaysBeforeMonthGrows(y, m0, m);
    if m0 < m {
      var doy := DaysBeforeMonth(y, m) + d;
      MonthFromFinds(y, m0 + 1, m, d);
      DaysBeforeMonthGrows(y, m0 + 1, m);
      assert DaysBeforeMonth(y, m0 + 1) == DaysBeforeMonth(y, m0) + DaysInMonth(y, m0);
      assert !(m0 == 12 || doy <= DaysBeforeMonth(y, m0) + DaysInMonth(y, m0));
    }
  }

  lemma {:induction false} DaysBeforeMonthGrows(y: int, m1: int, m2: int)
    requires 1 <= m1 <= m2 <= 12
    ensures DaysBeforeMonth(y, m1) <= DaysBeforeMonth(y, m2)
    decreases m2 - m1
  {
    if m1 < m2 {
      DaysBeforeMonthGrows(y, m1, m2 - 1);
    }
  }

  datatype YMD = YMD(year: int, month: int, day: int)

  /** `date.fromordinal(n)`: the year, month and day of a day number. */
  function ToYMD(n: Date): (r: YMD)
    ensures ValidYMD(r.year, r.month, r.day)
    ensures FromYMD(r.year, r.month, r.day) == n
  {
    var y := YearOf(n);
    var doy := n - DaysBeforeYear(y);
    var m := MonthFrom(y, doy, 1);
    YMD(y, m, doy - DaysBeforeMonth(y, m))
  }

  lemma ToYMDFromYMD(y: int, m: int, d: int)
    requires ValidYMD(y, m, d)
    ensures ToYMD(FromYMD(y, m, d)) == YMD(y, m, d)
  {
    var r := ToYMD(FromYMD(y, m, d));
    FromYMDInjective(r.year, r.month, r.day, y, m, d);
  }

  /** Distinct valid dates have distinct day numbers. */
  lemma FromYMDInjective(y1: int, m1: int, d1: int, y2: int, m2: int, d2: int)
    requires ValidYMD(y1, m1, d1) && ValidYMD(y2, m2, d2)
    requires FromYMD(y1, m1, d1) == FromYMD(y2, m2, d2)
    ensures y1 == y2 && m1 == m2 && d1 == d2
  {
    YearsOfDayUnique(FromYMD(y1, m1, d1), y1, y2);
    MonthDayUnique(y1, m1, d1, m2, d2);
  }

  /** A day of the year falls in one month only, on one day of it. */
  lemma MonthDayUnique(y: int, m1: int, d1: int, m2: int, d2: int)
    requires 1 <= m1 <= 12 && 1 <= d1 <= DaysInMonth(y, m1)
    requires 1 <= m2 <= 12 && 1 <= d2 <= DaysInMonth(y, m2)
    requires DaysBeforeMonth(y, m1) + d1 == DaysBeforeMonth(y, m2) + d2
    ensures m1 == m2 && d1 == d2
  {
    if m1 < m2 {
      DayOfYearGrows(y, m1, d1, m2, d2);
    } else if m2 < m1 {
      DayOfYearGrows(y, m2, d2, m1, d1);
    }
  }

  /** A day of a later month comes later in the year. */
  lemma DayOfYearGrows(y: int, m1: int, d1: int, m2: int, d2: int)
    requires 1 <= m1 < m2 <= 12 && d1 <= DaysInMonth(y, m1) && 1 <= d2
    ensures DaysBeforeMonth(y, m1) + d1 < DaysBeforeMonth(y, m2) + d2
  {
    DaysBeforeMonthGrows(y, m1 + 1, m2);
  }

  /** A day number falls in one year only. */
  lemma YearsOfDayUnique(n: int, y1: int, y2: int)
    requires 1 <= y1 && DaysBeforeYear(y1) < n <= DaysBeforeYear(y1) + DaysInYear(y1)
    requires 1 <= y2 && DaysBeforeYear(y2) < n <= DaysBeforeYear(y2) + DaysInYear(y2)
    ensures y1 == y2
  {
    if y1 < y2 {
      DaysBeforeYearStep(y1);
      DaysBeforeYearMonotone(y1 + 1, y2);
    } else if y2 < y1 {
      DaysBeforeYearStep(y2);
      DaysBeforeYearMonotone(y2 + 1, y1);
    }
  }

  // ------------------------------------------------------------------
  // ISO text (`str(date)` and `date.fromisoformat`)
  // ------------------------------------------------------------------

  function Pow10(w: nat): (p: nat)
    ensures p >= 1
  {
    if w == 0 then 1 else 10 * Pow10(w - 1)
  }

  predicate IsDigit(c: char)
  {
    '0' <= c <= '9'
  }

  /** `n` written with exactly `w` decimal digits, zero-padded on the left. */
  function Digits(n: nat, w: nat): (s: string)
    ensures |s| == w
    ensures forall i :: 0 <= i < |s| ==> IsDigit(s[i])
  {
    if w == 0 then "" else Digits(n / 10, w - 1) + [('0' as int + n % 10) as char]
  }

  /** The value of a string of decimal digits, or `None` if it holds anything else. */
  function ParseDigits(s: string): (r: Option<nat>)
    ensures r.Some? <==> forall i :: 0 <= i < |s| ==> IsDigit(s[i])
  {
    if s == [] then Some(0)
    else if !IsDigit(s[|s| - 1]) then None
    else
      match ParseDigits(s[..|s| - 1])
      case None => None
      case Some(v) => Some(10 * v + (s[|s| - 1] as int - '0' as int))
  }

  lemma {:induction false} ParseDigitsOfDigits(n: nat, w: nat)
    requires n < Pow10(w)
    ensures ParseDigits(Digits(n, w)) == Some(n)
  {
    if w > 0 {
      ParseDigitsOfDigits(n / 10, w - 1);
      var s := Digits(n, w);
      assert s[..|s| - 1] == Digits(n / 10, w - 1);
    }
  }

  /** `str(d)`: YYYY-MM-DD. */
  function IsoFormat(d: Date): (s: string)
    ensures |s| == 10 && s[4] == '-' && s[7] == '-'
    ensures forall i :: 0 <= i < 10 && i != 4 && i != 7 ==> IsDigit(s[i])
  {
    var r := ToYMD(d);
    Digits(r.year, 4) + "-" + Digits(r.month, 2) + "-" + Digits(r.day, 2)
  }

  /** `date.fromisoformat(s)` for the YYYY-MM-DD form; `None` where Python raises. */
  function ParseIsoDate(s: string): (r: Option<Date>)
  {
    if |s| != 10 || s[4] != '-' || s[7] != '-' then None
    else
      match (ParseDigits(s[..4]), ParseDigits(s[5..7]), ParseDigits(s[8..]))
      case (Some(y), Some(m), Some(d)) =>
        if ValidYMD(y, m, d) then Some(FromYMD(y, m, d)) else None
      case _ => None
  }

  /** Reading back a date's ISO text gives the date. */
  lemma ParseIsoFormat(d: Date)
    ensures ParseIsoDate(IsoFormat(d)) == Some(d)
  {
    var r := ToYMD(d);
    var s := IsoFormat(d);
    assert s[..4] == Digits(r.year, 4);
    assert s[5..7] == Digits(r.month, 2);
    assert s[8..] == Digits(r.day, 2);
    ParseDigitsOfDigits(r.year, 4);
    ParseDigitsOfDigits(r.month, 2);
    ParseDigitsOfDigits(r.day, 2);
  }

  lemma IsoFormatInjective(d1: Date, d2: Date)
    requires IsoFormat(d1) == IsoFormat(d2)
    ensures d1 == d2
  {
    ParseIsoFormat(d1);
    ParseIsoFormat(d2);
  }

  // ------------------------------------------------------------------
  // Timestamps
  // ------------------------------------------------------------------

  const SecondsPerDay: int := 86400

  /** `ts.date()`: the day a timestamp falls in. */
  function DateOf(ts: int): int
  {
    ts / SecondsPerDay + 1
  }

  /** `datetime.combine(d, time(h, m))`, as a timestamp. */
  function At(d: int, minuteOfDay: int): int
  {
    (d - 1) * SecondsPerDay + minuteOfDay * 60
  }

  /** `date(1970, 1, 1).toordinal()`. */
  const UnixEpochDay: int := 719163

  /** 1970-01-01 00:00 as a timestamp. */
  const UnixEpoch: int := At(UnixEpochDay, 0)

  lemma UnixEpochDayIs1970()
    ensures ValidYMD(1970, 1, 1) && FromYMD(1970, 1, 1) == UnixEpochDay
  {
  }

  /** `datetime.fromtimestamp(ms / 1000, tz=timezone.utc)`, to the whole second. */
  function FromUnixMillis(ms: int): (ts: int)
    ensures (ts - UnixEpoch) * 1000 <= ms < (ts - UnixEpoch) * 1000 + 1000
    ensures DateOf(ts) == UnixEpochDay + ms / 86_400_000
  {
    var s := ms / 1000;
    assert s / SecondsPerDay == ms / 86_400_000;
    UnixEpoch + s
  }

  lemma DateOfAt(d: int, minuteOfDay: int)
    requires 0 <= minuteOfDay < 1440
    ensures DateOf(At(d, minuteOfDay)) == d
  {
  }

  /** `ts.time()` as minutes since midnight. */
  function MinuteOfDay(ts: int): (r: int)
    ensures 0 <= r < 1440
  {
    (ts % SecondsPerDay) / 60
  }
}
