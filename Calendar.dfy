/**
 * The NYSE trading calendar: observed holidays, early-close days, trading
 * days, market hours and the next market open, all on day numbers.
 * Times of day are microseconds since midnight, US Eastern; the conversion
 * of aware datetimes into Eastern time is not modelled.
 *
 * Python's `//` and `%` by a positive constant agree with Dafny's Euclidean
 * `/` and `%`, which is all the Easter computation uses.
 */
module Calendar {
  import opened Common
  import opened Dates

  // ------------------------------------------------------------------
  // Month arithmetic the holiday proofs share
  // ------------------------------------------------------------------

  function LeapDay(y: int): int
  {
    if IsLeap(y) then 1 else 0
  }

  lemma DaysBeforeMonthValues(y: int)
    ensures DaysBeforeMonth(y, 1) == 0 && DaysBeforeMonth(y, 2) == 31
    ensures DaysBeforeMonth(y, 3) == 59 + LeapDay(y) && DaysBeforeMonth(y, 4) == 90 + LeapDay(y)
    ensures DaysBeforeMonth(y, 5) == 120 + LeapDay(y) && DaysBeforeMonth(y, 6) == 151 + LeapDay(y)
    ensures DaysBeforeMonth(y, 7) == 181 + LeapDay(y) && DaysBeforeMonth(y, 8) == 212 + LeapDay(y)
    ensures DaysBeforeMonth(y, 9) == 243 + LeapDay(y) && DaysBeforeMonth(y, 10) == 273 + LeapDay(y)
    ensures DaysBeforeMonth(y, 11) == 304 + LeapDay(y) && DaysBeforeMonth(y, 12) == 334 + LeapDay(y)
  {
    assert DaysBeforeMonth(y, 2) == 31;
    assert DaysBeforeMonth(y, 3) == 59 + LeapDay(y);
    assert DaysBeforeMonth(y, 4) == 90 + LeapDay(y);
    assert DaysBeforeMonth(y, 5) == 120 + LeapDay(y);
    assert DaysBeforeMonth(y, 6) == 151 + LeapDay(y);
    assert DaysBeforeMonth(y, 7) == 181 + LeapDay(y);
    assert DaysBeforeMonth(y, 8) == 212 + LeapDay(y);
    assert DaysBeforeMonth(y, 9) == 243 + LeapDay(y);
    assert DaysBeforeMonth(y, 10) == 273 + LeapDay(y);
    assert DaysBeforeMonth(y, 11) == 304 + LeapDay(y);
  }

  // ------------------------------------------------------------------
  // Fixed-date holidays, with their observed shifts
  // ------------------------------------------------------------------

  /** The weekend rule: a Saturday is observed the day before, a Sunday the day after. */
  function WeekendObserved(d: int): int
  {
    if Weekday(d) == 5 then d - 1
    else if Weekday(d) == 6 then d + 1
    else d
  }

  /** The observed day is a weekday at most one day away; a weekday is kept. */
  lemma WeekendObservedMeaning(d: int)
    ensures Weekday(WeekendObserved(d)) < 5
    ensures -1 <= WeekendObserved(d) - d <= 1
    ensures Weekday(d) < 5 <==> WeekendObserved(d) == d
    ensures Weekday(d) == 5 <==> WeekendObserved(d) == d - 1
    ensures Weekday(d) == 6 <==> WeekendObserved(d) == d + 1
  {
    WeekdayShift(d, -1);
    WeekdayShift(d, 1);
  }

  /** January 1, observed on January 2 only when it falls on a Sunday. */
  function NewYears(y: Year): int
  {
    var d := FromYMD(y, 1, 1);
    if Weekday(d) == 6 then d + 1 else d
  }

  /** June 19 from 2022 on, shifted off weekends; before 2022 the sentinel day 1 (0001-01-01). */
  function Juneteenth(y: Year): int
  {
    if y < 2022 then 1 else WeekendObserved(FromYMD(y, 6, 19))
  }

  /** July 4, shifted off weekends. */
  function IndependenceDay(y: Year): int
  {
    WeekendObserved(FromYMD(y, 7, 4))
  }

  /** December 25, shifted off weekends. */
  function Christmas(y: Year): int
  {
    WeekendObserved(FromYMD(y, 12, 25))
  }

  /** The day before and after a date of the month are its neighbours in day numbers. */
  lemma Neighbours(y: Year, m: int, d: int)
    requires 1 <= m <= 12 && 2 <= d < DaysInMonth(y, m)
    ensures FromYMD(y, m, d - 1) == FromYMD(y, m, d) - 1
    ensures FromYMD(y, m, d + 1) == FromYMD(y, m, d) + 1
  {
    FromYMDInjectiveDay(y, m, d - 1, d);
    FromYMDInjectiveDay(y, m, d + 1, d);
  }

  /**
   * July 4 and Christmas are observed on weekdays at most a day away, on the
   * date itself when it is a weekday; a Saturday moves to the 3rd (24th), a
   * Sunday to the 5th (26th).
   */
  lemma ObservedShift(y: Year)
    ensures Weekday(IndependenceDay(y)) < 5 && -1 <= IndependenceDay(y) - FromYMD(y, 7, 4) <= 1
    ensures Weekday(FromYMD(y, 7, 4)) < 5 ==> IndependenceDay(y) == FromYMD(y, 7, 4)
    ensures Weekday(FromYMD(y, 7, 4)) == 5 ==> IndependenceDay(y) == FromYMD(y, 7, 3)
    ensures Weekday(FromYMD(y, 7, 4)) == 6 ==> IndependenceDay(y) == FromYMD(y, 7, 5)
    ensures Weekday(Christmas(y)) < 5 && -1 <= Christmas(y) - FromYMD(y, 12, 25) <= 1
    ensures Weekday(FromYMD(y, 12, 25)) < 5 ==> Christmas(y) == FromYMD(y, 12, 25)
    ensures Weekday(FromYMD(y, 12, 25)) == 5 ==> Christmas(y) == FromYMD(y, 12, 24)
    ensures Weekday(FromYMD(y, 12, 25)) == 6 ==> Christmas(y) == FromYMD(y, 12, 26)
  {
    WeekendObservedMeaning(FromYMD(y, 7, 4));
    Neighbours(y, 7, 4);
    WeekendObservedMeaning(FromYMD(y, 12, 25));
    Neighbours(y, 12, 25);
  }

  /** Juneteenth is no holiday before 2022; from then on it is observed like July 4. */
  lemma JuneteenthShift(y: Year)
    ensures y < 2022 ==> Juneteenth(y) == 1
    ensures y >= 2022 ==> Weekday(Juneteenth(y)) < 5 && -1 <= Juneteenth(y) - FromYMD(y, 6, 19) <= 1
    ensures y >= 2022 && Weekday(FromYMD(y, 6, 19)) < 5 ==> Juneteenth(y) == FromYMD(y, 6, 19)
    ensures y >= 2022 && Weekday(FromYMD(y, 6, 19)) == 5 ==> Juneteenth(y) == FromYMD(y, 6, 18)
    ensures y >= 2022 && Weekday(FromYMD(y, 6, 19)) == 6 ==> Juneteenth(y) == FromYMD(y, 6, 20)
  {
    WeekendObservedMeaning(FromYMD(y, 6, 19));
    Neighbours(y, 6, 19);
  }

  /** New Year's Day moves only off a Sunday, to Monday January 2; a Saturday January 1 stays. */
  lemma NewYearsShift(y: Year)
    ensures Weekday(FromYMD(y, 1, 1)) == 6 ==> NewYears(y) == FromYMD(y, 1, 2) && Weekday(NewYears(y)) == 0
    ensures Weekday(FromYMD(y, 1, 1)) != 6 ==> NewYears(y) == FromYMD(y, 1, 1)
  {
    WeekdayShift(FromYMD(y, 1, 1), 1);
    FromYMDInjectiveDay(y, 1, 2, 1);
  }

  // ------------------------------------------------------------------
  // Rule-based holidays
  // ------------------------------------------------------------------

  /** `_nth_weekday`: the `n`-th weekday `wd` of the month, counted from its first day. */
  function NthWeekday(y: Year, m: int, wd: int, n: int): int
    requires 1 <= m <= 12
  {
    var first := FromYMD(y, m, 1);
    first + (wd - Weekday(first)) % 7 + 7 * (n - 1)
  }

  /** Counting from any first day, the offset to the `n`-th weekday `wd` stays within four weeks. */
  lemma NthFromFirst(first: int, wd: int, n: int)
    requires 0 <= wd < 7 && 1 <= n <= 4
    ensures var k := (wd - Weekday(first)) % 7 + 7 * (n - 1);
            0 <= k <= 27 && Weekday(first + k) == wd
  {
    var k := (wd - Weekday(first)) % 7 + 7 * (n - 1);
    WeekdayShift(first, k);
  }

  /**
   * The `n`-th weekday `wd` (for `n` from 1 to 4) falls on weekday `wd`, on
   * day `1 + ((wd - weekday(first)) mod 7) + 7(n - 1)` of the month.
   */
  lemma NthWeekdayMeaning(y: Year, m: int, wd: int, n: int)
    requires 1 <= m <= 12 && 0 <= wd < 7 && 1 <= n <= 4
    ensures var day := 1 + (wd - Weekday(FromYMD(y, m, 1))) % 7 + 7 * (n - 1);
            day <= 28 && NthWeekday(y, m, wd, n) == FromYMD(y, m, day)
            && Weekday(NthWeekday(y, m, wd, n)) == wd
  {
    var first := FromYMD(y, m, 1);
    NthFromFirst(first, wd, n);
    var day := 1 + (wd - Weekday(first)) % 7 + 7 * (n - 1);
    FromYMDInjectiveDay(y, m, day, 1);
  }

  /** The last day of month `m`: `date(y, m + 1, 1)` (or `date(y + 1, 1, 1)`) minus one day. */
  function LastDayOf(y: Year, m: int): int
    requires 1 <= m <= 12 && (m < 12 || y < 9999)
  {
    if m == 12 then FromYMD(y + 1, 1, 1) - 1 else FromYMD(y, m + 1, 1) - 1
  }

  /** `_last_weekday`: step back from the month's last day to weekday `wd`. */
  function LastWeekday(y: Year, m: int, wd: int): int
    requires 1 <= m <= 12 && (m < 12 || y < 9999)
  {
    var last := LastDayOf(y, m);
    last - (Weekday(last) - wd) % 7
  }

  lemma LastDayOfMeaning(y: Year, m: int)
    requires 1 <= m <= 12 && (m < 12 || y < 9999)
    ensures LastDayOf(y, m) == FromYMD(y, m, DaysInMonth(y, m))
  {
    DaysBeforeMonthValues(y);
    if m == 12 {
      DaysBeforeYearStep(y);
    }
  }

  /** Stepping back `(a - b) mod 7` days from weekday `a` lands on weekday `b`. */
  lemma StepBack(a: int, b: int)
    requires 0 <= a < 7 && 0 <= b < 7
    ensures 0 <= (a - b) % 7 < 7 && (a - (a - b) % 7) % 7 == b
  {
    if a >= b {
      assert (a - b) % 7 == a - b;
    } else {
      assert (a - b) % 7 == a - b + 7;
    }
  }

  /** The last weekday `wd` of a month (December included) is that weekday, within the month's last seven days. */
  lemma LastWeekdayMeaning(y: Year, m: int, wd: int)
    requires 1 <= m <= 12 && (m < 12 || y < 9999) && 0 <= wd < 7
    ensures var last := FromYMD(y, m, DaysInMonth(y, m));
            Weekday(LastWeekday(y, m, wd)) == wd && last - 7 < LastWeekday(y, m, wd) <= last
            && LastWeekday(y, m, wd) == FromYMD(y, m, DaysInMonth(y, m) - (last - LastWeekday(y, m, wd)))
  {
    LastDayOfMeaning(y, m);
    var dim := DaysInMonth(y, m);
    var last := FromYMD(y, m, dim);
    var delta := (Weekday(last) - wd) % 7;
    StepBack(Weekday(last), wd);
    assert LastWeekday(y, m, wd) == last - delta;
    WeekdayShift(last, -delta);
    FromYMDInjectiveDay(y, m, dim - delta, dim);
  }

  function MlkDay(y: Year): int { NthWeekday(y, 1, 0, 3) }
  function PresidentsDay(y: Year): int { NthWeekday(y, 2, 0, 3) }
  function MemorialDay(y: Year): int { LastWeekday(y, 5, 0) }
  function LaborDay(y: Year): int { NthWeekday(y, 9, 0, 1) }
  function Thanksgiving(y: Year): int { NthWeekday(y, 11, 3, 4) }

  /** The month and day of Easter Sunday by the anonymous Gregorian algorithm. */
  function EasterSum(y: Year): (x: int)
    ensures 114 <= x <= 148
  {
    var a := y % 19;
    var b, c := y / 100, y % 100;
    var d, e := b / 4, b % 4;
    var f := (b + 8) / 25;
    var g := (b - f + 1) / 3;
    var h := (19 * a + b - d - g + 15) % 30;
    var i, k := c / 4, c % 4;
    var l := (32 + 2 * e + 2 * i - h - k) % 7;
    var m := (a + 11 * h + 22 * l) / 451;
    assert 0 <= m <= 1;
    // the correction subtracts a week only when h + l is at least a week, and always when h + l is 35
    assert m == 1 ==> a + 11 * h + 22 * l >= 451;
    assert h + l >= 35 ==> a + 11 * h + 22 * l >= 451;
    h + l - 7 * m + 114
  }

  /** The month and day of Easter Sunday: from March 22 to April 25. */
  function EasterMonthDay(y: Year): (r: (int, int))
    ensures ValidYMD(y, r.0, r.1)
    ensures (r.0 == 3 && 22 <= r.1) || (r.0 == 4 && r.1 <= 25)
  {
    var x := EasterSum(y);
    (x / 31, x % 31 + 1)
  }

  /** `_good_friday`: two days before Easter. */
  function GoodFriday(y: Year): int
  {
    var (month, day) := EasterMonthDay(y);
    FromYMD(y, month, day) - 2
  }

  // ------------------------------------------------------------------
  // The holiday and half-day sets
  // ------------------------------------------------------------------

  /** `_nyse_holidays`: the ten holidays, with the sentinel day 1 removed. */
  function Holidays(y: Year): set<int>
  {
    {NewYears(y), MlkDay(y), PresidentsDay(y), GoodFriday(y), MemorialDay(y), Juneteenth(y),
     IndependenceDay(y), LaborDay(y), Thanksgiving(y), Christmas(y)} - {1}
  }

  /**
   * The early-close rule on its inputs: the day before the observed July 4
   * when that is a weekday, the day after Thanksgiving, and December 24 when
   * it is a weekday and no holiday.
   */
  function HalfDaySet(july4: int, thanksgiving: int, dec24: int, holidays: set<int>): set<int>
  {
    (if Weekday(july4 - 1) < 5 then {july4 - 1} else {})
      + {thanksgiving + 1}
      + (if Weekday(dec24) < 5 && dec24 !in holidays then {dec24} else {})
  }

  /** `_nyse_half_days`. */
  function HalfDays(y: Year): set<int>
  {
    HalfDaySet(IndependenceDay(y), Thanksgiving(y), FromYMD(y, 12, 24), Holidays(y))
  }

  predicate IsHoliday(d: Date)
  {
    d in Holidays(YearOf(d))
  }

  predicate IsHalfDay(d: Date)
  {
    d in HalfDays(YearOf(d))
  }

  predicate IsTradingDay(d: Date)
  {
    Weekday(d) < 5 && !IsHoliday(d)
  }

  /** Every early-close day is a weekday: Black Friday follows a Thursday, the others are checked. */
  /** Thanksgiving is a Thursday. */
  lemma ThanksgivingThursday(y: Year)
    ensures Weekday(Thanksgiving(y)) == 3
  {
    NthWeekdayMeaning(y, 11, 3, 4);
  }

  lemma HalfDaySetWeekdays(july4: int, thanksgiving: int, dec24: int, holidays: set<int>, d: int)
    requires Weekday(thanksgiving) == 3 && d in HalfDaySet(july4, thanksgiving, dec24, holidays)
    ensures Weekday(d) < 5
  {
    WeekdayShift(thanksgiving, 1);
  }

  /** Every early-close day is a weekday. */
  lemma HalfDaysAreWeekdays(y: Year, d: int)
    requires d in HalfDays(y)
    ensures Weekday(d) < 5
  {
    ThanksgivingThursday(y);
    HalfDaySetWeekdays(IndependenceDay(y), Thanksgiving(y), FromYMD(y, 12, 24), Holidays(y), d);
  }

  /** Before 2022 June 19 is no holiday; from 2022 its observed date is. */
  lemma JuneteenthFrom2022(y: Year)
    ensures y < 2022 ==> FromYMD(y, 6, 19) !in Holidays(y)
    ensures y >= 2022 ==> Juneteenth(y) in Holidays(y)
  {
    DaysBeforeMonthValues(y);
    var june19 := FromYMD(y, 6, 19);
    if y < 2022 {
      NthWeekdayMeaning(y, 1, 0, 3);
      NthWeekdayMeaning(y, 2, 0, 3);
      NthWeekdayMeaning(y, 9, 0, 1);
      NthWeekdayMeaning(y, 11, 3, 4);
      LastWeekdayMeaning(y, 5, 0);
      ObservedShift(y);
      NewYearsShift(y);
      assert MemorialDay(y) < june19;
      assert GoodFriday(y) < june19;
      assert IndependenceDay(y) > june19;
    } else {
      JuneteenthShift(y);
    }
  }

  /** The sentinel removal also drops New Year's Day of year 1, which falls on day 1. */
  lemma SentinelHidesFirstNewYear(y: Year)
    ensures NewYears(1) == 1
    ensures 1 !in Holidays(y)
  {
  }

  /** Day numbers in 2024 are day-of-year offsets from 738885. */
  lemma Year2024(m: int, d: int)
    requires ValidYMD(2024, m, d)
    ensures FromYMD(2024, m, d) == 738885 + DaysBeforeMonth(2024, m) + d
  {
    assert 2023 / 4 == 505 && 2023 / 100 == 20 && 2023 / 400 == 5;
    assert DaysBeforeYear(2024) == 738885;
  }

  /** The day numbers of the 2024 dates the calendar facts below use. */
  lemma Ordinals2024()
    ensures FromYMD(2024, 1, 1) == 738886
    ensures FromYMD(2024, 1, 15) == 738900
    ensures FromYMD(2024, 1, 16) == 738901
    ensures FromYMD(2024, 1, 17) == 738902
    ensures FromYMD(2024, 1, 18) == 738903
    ensures FromYMD(2024, 1, 19) == 738904
    ensures FromYMD(2024, 2, 1) == 738917
    ensures FromYMD(2024, 2, 19) == 738935
    ensures FromYMD(2024, 3, 29) == 738974
    ensures FromYMD(2024, 3, 31) == 738976
    ensures FromYMD(2024, 5, 27) == 739033
    ensures FromYMD(2024, 5, 31) == 739037
    ensures FromYMD(2024, 6, 19) == 739056
    ensures FromYMD(2024, 7, 3) == 739070
    ensures FromYMD(2024, 7, 4) == 739071
    ensures FromYMD(2024, 9, 1) == 739130
    ensures FromYMD(2024, 9, 2) == 739131
    ensures FromYMD(2024, 11, 1) == 739191
    ensures FromYMD(2024, 11, 28) == 739218
    ensures FromYMD(2024, 11, 29) == 739219
    ensures FromYMD(2024, 12, 24) == 739244
    ensures FromYMD(2024, 12, 25) == 739245
  {
    assert 2024 % 4 == 0 && 2024 % 100 == 24;
    assert IsLeap(2024);
    DaysBeforeMonthValues(2024);
    Year2024(1, 1);
    Year2024(1, 15);
    Year2024(1, 16);
    Year2024(1, 17);
    Year2024(1, 18);
    Year2024(1, 19);
    Year2024(2, 1);
    Year2024(2, 19);
    Year2024(3, 29);
    Year2024(3, 31);
    Year2024(5, 27);
    Year2024(5, 31);
    Year2024(6, 19);
    Year2024(7, 3);
    Year2024(7, 4);
    Year2024(9, 1);
    Year2024(9, 2);
    Year2024(11, 1);
    Year2024(11, 28);
    Year2024(11, 29);
    Year2024(12, 24);
    Year2024(12, 25);
  }

  lemma WinterHolidays2024()
    ensures NewYears(2024) == FromYMD(2024, 1, 1)
    ensures MlkDay(2024) == FromYMD(2024, 1, 15)
    ensures PresidentsDay(2024) == FromYMD(2024, 2, 19)
  {
    Ordinals2024();
    WeekdayIs(738886, 105556, 0);
    WeekdayIs(738917, 105560, 3);
    assert (0 - 3) % 7 == 4;
  }

  lemma Easter2024()
    ensures EasterMonthDay(2024) == (3, 31)
  {
    assert 2024 % 19 == 10 && 2024 / 100 == 20 && 2024 % 100 == 24;
    assert 20 / 4 == 5 && 20 % 4 == 0 && 28 / 25 == 1 && 20 / 3 == 6;
    assert 214 % 30 == 4 && 24 / 4 == 6 && 24 % 4 == 0;
    assert 40 % 7 == 5 && 164 / 451 == 0;
    assert EasterSum(2024) == 123;
    assert 123 / 31 == 3 && 123 % 31 == 30;
  }

  lemma SpringHolidays2024()
    ensures GoodFriday(2024) == FromYMD(2024, 3, 29)
    ensures MemorialDay(2024) == FromYMD(2024, 5, 27)
  {
    Ordinals2024();
    Easter2024();
    assert LastDayOf(2024, 5) == 739037;
    WeekdayIs(739037, 105577, 4);
    assert (4 - 0) % 7 == 4;
  }

  lemma SummerHolidays2024()
    ensures Juneteenth(2024) == FromYMD(2024, 6, 19)
    ensures IndependenceDay(2024) == FromYMD(2024, 7, 4)
    ensures LaborDay(2024) == FromYMD(2024, 9, 2)
  {
    Ordinals2024();
    WeekdayIs(739056, 105580, 2);
    WeekdayIs(739071, 105582, 3);
    WeekdayIs(739130, 105590, 6);
    assert (0 - 6) % 7 == 1;
  }

  lemma AutumnHolidays2024()
    ensures Thanksgiving(2024) == FromYMD(2024, 11, 28)
    ensures Christmas(2024) == FromYMD(2024, 12, 25)
  {
    Ordinals2024();
    WeekdayIs(739191, 105599, 4);
    assert (3 - 4) % 7 == 6;
    WeekdayIs(739245, 105607, 2);
  }

  /** The observed holidays of 2024, with Good Friday on March 29. */
  lemma Holidays2024()
    ensures GoodFriday(2024) == FromYMD(2024, 3, 29)
    ensures Holidays(2024) == {FromYMD(2024, 1, 1), FromYMD(2024, 1, 15), FromYMD(2024, 2, 19),
                               FromYMD(2024, 3, 29), FromYMD(2024, 5, 27), FromYMD(2024, 6, 19),
                               FromYMD(2024, 7, 4), FromYMD(2024, 9, 2), FromYMD(2024, 11, 28),
                               FromYMD(2024, 12, 25)}
  {
    WinterHolidays2024();
    SpringHolidays2024();
    SummerHolidays2024();
    AutumnHolidays2024();
    Ordinals2024();
  }

  /** The early closes of 2024: July 3, the day after Thanksgiving and Christmas Eve. */
  lemma HalfDays2024()
    ensures HalfDays(2024) == {FromYMD(2024, 7, 3), FromYMD(2024, 11, 29), FromYMD(2024, 12, 24)}
  {
    Holidays2024();
    SummerHolidays2024();
    AutumnHolidays2024();
    Ordinals2024();
    WeekdayIs(739070, 105582, 2);
    WeekdayIs(739244, 105607, 1);
    assert 739244 !in Holidays(2024);
    assert HalfDays(2024) == HalfDaySet(739071, 739218, 739244, Holidays(2024));
  }

  /** A day of 2024 trades when it is a weekday outside the holidays of 2024. */
  lemma TradingDay2024(n: Date)
    requires 738886 <= n <= 739251
    ensures IsTradingDay(n) <==> Weekday(n) < 5 && n !in Holidays(2024)
  {
    assert 2023 / 4 == 505 && 2023 / 100 == 20 && 2023 / 400 == 5;
    assert 2024 % 4 == 0 && 2024 % 100 == 24;
    YearOfUnique(n, 2024);
  }

  /** 2024-01-15, Martin Luther King Jr. Day, does not trade. */
  lemma MlkDay2024Closed()
    ensures !IsTradingDay(738900)
  {
    Holidays2024();
    Ordinals2024();
    TradingDay2024(738900);
  }

  // ------------------------------------------------------------------
  // Walking the calendar day by day
  //
  // Both loops of the calendar step a day at a time and test each day with
  // `is_trading_day`. They are written once over the day test `keep`, so that
  // their proofs do not unfold the holiday rules; the calendar operations
  // below pass `IsTradingDay`.
  // ------------------------------------------------------------------

  /** The days of `[lo, hi]` that `keep` accepts, ascending. */
  function DaysIn(lo: Date, hi: int, keep: Date -> bool): seq<Date>
    requires hi <= MaxOrdinal
    decreases hi - lo
  {
    if hi < lo then []
    else DaysIn(lo, hi - 1, keep) + (if keep(hi) then [hi as Date] else [])
  }

  /** The days kept are exactly the accepted days of `[lo, hi]`, strictly increasing. */
  lemma {:induction false} DaysInMeaning(lo: Date, hi: int, keep: Date -> bool)
    requires hi <= MaxOrdinal
    ensures var r := DaysIn(lo, hi, keep);
            (forall i :: 0 <= i < |r| ==> lo <= r[i] <= hi && keep(r[i]))
            && (forall d: Date :: lo <= d <= hi && keep(d) ==> d in r)
            && (forall i, j :: 0 <= i < j < |r| ==> r[i] < r[j])
    decreases hi - lo
  {
    if hi >= lo {
      DaysInMeaning(lo, hi - 1, keep);
      var prev := DaysIn(lo, hi - 1, keep);
      var r := DaysIn(lo, hi, keep);
      assert r == prev + (if keep(hi) then [hi as Date] else []);
      assert forall i :: 0 <= i < |prev| ==> r[i] == prev[i];
    }
  }

  /**
   * The accepted days of `[start, end]`, collected by stepping one day past
   * `end`: at `date.max` that step raises `OverflowError`.
   */
  function DaysThrough(start: Date, end: Date, keep: Date -> bool): Outcome<seq<Date>>
  {
    if start > end then Returned([])
    else if end == MaxOrdinal then Raised(OtherExc("OverflowError"))
    else Returned(DaysIn(start, end, keep))
  }

  method CollectDays(start: Date, end: Date, keep: Date -> bool) returns (r: Outcome<seq<Date>>)
    ensures r == DaysThrough(start, end, keep)
  {
    var dates: seq<Date> := [];
    var current: Date := start;
    while current <= end
      invariant start <= current <= if start <= end then end + 1 else start
      invariant dates == DaysIn(start, current - 1, keep)
      decreases end - current
    {
      if keep(current) {
        dates := dates + [current];
      }
      if current == MaxOrdinal {
        return Raised(OtherExc("OverflowError"));
      }
      current := current + 1;
    }
    return Returned(dates);
  }

  /** The first day after `d` that `keep` accepts; stepping past `date.max` raises `OverflowError`. */
  function NextAfter(d: Date, keep: Date -> bool): Outcome<Date>
    decreases MaxOrdinal - d
  {
    if d == MaxOrdinal then Raised(OtherExc("OverflowError"))
    else if keep(d + 1) then Returned(d + 1)
    else NextAfter(d + 1, keep)
  }

  method FindNext(d: Date, keep: Date -> bool) returns (r: Outcome<Date>)
    ensures r == NextAfter(d, keep)
  {
    if d == MaxOrdinal {
      return Raised(OtherExc("OverflowError"));
    }
    var n: Date := d + 1;
    while !keep(n)
      invariant d < n && NextAfter(d, keep) == NextAfter(n - 1, keep)
      decreases MaxOrdinal - n
    {
      if n == MaxOrdinal {
        return Raised(OtherExc("OverflowError"));
      }
      n := n + 1;
    }
    return Returned(n);
  }

  /** A day found is accepted, later than `d`, and no earlier day after `d` is accepted. */
  lemma {:induction false} NextAfterMeaning(d: Date, keep: Date -> bool)
    ensures NextAfter(d, keep).Returned? ==>
              var n := NextAfter(d, keep).value;
              d < n && keep(n) && forall k: Date :: d < k < n ==> !keep(k)
    decreases MaxOrdinal - d
  {
    if d < MaxOrdinal && !keep(d + 1) {
      NextAfterMeaning(d + 1, keep);
    }
  }

  /** The search fails only by running off the end of the calendar. */
  lemma {:induction false} NextAfterRaises(d: Date, keep: Date -> bool)
    ensures NextAfter(d, keep).Raised? ==>
              NextAfter(d, keep).exc == OtherExc("OverflowError")
              && forall k: Date :: d < k ==> !keep(k)
    decreases MaxOrdinal - d
  {
    if d < MaxOrdinal && !keep(d + 1) {
      NextAfterRaises(d + 1, keep);
    }
  }

  // ------------------------------------------------------------------
  // Trading dates
  // ------------------------------------------------------------------

  /** `get_trading_dates`: the trading days in `[start, end]`. */
  function TradingDates(start: Date, end: Date): Outcome<seq<Date>>
  {
    DaysThrough(start, end, IsTradingDay)
  }

  method GetTradingDates(start: Date, end: Date) returns (r: Outcome<seq<Date>>)
    ensures r == TradingDates(start, end)
  {
    r := CollectDays(start, end, IsTradingDay);
  }

  /**
   * The trading dates returned are exactly the trading days of the range, in
   * increasing order; an empty or reversed range gives none; only a range
   * ending at `date.max` raises.
   */
  lemma TradingDatesMeaning(start: Date, end: Date)
    ensures TradingDates(start, end).Raised? <==> start <= end == MaxOrdinal
    ensures start > end ==> TradingDates(start, end) == Returned([])
    ensures TradingDates(start, end).Returned? ==>
              var r := TradingDates(start, end).value;
              (forall i :: 0 <= i < |r| ==> start <= r[i] <= end && IsTradingDay(r[i]))
              && (forall d: Date :: start <= d <= end && IsTradingDay(d) ==> d in r)
              && (forall i, j :: 0 <= i < j < |r| ==> r[i] < r[j])
  {
    if start <= end < MaxOrdinal {
      DaysInMeaning(start, end, IsTradingDay);
      assert TradingDates(start, end).value == DaysIn(start, end, IsTradingDay);
    }
  }

  // ------------------------------------------------------------------
  // Market hours and the next open
  // ------------------------------------------------------------------

  /** A time of day in microseconds since midnight. */
  type TimeOfDay = t: int | 0 <= t < 86_400_000_000

  function TimeAt(hour: int, minute: int): int
  {
    (hour * 60 + minute) * 60_000_000
  }

  /** The open is 9:30 on every day. */
  function MarketOpenTime(d: Date): int
  {
    TimeAt(9, 30)
  }

  /** The close is 13:00 on early-close days and 16:00 otherwise. */
  function MarketCloseTime(d: Date): (t: int)
    ensures t == TimeAt(13, 0) <==> IsHalfDay(d)
    ensures t == TimeAt(16, 0) <==> !IsHalfDay(d)
  {
    if IsHalfDay(d) then TimeAt(13, 0) else TimeAt(16, 0)
  }

  /** `is_market_open` at an Eastern date and time of day. */
  predicate IsMarketOpen(d: Date, t: TimeOfDay)
  {
    IsTradingDay(d) && MarketOpenTime(d) <= t < MarketCloseTime(d)
  }

  /** Each day's session opens before it closes: six and a half hours, or three and a half on an early-close day. */
  lemma SessionLength(d: Date)
    ensures MarketOpenTime(d) < MarketCloseTime(d)
    ensures MarketCloseTime(d) - MarketOpenTime(d) == if IsHalfDay(d) then TimeAt(3, 30) else TimeAt(6, 30)
  {
  }

  /**
   * The market is open only on trading days, for the session's length from
   * 9:30: the times open on a trading day form one non-empty interval.
   */
  lemma MarketOpenMeaning(d: Date, t: TimeOfDay)
    ensures IsMarketOpen(d, t) <==>
              IsTradingDay(d) && 0 <= t - TimeAt(9, 30) < (if IsHalfDay(d) then TimeAt(3, 30) else TimeAt(6, 30))
    ensures IsTradingDay(d) ==> IsMarketOpen(d, MarketOpenTime(d)) && !IsMarketOpen(d, MarketCloseTime(d))
  {
    SessionLength(d);
  }

  /** `next_market_open`: today if a trading day before 9:30, else the next trading day (opening at 9:30). */
  function NextOpen(d: Date, t: TimeOfDay): Outcome<Date>
  {
    if IsTradingDay(d) && t < MarketOpenTime(d) then Returned(d) else NextAfter(d, IsTradingDay)
  }

  method NextMarketOpen(d: Date, t: TimeOfDay) returns (r: Outcome<Date>)
    ensures r == NextOpen(d, t)
  {
    if IsTradingDay(d) && t < MarketOpenTime(d) {
      return Returned(d);
    }
    r := FindNext(d, IsTradingDay);
  }

  /**
   * The next open is on a trading day: the given day exactly when it is a
   * trading day and the time is before 9:30, otherwise the earliest trading
   * day strictly after it. It raises only when no trading day follows.
   */
  lemma NextOpenMeaning(d: Date, t: TimeOfDay)
    ensures NextOpen(d, t).Returned? ==>
              var n := NextOpen(d, t).value;
              IsTradingDay(n)
              && (n == d <==> IsTradingDay(d) && t < TimeAt(9, 30))
              && (n != d ==> d < n && forall k: Date :: d < k < n ==> !IsTradingDay(k))
    ensures NextOpen(d, t).Raised? ==> forall k: Date :: d < k ==> !IsTradingDay(k)
  {
    if !(IsTradingDay(d) && t < MarketOpenTime(d)) {
      NextAfterMeaning(d, IsTradingDay);
      NextAfterRaises(d, IsTradingDay);
      assert NextOpen(d, t) == NextAfter(d, IsTradingDay);
    }
  }

  /**
   * The market opens at the next open, and the next open is never a moment
   * the market is already open: while it is open, the next open is on a
   * later day.
   */
  lemma NextOpenOpens(d: Date, t: TimeOfDay)
    ensures NextOpen(d, t).Returned? ==>
              var n := NextOpen(d, t).value;
              IsMarketOpen(n, MarketOpenTime(n)) && (n == d ==> t < MarketOpenTime(d))
    ensures IsMarketOpen(d, t) && NextOpen(d, t).Returned? ==> d < NextOpen(d, t).value
  {
    NextOpenMeaning(d, t);
    if NextOpen(d, t).Returned? {
      MarketOpenMeaning(NextOpen(d, t).value, MarketOpenTime(NextOpen(d, t).value));
    }
  }
}
