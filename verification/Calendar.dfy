/** Hinnant's day-count-to-date conversion (records.rs `civil_from_days`) against the Gregorian calendar
    as it is defined: month lengths, the leap rule, and days counted one year and one month at a time. */
module Calendar {

  const I64_MAX: int := 0x7FFF_FFFF_FFFF_FFFF

  type I64 = n: int | -0x8000_0000_0000_0000 <= n <= I64_MAX

  /** Addition as a release build performs it: modulo 2^64. */
  function WrappingAdd(a: I64, b: I64): I64 {
    if a + b > I64_MAX then a + b - 0x1_0000_0000_0000_0000
    else if a + b < -I64_MAX - 1 then a + b + 0x1_0000_0000_0000_0000
    else a + b
  }

  datatype Date = Date(year: int, month: int, day: int)

  // ---- the calendar -----------------------------------------------------------------------------------------

  /** Appendix C of RFC 3339. */
  predicate Leap(year: int) {
    year % 4 == 0 && (year % 100 != 0 || year % 400 == 0)
  }

  /** The table of section 5.7 of RFC 3339. */
  function MonthLength(year: int, month: int): nat {
    if month == 2 then if Leap(year) then 29 else 28
    else if month in {4, 6, 9, 11} then 30
    else 31
  }

  predicate IsDate(date: Date) {
    1 <= date.month <= 12 && 1 <= date.day <= MonthLength(date.year, date.month)
  }

  function YearLength(year: int): nat {
    if Leap(year) then 366 else 365
  }

  /** Days from 1970-01-01 to the first day of `year`, counted a year at a time. */
  function DaysBeforeYear(year: int): int
    decreases if year >= 1970 then year - 1970 else 1970 - year
  {
    if year == 1970 then 0
    else if year > 1970 then DaysBeforeYear(year - 1) + YearLength(year - 1)
    else DaysBeforeYear(year + 1) - YearLength(year)
  }

  /** Days from the first of January to the first of `month`, counted a month at a time. */
  function DaysBeforeMonth(year: int, month: int): nat
    requires 1 <= month
  {
    if month == 1 then 0 else DaysBeforeMonth(year, month - 1) + MonthLength(year, month - 1)
  }

  /** The number of days from 1970-01-01 to `date`. */
  function DayNumber(date: Date): int
    requires IsDate(date)
  {
    DaysBeforeYear(date.year) + DaysBeforeMonth(date.year, date.month) + date.day - 1
  }

  /** The day after. */
  function Successor(date: Date): Date {
    if date.day < MonthLength(date.year, date.month) then date.(day := date.day + 1)
    else if date.month < 12 then Date(date.year, date.month + 1, 1)
    else Date(date.year + 1, 1, 1)
  }

  // ---- the algorithm ----------------------------------------------------------------------------------------

  /** The year of its era a day falls in. */
  function YearOfEra(dayOfEra: int): int {
    (dayOfEra - dayOfEra / 1460 + dayOfEra / 36_524 - dayOfEra / 146_096) / 365
  }

  function FromShifted(shifted: int): Date {
    var era := shifted / 146_097;
    var dayOfEra := shifted % 146_097;
    var yearOfEra := YearOfEra(dayOfEra);
    var year := yearOfEra + era * 400;
    var dayOfYear := dayOfEra - (365 * yearOfEra + yearOfEra / 4 - yearOfEra / 100);
    var shiftedMonth := (5 * dayOfYear + 2) / 153;
    var day := dayOfYear - (153 * shiftedMonth + 2) / 5 + 1;
    var month := if shiftedMonth < 10 then shiftedMonth + 3 else shiftedMonth - 9;
    Date(if month <= 2 then year + 1 else year, month, day)
  }

  function CivilFromDays(days: I64): Date {
    FromShifted(WrappingAdd(days, 719_468))
  }

  // ---- closed forms -----------------------------------------------------------------------------------------

  /** How many leap years there are up to and including `year`, but for a constant. */
  function Leaps(year: int): int {
    year / 4 - year / 100 + year / 400
  }

  lemma LeapsStep(year: int)
    ensures Leaps(year) - Leaps(year - 1) == if Leap(year) then 1 else 0
  {
    QuotientStep(year, 4);
    QuotientStep(year, 100);
    QuotientStep(year, 400);
  }

  lemma QuotientStep(n: int, k: int)
    requires k == 4 || k == 100 || k == 400
    ensures n / k - (n - 1) / k == if n % k == 0 then 1 else 0
  {
  }

  lemma {:induction false} YearForm(year: int)
    ensures DaysBeforeYear(year) == 365 * year + Leaps(year - 1) - 719_527
    decreases if year >= 1970 then year - 1970 else 1970 - year
  {
    hide Leaps, Leap;
    if year == 1970 {
      assert Leaps(1969) == 477 by { LeapsOf1969(); }
    } else if year > 1970 {
      YearForm(year - 1);
      LeapsStep(year - 1);
    } else {
      YearForm(year + 1);
      LeapsStep(year);
    }
  }

  lemma LeapsOf1969()
    ensures Leaps(1969) == 477
  {
  }

  lemma MonthForm(year: int, month: int)
    requires 1 <= month <= 12
    ensures DaysBeforeMonth(year, month) ==
      (if month <= 2 then 31 * (month - 1)
       else (153 * (month - 3) + 2) / 5 + (if Leap(year) then 60 else 59))
  {
    hide Leap;
    if month >= 2 { assert DaysBeforeMonth(year, 2) == 31; }
    if month >= 4 { MonthForm(year, month - 1); }
  }

  /** A day count with the year beginning in March: no special case for the leap day. */
  function MarchForm(year: int, dayOfYear: int): int {
    365 * year + Leaps(year) + dayOfYear - 719_468
  }

  /** The month a day of the March year falls in. */
  lemma MonthOfYear(dayOfYear: int)
    requires 0 <= dayOfYear <= 365
    ensures var m := (5 * dayOfYear + 2) / 153;
      var day := dayOfYear - (153 * m + 2) / 5 + 1;
      && 0 <= m <= 11 && 1 <= day
      && day <= (if m == 11 then 29 else if m in {1, 3, 6, 8} then 30 else 31)
      && (m == 11 && day == 29 <==> dayOfYear == 365)
      && (m >= 10 ==> dayOfYear == 31 * (m - 10) + 305 + day)
  {
    var m := (5 * dayOfYear + 2) / 153;
    if m == 0 {} else if m == 1 {} else if m == 2 {} else if m == 3 {} else if m == 4 {} else if m == 5 {}
    else if m == 6 {} else if m == 7 {} else if m == 8 {} else if m == 9 {} else if m == 10 {} else { assert m == 11; }
  }

  /** Where a day lies in its era: century, four-year cycle, year and day. */
  lemma EraSplit(dayOfEra: int) returns (c: int, q: int, y: int, d: int)
    requires 0 <= dayOfEra < 146_097
    ensures 0 <= c <= 3 && 0 <= q <= 24 && 0 <= y <= 3 && 0 <= d <= 365
    ensures dayOfEra == 36_524 * c + 1461 * q + 365 * y + d
    ensures d == 365 ==> y == 3 && (q == 24 ==> c == 3)
  {
    c := if dayOfEra == 146_096 then 3 else dayOfEra / 36_524;
    var r := dayOfEra - 36_524 * c;
    q := r / 1461;
    var s := r - 1461 * q;
    y := if s == 1460 then 3 else s / 365;
    d := s - 365 * y;
  }

  lemma YearOfEraIs(c: int, q: int, y: int, d: int)
    requires 0 <= c <= 3 && 0 <= q <= 24 && 0 <= y <= 3 && 0 <= d <= 365
    requires d == 365 ==> y == 3 && (q == 24 ==> c == 3)
    ensures YearOfEra(36_524 * c + 1461 * q + 365 * y + d) == 100 * c + 4 * q + y
  {
    var n := 36_524 * c + 1461 * q + 365 * y + d;
    var e := if 24 * c + q + 365 * y + d >= 1460 then 1 else 0;
    assert n / 1460 == 25 * c + q + e by {
      assert n == 1460 * (25 * c + q + e) + (24 * c + q + 365 * y + d - 1460 * e);
    }
    var last := if n == 146_096 then 1 else 0;
    assert n / 36_524 == c + last;
    assert n / 146_096 == last;
    assert n - n / 1460 + n / 36_524 - n / 146_096 == 365 * (100 * c + 4 * q + y) + d - e;
    assert 0 <= d - e < 365;
  }

  /** The conversion inverts the March count: every shifted day is the `dayOfYear`-th day of its year. */
  lemma Located(shifted: int) returns (year: int, dayOfYear: int)
    ensures 0 <= dayOfYear <= 365 && (dayOfYear == 365 ==> Leap(year + 1))
    ensures MarchForm(year, dayOfYear) == shifted - 719_468
    ensures var m := (5 * dayOfYear + 2) / 153;
      FromShifted(shifted) == Date(if m < 10 then year else year + 1, if m < 10 then m + 3 else m - 9,
                                   dayOfYear - (153 * m + 2) / 5 + 1)
  {
    hide Leap, Leaps, YearOfEra, FromShifted, MarchForm;
    var era, dayOfEra := shifted / 146_097, shifted % 146_097;
    var c, q, y, d := EraSplit(dayOfEra);
    YearOfEraIs(c, q, y, d);
    var yearOfEra := 100 * c + 4 * q + y;
    year, dayOfYear := yearOfEra + era * 400, d;
    assert yearOfEra / 4 == 25 * c + q && yearOfEra / 100 == c;
    MarchOf(era, yearOfEra, d);
    FromMarch(shifted, yearOfEra, d);
    if d == 365 { LeapEnds(era, c, q); }
  }

  lemma MarchOf(era: int, yearOfEra: int, d: int)
    requires 0 <= yearOfEra < 400
    ensures MarchForm(yearOfEra + era * 400, d) ==
      146_097 * era + 365 * yearOfEra + yearOfEra / 4 - yearOfEra / 100 + d - 719_468
  {
    hide Leaps;
    EraYears(era, yearOfEra);
  }

  /** The rest of the conversion, once the year of the era is known. */
  lemma FromMarch(shifted: int, yearOfEra: int, d: int)
    requires 0 <= d <= 365 && YearOfEra(shifted % 146_097) == yearOfEra
    requires shifted % 146_097 == 365 * yearOfEra + yearOfEra / 4 - yearOfEra / 100 + d
    ensures var m, year := (5 * d + 2) / 153, yearOfEra + shifted / 146_097 * 400;
      FromShifted(shifted) == Date(if m < 10 then year else year + 1, if m < 10 then m + 3 else m - 9,
                                   d - (153 * m + 2) / 5 + 1)
  {
    hide YearOfEra;
    MonthOfYear(d);
  }

  lemma EraYears(era: int, yearOfEra: int)
    requires 0 <= yearOfEra < 400
    ensures Leaps(yearOfEra + era * 400) == 97 * era + yearOfEra / 4 - yearOfEra / 100
  {
    assert (yearOfEra + era * 400) / 4 == yearOfEra / 4 + 100 * era;
    assert (yearOfEra + era * 400) / 100 == yearOfEra / 100 + 4 * era;
    assert (yearOfEra + era * 400) / 400 == era;
  }

  lemma Remainder4(q: int)
    ensures (4 * q) % 4 == 0
  {
  }

  lemma Remainder100(q: int, r: int)
    requires 0 <= r < 100
    ensures (100 * q + r) % 100 == r
  {
  }

  lemma Remainder400(q: int)
    ensures (400 * q) % 400 == 0
  {
  }

  lemma LeapEnds(era: int, c: int, q: int)
    requires 0 <= c <= 3 && 0 <= q <= 24 && (q == 24 ==> c == 3)
    ensures Leap(100 * c + 4 * q + 3 + era * 400 + 1)
  {
    var year := 100 * c + 4 * q + 3 + era * 400 + 1;
    assert year == 4 * (25 * c + q + 1 + 100 * era);
    Remainder4(25 * c + q + 1 + 100 * era);
    if q == 24 {
      assert year == 400 * (era + 1);
      Remainder400(era + 1);
    } else {
      assert year == 100 * (c + 4 * era) + (4 * q + 4);
      Remainder100(c + 4 * era, 4 * q + 4);
    }
  }

  /** A date's number, read off the March count. */
  lemma NumberInMarch(date: Date)
    requires IsDate(date)
    ensures DayNumber(date) ==
      if date.month <= 2 then MarchForm(date.year - 1, 305 + 31 * (date.month - 1) + date.day)
      else MarchForm(date.year, (153 * (date.month - 3) + 2) / 5 + date.day - 1)
  {
    hide Leaps, Leap;
    YearForm(date.year);
    MonthForm(date.year, date.month);
    LeapsStep(date.year);
  }

  // ---- main results -----------------------------------------------------------------------------------------

  lemma ShiftedIsExact(shifted: int)
    ensures IsDate(FromShifted(shifted)) && DayNumber(FromShifted(shifted)) == shifted - 719_468
  {
    hide FromShifted, Leap, MarchForm;
    var year, dayOfYear := Located(shifted);
    MonthOfYear(dayOfYear);
    NumberInMarch(FromShifted(shifted));
  }

  /** The conversion gives a date of the calendar, and inverts the day count exactly when adding the
      epoch shift does not overflow: not, as its comment has it, on every 64-bit count. */
  lemma CivilIsExact(days: I64)
    ensures IsDate(CivilFromDays(days))
    ensures DayNumber(CivilFromDays(days)) == days <==> days <= I64_MAX - 719_468
  {
    hide FromShifted, DayNumber;
    ShiftedIsExact(WrappingAdd(days, 719_468));
  }

  lemma {:induction false} YearsGrow(y: int, z: int)
    requires y <= z
    ensures DaysBeforeYear(y) + 365 * (z - y) <= DaysBeforeYear(z)
    decreases z - y
  {
    hide Leap, DaysBeforeYear;
    if y < z {
      YearsGrow(y, z - 1);
      YearStep(z - 1);
    }
  }

  lemma {:induction false} MonthsGrow(year: int, m: int, n: int)
    requires 1 <= m < n <= 13
    ensures DaysBeforeMonth(year, m) + MonthLength(year, m) <= DaysBeforeMonth(year, n) <= YearLength(year)
    decreases n - m
  {
    hide Leap;
    if n == 13 {
      MonthForm(year, 12);
      if m < 12 { MonthsGrow(year, m, 12); }
    } else {
      MonthForm(year, n);
      if m + 1 < n { MonthsGrow(year, m + 1, n); }
    }
  }

  /** Calendar order. */
  predicate Before(a: Date, b: Date) {
    a.year < b.year || (a.year == b.year && (a.month < b.month || (a.month == b.month && a.day < b.day)))
  }

  /** Later dates have larger numbers. */
  lemma NumbersGrow(a: Date, b: Date)
    requires IsDate(a) && IsDate(b) && Before(a, b)
    ensures DayNumber(a) < DayNumber(b)
  {
    hide Leap, DaysBeforeMonth, DaysBeforeYear;
    if a.year < b.year {
      MonthsGrow(a.year, a.month, 13);
      assert DaysBeforeYear(a.year + 1) == DaysBeforeYear(a.year) + YearLength(a.year) by { YearStep(a.year); }
      YearsGrow(a.year + 1, b.year);
    } else if a.month < b.month {
      MonthsGrow(a.year, a.month, b.month);
    }
  }

  lemma YearStep(year: int)
    ensures DaysBeforeYear(year + 1) == DaysBeforeYear(year) + YearLength(year)
  {
  }

  /** Counting and converting back is the identity too, so the two are a bijection between day numbers and
      dates. */
  lemma CivilOfNumber(date: Date)
    requires IsDate(date) && -I64_MAX - 1 <= DayNumber(date) <= I64_MAX - 719_468
    ensures CivilFromDays(DayNumber(date)) == date
  {
    hide DayNumber, IsDate, CivilFromDays;
    var back := CivilFromDays(DayNumber(date));
    CivilIsExact(DayNumber(date));
    if Before(back, date) { NumbersGrow(back, date); }
    if Before(date, back) { NumbersGrow(date, back); }
  }

  lemma SuccessorNumber(date: Date)
    requires IsDate(date)
    ensures IsDate(Successor(date)) && DayNumber(Successor(date)) == DayNumber(date) + 1
  {
    hide Leap;
    if date.day == MonthLength(date.year, date.month) && date.month == 12 {
      MonthForm(date.year, 12);
      YearStep(date.year);
    }
  }

  /** The next day number is the next day of the calendar. */
  lemma CivilSteps(days: I64)
    requires days < I64_MAX - 719_468
    ensures CivilFromDays(days + 1) == Successor(CivilFromDays(days))
  {
    hide DayNumber, IsDate, CivilFromDays, Successor;
    CivilIsExact(days);
    SuccessorNumber(CivilFromDays(days));
    CivilOfNumber(Successor(CivilFromDays(days)));
  }
}
