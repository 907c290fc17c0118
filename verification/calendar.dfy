/** Dates from day counts, and timestamps as RFC 3339 writes them. The
    reference is the Gregorian calendar as it is usually told: years and months
    of given lengths, one after another. */
module Calendar {

  datatype Date = Date(year: int, month: int, day: int)

  // --- The calendar ---

  predicate Leap(y: int) {
    y % 4 == 0 && (y % 100 == 0 ==> y % 400 == 0)
  }

  function DaysInYear(y: int): int {
    if Leap(y) then 366 else 365
  }

  function DaysInMonth(y: int, m: int): int {
    if m == 2 then (if Leap(y) then 29 else 28) else if m in {4, 6, 9, 11} then 30 else 31
  }

  predicate ValidDate(d: Date) {
    1 <= d.month <= 12 && 1 <= d.day <= DaysInMonth(d.year, d.month)
  }

  /** Days from 1970-01-01 to the first of January. */
  function YearStart(y: int): int
    decreases if y < 1970 then 1970 - y else y - 1970
  {
    if y == 1970 then 0 else if y > 1970 then YearStart(y - 1) + DaysInYear(y - 1) else YearStart(y + 1) - DaysInYear(y)
  }

  /** Days from the first of January to the first of the month. */
  function MonthStart(y: int, m: int): int
    requires 1 <= m
    decreases m
  {
    if m == 1 then 0 else MonthStart(y, m - 1) + DaysInMonth(y, m - 1)
  }

  function DayNumber(d: Date): int
    requires 1 <= d.month
  {
    YearStart(d.year) + MonthStart(d.year, d.month) + d.day - 1
  }

  function NextDate(d: Date): Date {
    if d.day < DaysInMonth(d.year, d.month) then d.(day := d.day + 1)
    else if d.month < 12 then Date(d.year, d.month + 1, 1)
    else Date(d.year + 1, 1, 1)
  }

  // --- `civil_from_days` ---

  /** The year of a 400-year era, counted from March, that a day of it is in. */
  function YearOfEra(doe: int): int {
    (doe - doe / 1460 + doe / 36_524 - doe / 146_096) / 365
  }

  /** The day of an era that its year starts on. */
  function EraYearStart(yoe: int): int {
    365 * yoe + yoe / 4 - yoe / 100
  }

  /** The day of a year from March that its month starts on. */
  function MarchMonthStart(mp: int): int {
    (153 * mp + 2) / 5
  }

  /** The date of a day of a year from March. */
  function MarchDate(y: int, doy: int): Date {
    var mp := (5 * doy + 2) / 153;
    var day := doy - MarchMonthStart(mp) + 1;
    var month := if mp < 10 then mp + 3 else mp - 9;
    Date(y + (if month <= 2 then 1 else 0), month, day)
  }

  /** The date of a day of an era, as `civil_from_days` puts it together. */
  function EraDate(era: int, doe: int): Date {
    var yoe := YearOfEra(doe);
    MarchDate(yoe + era * 400, doe - EraYearStart(yoe))
  }

  function Civil(days: int): Date {
    var z := days + 719_468;
    EraDate(z / 146_097, z % 146_097)
  }

  /** A year from March has 366 days if the next one has a 29th of February. */
  function MarchYearDays(y: int): int {
    DaysInYear(y + 1)
  }

  /** The year of era, from the century, the four years and the day in them. */
  lemma YearOfEraIs(c: int, q: int, s: int)
    requires 0 <= c < 4 && 0 <= q < 25 && 0 <= s < 1461 && (q == 24 ==> s < 1460)
    ensures YearOfEra(36_524 * c + 1461 * q + s) == 100 * c + 4 * q + (if s == 1460 then 3 else s / 365)
  {
    var doe := 36_524 * c + 1461 * q + s;
    var k := if 24 * c + q + s >= 1460 then 1 else 0;
    assert doe == 1460 * (25 * c + q + k) + (24 * c + q + s - 1460 * k);
    assert doe / 1460 == 25 * c + q + k;
    assert doe / 36_524 == c && doe / 146_096 == 0;
    assert YearOfEra(doe) == (365 * (100 * c + 4 * q) + (s - k)) / 365;
  }

  lemma YearOfEraFits(doe: int)
    requires 0 <= doe < 146_097
    ensures 0 <= YearOfEra(doe) < 400
    ensures 0 <= doe - EraYearStart(YearOfEra(doe)) < MarchYearDays(YearOfEra(doe))
  {
    if doe < 146_096 {
      var c, q, s := CenturiesAndDays(doe);
      YearOfEraIs(c, q, s);
      YearFits(c, q, if s == 1460 then 3 else s / 365, s);
    } else {
      assert YearOfEra(146_096) == 399 && EraYearStart(399) == 145_731 && MarchYearDays(399) == 366;
    }
  }

  /** A day of an era but the last: its century, its four years, its day. */
  lemma CenturiesAndDays(doe: int) returns (c: int, q: int, s: int)
    requires 0 <= doe < 146_096
    ensures 0 <= c < 4 && 0 <= q < 25 && 0 <= s < 1461 && (q == 24 ==> s < 1460) && doe == 36_524 * c + 1461 * q + s
  {
    var d := doe % 36_524;
    c, q, s := doe / 36_524, d / 1461, d % 1461;
    assert doe == 36_524 * c + d && d == 1461 * q + s;
  }

  lemma YearFits(c: int, q: int, t: int, s: int)
    requires 0 <= c < 4 && 0 <= q < 25 && 0 <= s < 1461 && (q == 24 ==> s < 1460)
    requires t == if s == 1460 then 3 else s / 365
    ensures var y := 100 * c + 4 * q + t; 0 <= 36_524 * c + 1461 * q + s - EraYearStart(y) < MarchYearDays(y)
  {
    var y := 100 * c + 4 * q + t;
    assert y / 4 == 25 * c + q && y / 100 == c;
    if s == 1460 {
      assert y + 1 == 100 * c + 4 * (q + 1) && Leap(y + 1);
    }
  }

  lemma MarchMonthFits(y: int, doy: int)
    requires 0 <= doy < MarchYearDays(y)
    ensures var mp := (5 * doy + 2) / 153; var m := if mp < 10 then mp + 3 else mp - 9;
      0 <= mp < 12 && 0 <= doy - MarchMonthStart(mp) < DaysInMonth(if m <= 2 then y + 1 else y, m)
  {
  }

  // --- The closed forms of the calendar ---

  /** Leap years up to and including a year. */
  function Leaps(y: int): int {
    y / 4 - y / 100 + y / 400
  }

  lemma LeapsStep(y: int)
    ensures Leaps(y) - Leaps(y - 1) == DaysInYear(y) - 365
  {
    LeapRules(y);
    Steps4(y);
    Steps100(y);
    Steps400(y);
  }

  lemma Steps4(y: int)
    ensures y / 4 - (y - 1) / 4 == if y % 4 == 0 then 1 else 0
  {
  }

  lemma Steps100(y: int)
    ensures y / 100 - (y - 1) / 100 == if y % 100 == 0 then 1 else 0
  {
  }

  lemma Steps400(y: int)
    ensures y / 400 - (y - 1) / 400 == if y % 400 == 0 then 1 else 0
  {
  }

  lemma LeapRules(y: int)
    ensures (y % 400 == 0 ==> y % 100 == 0) && (y % 100 == 0 ==> y % 4 == 0)
  {
    if y % 400 == 0 {
      Hundreds(4 * (y / 400));
    }
    if y % 100 == 0 {
      Fours(25 * (y / 100));
    }
  }

  lemma Hundreds(k: int)
    ensures (100 * k) % 100 == 0
  {
  }

  lemma Fours(k: int)
    ensures (4 * k) % 4 == 0
  {
  }

  lemma {:induction false} YearStartIs(y: int)
    ensures YearStart(y) == 365 * (y - 1) + Leaps(y - 1) - 719_162
    decreases if y < 1970 then 1970 - y else y - 1970
  {
    if y > 1970 {
      YearStartIs(y - 1);
      LeapsStep(y - 1);
    } else if y < 1970 {
      YearStartIs(y + 1);
      LeapsStep(y);
    }
  }

  lemma EraStart(era: int, yoe: int)
    requires 0 <= yoe < 400
    ensures YearStart(yoe + era * 400 + 1) == 146_097 * era + EraYearStart(yoe) - 719_162
  {
    var y := yoe + era * 400;
    YearStartIs(y + 1);
    assert y / 4 == era * 100 + yoe / 4;
    assert y / 100 == era * 4 + yoe / 100;
    assert y / 400 == era;
  }

  /** Counting from March: January and February belong to the year before. */
  lemma MonthStartIs(y: int, m: int)
    requires 1 <= m <= 12
    ensures m > 2 ==> MonthStart(y, m) == MarchMonthStart(m - 3) + DaysInYear(y) - 306
    ensures m <= 2 ==> MonthStart(y, m) == MarchMonthStart(m + 9) - 306
  {
    assert MonthStart(y, 3) == DaysInYear(y) - 306;
    if m > 3 {
      assert MonthStart(y, 6) == MonthStart(y, 3) + 92;
      assert MonthStart(y, 9) == MonthStart(y, 6) + 92;
      assert MonthStart(y, 12) == MonthStart(y, 9) + 91;
    }
  }

  /** The day number from the year of a 400-year era, the day of the year from
      March and the month and day that make it up. */
  lemma DayNumberIs(era: int, yoe: int, mp: int, day: int)
    requires 0 <= yoe < 400 && 0 <= mp < 12
    ensures var m := if mp < 10 then mp + 3 else mp - 9;
      DayNumber(Date(yoe + era * 400 + (if m <= 2 then 1 else 0), m, day))
      == 146_097 * era + EraYearStart(yoe) + MarchMonthStart(mp) + day - 1 - 719_468
  {
    var m := if mp < 10 then mp + 3 else mp - 9;
    var y := yoe + era * 400;
    EraStart(era, yoe);
    if m > 2 {
      DayNumberSince(y, m, day);
    } else {
      MonthStartIs(y + 1, m);
    }
  }

  /** From March on, counted back from the next year's start. */
  lemma DayNumberSince(y: int, m: int, day: int)
    requires 2 < m <= 12
    ensures DayNumber(Date(y, m, day)) == YearStart(y + 1) + MarchMonthStart(m - 3) - 306 + day - 1
  {
    MonthStartIs(y, m);
    NextYearStart(y);
  }

  lemma NextYearStart(y: int)
    ensures YearStart(y + 1) == YearStart(y) + DaysInYear(y)
  {
    YearStartIs(y);
    YearStartIs(y + 1);
    LeapsStep(y);
  }

  // --- What `civil_from_days` computes ---

  lemma EraDateIsTheDate(era: int, doe: int)
    requires 0 <= doe < 146_097
    ensures ValidDate(EraDate(era, doe)) && DayNumber(EraDate(era, doe)) == 146_097 * era + doe - 719_468
  {
    var yoe := YearOfEra(doe);
    YearOfEraFits(doe);
    SameMarchYear(yoe, era);
    MarchDateIs(era, yoe, doe - EraYearStart(yoe));
  }

  lemma MarchDateIs(era: int, yoe: int, doy: int)
    requires 0 <= yoe < 400 && 0 <= doy < MarchYearDays(yoe + era * 400)
    ensures ValidDate(MarchDate(yoe + era * 400, doy))
    ensures DayNumber(MarchDate(yoe + era * 400, doy)) == 146_097 * era + EraYearStart(yoe) + doy - 719_468
  {
    var mp := (5 * doy + 2) / 153;
    MarchMonthFits(yoe + era * 400, doy);
    DayNumberIs(era, yoe, mp, doy - MarchMonthStart(mp) + 1);
  }

  lemma SameMarchYear(yoe: int, era: int)
    ensures MarchYearDays(yoe + era * 400) == MarchYearDays(yoe)
  {
    LeapsRepeat(yoe + 1, era);
  }

  lemma LeapsRepeat(y: int, era: int)
    ensures Leap(y + era * 400) == Leap(y)
  {
    var z := y + era * 400;
    assert z / 4 == y / 4 + era * 100;
    assert z / 100 == y / 100 + era * 4;
    assert z / 400 == y / 400 + era;
  }

  /** Every day has a valid date, whose day number it is. */
  lemma CivilIsTheDate(days: int)
    ensures ValidDate(Civil(days))
    ensures DayNumber(Civil(days)) == days
  {
    var z := days + 719_468;
    InEra(z, z / 146_097, z % 146_097);
    EraDateIsTheDate(z / 146_097, z % 146_097);
  }

  lemma InEra(z: int, era: int, doe: int)
    requires era == z / 146_097 && doe == z % 146_097
    ensures 0 <= doe < 146_097 && z == 146_097 * era + doe
  {
  }

  /** The day after has the next day number. */
  lemma NextDayNumber(d: Date)
    requires ValidDate(d)
    ensures ValidDate(NextDate(d)) && DayNumber(NextDate(d)) == DayNumber(d) + 1
  {
    if d.day == DaysInMonth(d.year, d.month) {
      if d.month == 12 {
        NewYear(d.year);
      } else {
        assert MonthStart(d.year, d.month + 1) == MonthStart(d.year, d.month) + DaysInMonth(d.year, d.month);
      }
    }
  }

  lemma NewYear(y: int)
    ensures YearStart(y + 1) == YearStart(y) + MonthStart(y, 12) + DaysInMonth(y, 12) && MonthStart(y + 1, 1) == 0
  {
    MonthStartIs(y, 12);
    NextYearStart(y);
  }

  predicate Before(d: Date, e: Date) {
    d.year < e.year || (d.year == e.year && (d.month < e.month || (d.month == e.month && d.day < e.day)))
  }

  lemma {:induction false} YearStartGrows(y: int, z: int)
    requires y < z
    ensures YearStart(y) + DaysInYear(y) <= YearStart(z)
    decreases z - y
  {
    if y + 1 == z {
      YearStartIs(y);
      YearStartIs(z);
    } else {
      YearStartGrows(y, z - 1);
      YearStartGrows(z - 1, z);
    }
  }

  lemma {:induction false} MonthStartGrows(y: int, m: int, n: int)
    requires 1 <= m < n
    ensures MonthStart(y, m) + DaysInMonth(y, m) <= MonthStart(y, n)
    decreases n
  {
    if m < n - 1 {
      MonthStartGrows(y, m, n - 1);
    }
  }

  /** Later dates have greater day numbers. */
  lemma DayNumberGrows(d: Date, e: Date)
    requires ValidDate(d) && ValidDate(e) && Before(d, e)
    ensures DayNumber(d) < DayNumber(e)
  {
    if d.year < e.year {
      YearStartGrows(d.year, e.year);
      MonthStartIs(d.year, 12);
      if d.month < 12 {
        MonthStartGrows(d.year, d.month, 12);
      }
      MonthStartIs(e.year, e.month);
    } else if d.month < e.month {
      MonthStartGrows(d.year, d.month, e.month);
    }
  }

  lemma SameDay(d: Date, e: Date)
    requires ValidDate(d) && ValidDate(e) && DayNumber(d) == DayNumber(e)
    ensures d == e
  {
    if Before(d, e) {
      DayNumberGrows(d, e);
    } else if Before(e, d) {
      DayNumberGrows(e, d);
    }
  }

  /** `civil_from_days` undoes day counting. */
  lemma CivilUndoesCounting(d: Date)
    requires ValidDate(d)
    ensures Civil(DayNumber(d)) == d
  {
    CivilIsTheDate(DayNumber(d));
    SameDay(Civil(DayNumber(d)), d);
  }

  lemma Consecutive(d: Date, e: Date)
    requires ValidDate(d) && ValidDate(e) && DayNumber(e) == DayNumber(d) + 1
    ensures e == NextDate(d)
  {
    NextDayNumber(d);
    SameDay(e, NextDate(d));
  }

  /** Consecutive days have consecutive dates. */
  lemma ConsecutiveDates(days: int)
    ensures Civil(days + 1) == NextDate(Civil(days))
  {
    CivilIsTheDate(days);
    CivilIsTheDate(days + 1);
    Consecutive(Civil(days), Civil(days + 1));
  }
}
