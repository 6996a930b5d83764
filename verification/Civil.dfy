/** Civil date and time from a Unix timestamp, against the Gregorian calendar. */
module Civil {
  import opened Basics

  datatype Date = Date(year: int, month: int, day: int, hour: int, minute: int, second: int)

  function FromEpoch(secs: nat): Date {
    var rem := secs % 86400;
    var (y, m, d) := CivilDay(secs / 86400);
    Date(y, m, d, rem / 3600, rem % 3600 / 60, rem % 60)
  }

  /** Shift to days since 1 March 0000, then era, year of era, and month counted from March. */
  function CivilDay(days: nat): (int, int, int) {
    var z := days + 719468;
    var era := z / 146097;
    var doe := z - era * 146097;
    var yoe := YearOfEra(doe);
    OfMarchDay(yoe + era * 400, doe - (365 * yoe + yoe / 4 - yoe / 100))
  }

  /** Day `doy` of the March-based year `y`. */
  function OfMarchDay(y: int, doy: int): (int, int, int) {
    var mp := (5 * doy + 2) / 153;
    var d := doy - (153 * mp + 2) / 5 + 1;
    var m := if mp < 10 then mp + 3 else mp - 9;
    (if m <= 2 then y + 1 else y, m, d)
  }

  function YearOfEra(doe: int): int {
    (doe - doe / 1460 + doe / 36524 - doe / 146096) / 365
  }

  // ---- the calendar ----

  predicate Leap(y: int) {
    y % 4 == 0 && (y % 100 != 0 || y % 400 == 0)
  }

  function MonthLength(y: int, m: int): int {
    if m == 2 then (if Leap(y) then 29 else 28)
    else if m == 4 || m == 6 || m == 9 || m == 11 then 30
    else 31
  }

  /** Days of year `y` before month `m`. */
  function DaysBeforeMonth(y: int, m: int): int
    requires 1 <= m <= 12
  {
    if m == 1 then 0 else DaysBeforeMonth(y, m - 1) + MonthLength(y, m - 1)
  }

  /** Days from the start of year 0 to the start of year `y`, one year at a time. */
  function DaysBeforeYear(y: nat): int {
    if y == 0 then 0 else DaysBeforeYear(y - 1) + if Leap(y - 1) then 366 else 365
  }

  predicate Valid(t: Date) {
    && 0 <= t.year && 1 <= t.month <= 12 && 1 <= t.day <= MonthLength(t.year, t.month)
    && 0 <= t.hour < 24 && 0 <= t.minute < 60 && 0 <= t.second < 60
  }

  function DayNumber(t: Date): int
    requires Valid(t)
  {
    DaysBeforeYear(t.year) + DaysBeforeMonth(t.year, t.month) + t.day - 1
  }

  /** The day number of 1 January 1970. */
  const EpochDay := 719528

  lemma EpochDayIs()
    ensures DaysBeforeYear(1970) == EpochDay
  {
    DaysBeforeYearIs(1970);
  }

  /** Seconds from 1 January 1970 to a date and time. */
  function ToEpoch(t: Date): int
    requires Valid(t)
  {
    (DayNumber(t) - EpochDay) * 86400 + t.hour * 3600 + t.minute * 60 + t.second
  }

  // ---- counting days ----

  lemma {:induction false} DaysBeforeYearIs(y: nat)
    ensures DaysBeforeYear(y) == 365 * y + (y + 3) / 4 - (y + 99) / 100 + (y + 399) / 400
    decreases y
  {
    if y > 0 {
      DaysBeforeYearIs(y - 1);
      LeapCount(y - 1);
    }
  }

  lemma DivStep4(y: nat)
    ensures (y + 4) / 4 - (y + 3) / 4 == if y % 4 == 0 then 1 else 0
  {
  }

  lemma DivStep100(y: nat)
    ensures (y + 100) / 100 - (y + 99) / 100 == if y % 100 == 0 then 1 else 0
  {
  }

  lemma DivStep400(y: nat)
    ensures (y + 400) / 400 - (y + 399) / 400 == if y % 400 == 0 then 1 else 0
  {
  }

  lemma Divisibility(y: nat)
    ensures y % 400 == 0 ==> y % 100 == 0
    ensures y % 100 == 0 ==> y % 4 == 0
  {
    if y % 400 == 0 {
      DivUnique(y, 100, 4 * (y / 400), 0);
    }
    if y % 100 == 0 {
      DivUnique(y, 4, 25 * (y / 100), 0);
    }
  }

  lemma LeapCount(y: nat)
    ensures ((y + 4) / 4 - (y + 100) / 100 + (y + 400) / 400) - ((y + 3) / 4 - (y + 99) / 100 + (y + 399) / 400)
         == if Leap(y) then 1 else 0
  {
    DivStep4(y);
    DivStep100(y);
    DivStep400(y);
    Divisibility(y);
  }

  /** Days of an era before its March-based year `y`. */
  function EraDays(y: int): int {
    365 * y + y / 4 - y / 100
  }

  lemma YearLower(doe: int, c: int)
    requires 0 <= doe < 146096 && 0 <= c < 4 && 36524 * c <= doe < 36524 * (c + 1)
    ensures 100 * c <= YearOfEra(doe) < 100 * (c + 1)
  {
    assert doe / 36524 == c && doe / 146096 == 0;
  }

  lemma YearOfEraIs(doe: int)
    requires 0 <= doe < 146097
    ensures var y := YearOfEra(doe);
      0 <= y < 400 && EraDays(y) <= doe && (doe < EraDays(y + 1) || (y == 399 && doe == 146096))
  {
    if doe < 146096 {
      var c := doe / 36524;
      YearLower(doe, c);
      var y := YearOfEra(doe);
      assert y / 100 == c;
      assert doe / 146096 == 0;
      YearInCentury(doe, c, y);
    }
  }

  lemma YearInCentury(doe: int, c: int, y: int)
    requires 0 <= doe < 146096 && 0 <= c < 4 && 36524 * c <= doe < 36524 * (c + 1)
    requires 100 * c <= y < 100 * (c + 1) && y == (doe - doe / 1460 + c) / 365
    ensures 365 * y + y / 4 - c <= doe
    ensures doe < 365 * (y + 1) + (y + 1) / 4 - (y + 1) / 100
  {
  }

  // ---- from the March-based year to the calendar ----

  /** Year `y` of the calendar starts 306 days into March-based year `y - 1`. */
  lemma YearStart(era: nat, yoe: int)
    requires 0 <= yoe < 400
    ensures var y := 400 * era + yoe;
      DaysBeforeYear(y) + (if Leap(y) then 1 else 0) == 146097 * era + EraDays(yoe) + 1
  {
    hide Leap, DaysBeforeYear;
    var y := 400 * era + yoe;
    LeapDaysBefore(y);
    DivUnique(y, 4, 100 * era + yoe / 4, yoe % 4);
    DivUnique(y, 100, 4 * era + yoe / 100, yoe % 100);
    DivUnique(y, 400, era, yoe);
  }

  /** Days up to the start of a year, with its own leap day counted ahead. */
  lemma LeapDaysBefore(y: nat)
    ensures DaysBeforeYear(y) + (if Leap(y) then 1 else 0) == 365 * y + y / 4 - y / 100 + y / 400 + 1
  {
    hide Leap, DaysBeforeYear;
    DaysBeforeYearIs(y);
    LeapCount(y);
    DivUnique(y + 4, 4, y / 4 + 1, y % 4);
    DivUnique(y + 100, 100, y / 100 + 1, y % 100);
    DivUnique(y + 400, 400, y / 400 + 1, y % 400);
  }

  lemma MarchYearLength(era: nat, yoe: int, doe: int)
    requires 0 <= yoe < 400 && EraDays(yoe) <= doe < 146097
    requires doe < EraDays(yoe + 1) || (yoe == 399 && doe == 146096)
    ensures 0 <= doe - EraDays(yoe) < if Leap(400 * era + yoe + 1) then 366 else 365
  {
    var n := yoe + 1;
    SameInEra(era, n);
    Divisibility(n);
    EraStep(yoe);
  }

  /** Adding whole eras changes nothing about leap years. */
  lemma SameInEra(era: nat, n: nat)
    ensures var y := 400 * era + n; y % 4 == n % 4 && y % 100 == n % 100 && y % 400 == n % 400
  {
    var y := 400 * era + n;
    DivUnique(y, 4, 100 * era + n / 4, n % 4);
    DivUnique(y, 100, 4 * era + n / 100, n % 100);
    DivUnique(y, 400, era + n / 400, n % 400);
  }

  lemma EraStep(y: nat)
    ensures EraDays(y + 1) - EraDays(y) == 365 + (if (y + 1) % 4 == 0 then 1 else 0) - (if (y + 1) % 100 == 0 then 1 else 0)
  {
    assert (y + 1) / 4 - y / 4 == if (y + 1) % 4 == 0 then 1 else 0;
    assert (y + 1) / 100 - y / 100 == if (y + 1) % 100 == 0 then 1 else 0;
  }

  function MarchMonthStart(mp: int): int {
    (153 * mp + 2) / 5
  }

  lemma MarchMonth(doy: int)
    requires 0 <= doy < 366
    ensures var mp := (5 * doy + 2) / 153;
      0 <= mp < 12 && MarchMonthStart(mp) <= doy && (doy < MarchMonthStart(mp + 1) || mp == 11)
  {
  }

  /** Months from March on, counted in the calendar. */
  lemma MonthTable(y: int)
    ensures var f := if Leap(y) then 1 else 0;
      && DaysBeforeMonth(y, 1) == 0 && DaysBeforeMonth(y, 2) == 31
      && DaysBeforeMonth(y, 3) == 59 + f && DaysBeforeMonth(y, 4) == 90 + f && DaysBeforeMonth(y, 5) == 120 + f
      && DaysBeforeMonth(y, 6) == 151 + f && DaysBeforeMonth(y, 7) == 181 + f && DaysBeforeMonth(y, 8) == 212 + f
      && DaysBeforeMonth(y, 9) == 243 + f && DaysBeforeMonth(y, 10) == 273 + f && DaysBeforeMonth(y, 11) == 304 + f
      && DaysBeforeMonth(y, 12) == 334 + f
  {
    hide Leap;
    assert DaysBeforeMonth(y, 4) == DaysBeforeMonth(y, 3) + 31;
    assert DaysBeforeMonth(y, 6) == DaysBeforeMonth(y, 4) + 61;
    assert DaysBeforeMonth(y, 8) == DaysBeforeMonth(y, 6) + 61;
    assert DaysBeforeMonth(y, 10) == DaysBeforeMonth(y, 8) + 61;
    assert DaysBeforeMonth(y, 12) == DaysBeforeMonth(y, 10) + 61;
  }

  lemma NextYear(y: nat)
    ensures DaysBeforeYear(y + 1) == DaysBeforeYear(y) + 365 + if Leap(y) then 1 else 0
  {
  }

  lemma DateOfMarchDay(y: nat, doy: int)
    requires 0 <= doy < if Leap(y + 1) then 366 else 365
    ensures var (cy, m, d) := OfMarchDay(y, doy);
      && 0 <= cy && 1 <= m <= 12 && 1 <= d <= MonthLength(cy, m)
      && DaysBeforeYear(cy) + DaysBeforeMonth(cy, m) + d - 1
         == DaysBeforeYear(y) + (if Leap(y) then 1 else 0) + 59 + doy
  {
    hide DaysBeforeYear, DaysBeforeMonth, Leap;
    MarchMonth(doy);
    MonthTable(y);
    MonthTable(y + 1);
    NextYear(y);
  }

  lemma CivilDayCorrect(days: nat)
    ensures var (y, m, d) := CivilDay(days);
      && 0 <= y && 1 <= m <= 12 && 1 <= d <= MonthLength(y, m)
      && DaysBeforeYear(y) + DaysBeforeMonth(y, m) + d - 1 == days + EpochDay
  {
    hide DaysBeforeYear, DaysBeforeMonth, Leap, MonthLength, YearOfEra, OfMarchDay;
    var z := days + 719468;
    var era, doe := z / 146097, z % 146097;
    assert doe == z - era * 146097;
    YearOfEraIs(doe);
    var yoe := YearOfEra(doe);
    YearStart(era, yoe);
    MarchYearLength(era, yoe, doe);
    DateOfMarchDay(400 * era + yoe, doe - EraDays(yoe));
  }

  /** Every timestamp gives a real Gregorian date and time that stands for exactly that second. */
  lemma FromEpochCorrect(secs: nat)
    ensures Valid(FromEpoch(secs)) && ToEpoch(FromEpoch(secs)) == secs
  {
    hide DaysBeforeYear, DaysBeforeMonth, Leap, MonthLength, CivilDay;
    CivilDayCorrect(secs / 86400);
    TimeOfDay(secs);
  }

  lemma TimeOfDay(secs: nat)
    ensures var rem := secs % 86400;
      && 0 <= rem / 3600 < 24 && 0 <= rem % 3600 / 60 < 60 && 0 <= rem % 60 < 60
      && secs / 86400 * 86400 + rem / 3600 * 3600 + rem % 3600 / 60 * 60 + rem % 60 == secs
  {
    var rem := secs % 86400;
    assert rem == rem / 3600 * 3600 + rem % 3600;
    assert rem % 3600 == rem % 3600 / 60 * 60 + rem % 3600 % 60;
    assert rem % 3600 % 60 == rem % 60;
  }

  // ---- and back ----

  lemma {:induction false} YearsInOrder(a: nat, b: nat)
    requires a < b
    ensures DaysBeforeYear(a) + (if Leap(a) then 366 else 365) <= DaysBeforeYear(b)
    decreases b
  {
    if a + 1 < b {
      YearsInOrder(a, b - 1);
    }
  }

  lemma {:induction false} MonthsInOrder(y: int, a: int, b: int)
    requires 1 <= a < b <= 12
    ensures DaysBeforeMonth(y, a) + MonthLength(y, a) <= DaysBeforeMonth(y, b)
    decreases b
  {
    if a + 1 < b {
      MonthsInOrder(y, a, b - 1);
    }
  }

  lemma WithinYear(t: Date)
    requires Valid(t)
    ensures 0 <= DaysBeforeMonth(t.year, t.month) + t.day - 1 < if Leap(t.year) then 366 else 365
  {
    hide Leap, DaysBeforeMonth;
    MonthTable(t.year);
  }

  lemma DayNumberInjective(s: Date, t: Date)
    requires Valid(s) && Valid(t) && DayNumber(s) == DayNumber(t)
    ensures s.year == t.year && s.month == t.month && s.day == t.day
  {
    hide DaysBeforeYear, DaysBeforeMonth, Leap, MonthLength;
    WithinYear(s);
    WithinYear(t);
    if s.year < t.year {
      YearsInOrder(s.year, t.year);
    } else if t.year < s.year {
      YearsInOrder(t.year, s.year);
    } else if s.month < t.month {
      MonthsInOrder(s.year, s.month, t.month);
    } else if t.month < s.month {
      MonthsInOrder(s.year, t.month, s.month);
    }
  }

  /** Every representable date from 1970 on comes back from its own timestamp. */
  lemma ToEpochCorrect(t: Date)
    requires Valid(t) && 0 <= ToEpoch(t)
    ensures FromEpoch(ToEpoch(t)) == t
  {
    hide DaysBeforeYear, DaysBeforeMonth, Leap, MonthLength, FromEpoch, DayNumber;
    var r := FromEpoch(ToEpoch(t));
    FromEpochCorrect(ToEpoch(t));
    SplitSeconds(DayNumber(r) - EpochDay, r, DayNumber(t) - EpochDay, t);
    DayNumberInjective(r, t);
  }

  lemma SplitSeconds(a: int, s: Date, b: int, t: Date)
    requires Valid(s) && Valid(t)
    requires a * 86400 + s.hour * 3600 + s.minute * 60 + s.second == b * 86400 + t.hour * 3600 + t.minute * 60 + t.second
    ensures a == b && s.hour == t.hour && s.minute == t.minute && s.second == t.second
  {
  }
}
