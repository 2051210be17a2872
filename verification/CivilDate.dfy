/** Day numbers counted from 1 January 1970, as dates of the Gregorian calendar. */
module CivilDate {

  datatype Date = Date(year: int, month: int, day: int)

  // ---------------------------------------------------------------- the calendar

  /** The leap-year rule of RFC 3339, Appendix C. */
  predicate IsLeap(y: int) {
    y % 4 == 0 && (y % 100 != 0 || y % 400 == 0)
  }

  function MonthLength(y: int, m: int): int
    requires 1 <= m <= 12
  {
    if m == 2 then (if IsLeap(y) then 29 else 28)
    else if m in {4, 6, 9, 11} then 30
    else 31
  }

  predicate ValidDate(d: Date) {
    1 <= d.month <= 12 && 1 <= d.day <= MonthLength(d.year, d.month)
  }

  /** The date after a date, by the calendar alone. */
  function NextDay(d: Date): Date
    requires ValidDate(d)
  {
    if d.day < MonthLength(d.year, d.month) then d.(day := d.day + 1)
    else if d.month < 12 then Date(d.year, d.month + 1, 1)
    else Date(d.year + 1, 1, 1)
  }

  /** Days in the months of the year before m. */
  function DaysToMonth(y: int, m: int): int
    requires 1 <= m <= 13
    decreases m
  {
    if m == 1 then 0 else DaysToMonth(y, m - 1) + MonthLength(y, m - 1)
  }

  function LeapYearsBefore(y: int): int {
    (y - 1) / 4 - (y - 1) / 100 + (y - 1) / 400
  }

  function DaysToYear(y: int): int {
    365 * (y - 1970) + LeapYearsBefore(y) - LeapYearsBefore(1970)
  }

  /** Days from 1 January 1970 to the date. */
  function DayNumber(d: Date): int
    requires ValidDate(d)
  {
    DaysToYear(d.year) + DaysToMonth(d.year, d.month) + d.day - 1
  }

  predicate Before(a: Date, b: Date) {
    a.year < b.year || (a.year == b.year && (a.month < b.month || (a.month == b.month && a.day < b.day)))
  }

  /** A year is 365 days, a leap year 366. */
  lemma YearLength(y: int)
    ensures DaysToYear(y + 1) == DaysToYear(y) + 365 + if IsLeap(y) then 1 else 0
    ensures DaysToMonth(y, 13) == 365 + if IsLeap(y) then 1 else 0
  {
    LeapYearsStep(y);
    MonthTable(y);
  }

  lemma LeapYearsStep(y: int)
    ensures LeapYearsBefore(y + 1) == LeapYearsBefore(y) + if IsLeap(y) then 1 else 0
  {
    Step4(y);
    Step100(y);
    Step400(y);
  }

  lemma Step4(y: int)
    ensures y / 4 == (y - 1) / 4 + if y % 4 == 0 then 1 else 0
  {
  }

  lemma Step100(y: int)
    ensures y / 100 == (y - 1) / 100 + if y % 100 == 0 then 1 else 0
    ensures y % 100 == 0 ==> y % 4 == 0
  {
  }

  lemma Step400(y: int)
    ensures y / 400 == (y - 1) / 400 + if y % 400 == 0 then 1 else 0
    ensures y % 400 == 0 ==> y % 100 == 0
  {
  }

  lemma Quotient4(x: int, q: int, r: int)
    requires x == 4 * q + r && 0 <= r < 4
    ensures x / 4 == q && x % 4 == r
  {
  }

  lemma Quotient100(x: int, q: int, r: int)
    requires x == 100 * q + r && 0 <= r < 100
    ensures x / 100 == q && x % 100 == r
  {
  }

  lemma Quotient400(x: int, q: int, r: int)
    requires x == 400 * q + r && 0 <= r < 400
    ensures x / 400 == q && x % 400 == r
  {
  }

  lemma {:induction false} MonthTable(y: int)
    ensures var l := if IsLeap(y) then 1 else 0;
            && DaysToMonth(y, 1) == 0 && DaysToMonth(y, 2) == 31 && DaysToMonth(y, 3) == 59 + l && DaysToMonth(y, 4) == 90 + l
            && DaysToMonth(y, 5) == 120 + l && DaysToMonth(y, 6) == 151 + l && DaysToMonth(y, 7) == 181 + l && DaysToMonth(y, 8) == 212 + l
            && DaysToMonth(y, 9) == 243 + l && DaysToMonth(y, 10) == 273 + l && DaysToMonth(y, 11) == 304 + l && DaysToMonth(y, 12) == 334 + l
            && DaysToMonth(y, 13) == 365 + l
  {
    var l := if IsLeap(y) then 1 else 0;
    assert DaysToMonth(y, 3) == 59 + l;
    assert DaysToMonth(y, 5) == 120 + l;
    assert DaysToMonth(y, 7) == 181 + l;
    assert DaysToMonth(y, 9) == 243 + l;
    assert DaysToMonth(y, 11) == 304 + l;
  }

  /** The day number counts days: the epoch is zero and the next date is one more. */
  lemma DayNumberCounts(d: Date)
    requires ValidDate(d)
    ensures DayNumber(Date(1970, 1, 1)) == 0
    ensures ValidDate(NextDay(d)) && DayNumber(NextDay(d)) == DayNumber(d) + 1
  {
    if d.day == MonthLength(d.year, d.month) && d.month == 12 {
      YearLength(d.year);
    }
  }

  // ---------------------------------------------------------------- the conversion

  /** Division rounding towards zero, as on machine integers. */
  function Truncated(a: int, b: int): int
    requires b > 0
  {
    if a >= 0 then a / b else -((-a) / b)
  }

  /** The date of a day number, by 400-year eras of years that start in March. */
  function CivilFromDays(days: int): Date {
    var z := days + 719468;
    var era := EraOf(z);
    var doe := z - era * 146097;
    var yoe := YearOfEra(doe);
    InMarchYear(yoe + era * 400, DayOfYear(doe, yoe))
  }

  function EraOf(z: int): int {
    Truncated(if z >= 0 then z else z - 146096, 146097)
  }

  function DayOfYear(doe: int, yoe: int): int {
    doe - (365 * yoe + yoe / 4 - yoe / 100)
  }

  function InMarchYear(y: int, doy: int): Date {
    var mp := (5 * doy + 2) / 153;
    var d := doy - (153 * mp + 2) / 5 + 1;
    var m := if mp < 10 then mp + 3 else mp - 9;
    Date(if m <= 2 then y + 1 else y, m, d)
  }

  function YearOfEra(doe: int): int {
    (doe - doe / 1460 + doe / 36524 - doe / 146096) / 365
  }

  /** Rounding down: an era is 146097 days, also before year 0. */
  lemma EraFloors(z: int)
    ensures var era := EraOf(z); 0 <= z - era * 146097 < 146097
  {
  }

  /** Century c, four-year cycle q, year a and day r of a day in its era. */
  ghost predicate Split(doe: int, c: int, q: int, a: int, r: int) {
    && doe == 36524 * c + 1461 * q + 365 * a + r
    && 0 <= c <= 3 && 0 <= q <= 24 && 0 <= a <= 3 && 0 <= r <= 365
    && (r == 365 ==> a == 3 && (q < 24 || c == 3))
  }

  lemma SplitExists(doe: int)
    requires 0 <= doe < 146097
    ensures exists c, q, a, r :: Split(doe, c, q, a, r)
  {
    var c := if doe / 36524 < 3 then doe / 36524 else 3;
    var r1 := doe - 36524 * c;
    var q := r1 / 1461;
    var r2 := r1 - 1461 * q;
    var a := if r2 / 365 < 3 then r2 / 365 else 3;
    assert Split(doe, c, q, a, r2 - 365 * a);
  }

  /** The year of the era, and with it the day of the year, come out exactly. */
  lemma YearOfEraIs(doe: int, c: int, q: int, a: int, r: int)
    requires Split(doe, c, q, a, r)
    ensures YearOfEra(doe) == 100 * c + 4 * q + a
    ensures DayOfYear(doe, YearOfEra(doe)) == r
  {
    var r2 := 365 * a + r;
    var t := (24 * c + q + r2) / 1460;
    assert doe == 1460 * (25 * c + q) + (24 * c + q + r2);
    assert doe / 1460 == 25 * c + q + t;
    var last := if doe == 146096 then 1 else 0;
    assert doe / 36524 == c + last && doe / 146096 == last;
    assert doe - doe / 1460 + doe / 36524 - doe / 146096 == 365 * (100 * c + 4 * q) + (r2 - t);
    assert (r2 - t) / 365 == a;
    var yoe := 100 * c + 4 * q + a;
    assert yoe / 4 == 25 * c + q && yoe / 100 == c;
  }

  /** March of year y is 1 March of that year counted from the epoch. */
  function MarchFirst(y: int): int {
    365 * y + y / 4 - y / 100 + y / 400 - 719468
  }

  lemma MarchFirstIs(y: int)
    ensures MarchFirst(y) == DaysToYear(y) + DaysToMonth(y, 3)
    ensures DaysToYear(y + 1) == MarchFirst(y) + 306
  {
    MonthTable(y);
    YearLength(y);
  }

  /** Days of a March year before its mp-th month. */
  function MarchStart(mp: int): int {
    [0, 31, 61, 92, 122, 153, 184, 214, 245, 275, 306, 337, 366][if 0 <= mp <= 12 then mp else 12]
  }

  /** The month index is the last month starting no later than the day. */
  lemma MonthIndex(r: int)
    requires 0 <= r <= 365
    ensures var mp := (5 * r + 2) / 153; 0 <= mp <= 11 && (153 * mp + 2) / 5 == MarchStart(mp) <= r < MarchStart(mp + 1)
  {
  }

  /** Month and day of a day in a year starting in March. */
  lemma MonthOfDay(y: int, r: int)
    requires 0 <= r <= 365 && (r == 365 ==> IsLeap(y + 1))
    ensures ValidDate(InMarchYear(y, r)) && DayNumber(InMarchYear(y, r)) == MarchFirst(y) + r
  {
    MonthIndex(r);
    MarchDate(y, (5 * r + 2) / 153, r);
  }

  lemma MarchDate(y: int, mp: int, r: int)
    requires 0 <= mp <= 11 && MarchStart(mp) <= r < MarchStart(mp + 1) && (r == 365 ==> IsLeap(y + 1))
    ensures var m := if mp < 10 then mp + 3 else mp - 9;
            var date := Date(if m <= 2 then y + 1 else y, m, r - MarchStart(mp) + 1);
            ValidDate(date) && DayNumber(date) == MarchFirst(y) + r
  {
    MarchFirstIs(y);
    MonthTable(y);
    MonthTable(y + 1);
  }

  lemma EraQuotients(era: int, c: int, q: int, a: int)
    requires 0 <= c <= 3 && 0 <= q <= 24 && 0 <= a <= 3
    ensures var y := 100 * c + 4 * q + a + era * 400;
            && MarchFirst(y) == era * 146097 + 36524 * c + 1461 * q + 365 * a - 719468
  {
    var y := 100 * c + 4 * q + a + era * 400;
    Quotient4(y, 100 * era + 25 * c + q, a);
    Quotient100(y, 4 * era + c, 4 * q + a);
    Quotient400(y, era, 100 * c + 4 * q + a);
  }

  /** A March year with a 366th day ends in the February of a leap year. */
  lemma EraLeap(era: int, c: int, q: int)
    requires 0 <= c <= 3 && 0 <= q <= 24 && (q < 24 || c == 3)
    ensures IsLeap(100 * c + 4 * q + 3 + era * 400 + 1)
  {
    var next := 100 * c + 4 * q + 4 + era * 400;
    Quotient4(next, 100 * era + 25 * c + q + 1, 0);
    if q < 24 {
      Quotient100(next, 4 * era + c, 4 * q + 4);
    } else {
      Quotient400(next, era + 1, 0);
    }
  }

  /** Every day number, before the epoch or after, gives a valid date, and the date that many days from the epoch. */
  lemma CivilIsDate(days: int)
    ensures ValidDate(CivilFromDays(days)) && DayNumber(CivilFromDays(days)) == days
  {
    var era := EraOf(days + 719468);
    EraFloors(days + 719468);
    var doe := days + 719468 - era * 146097;
    SplitExists(doe);
    var c, q, a, r :| Split(doe, c, q, a, r);
    CivilSplit(days, era, doe, c, q, a, r);
    DayInEra(era, doe, c, q, a, r);
  }

  lemma DayInEra(era: int, doe: int, c: int, q: int, a: int, r: int)
    requires Split(doe, c, q, a, r)
    ensures var date := InMarchYear(100 * c + 4 * q + a + era * 400, r);
            ValidDate(date) && DayNumber(date) == era * 146097 + doe - 719468
  {
    EraQuotients(era, c, q, a);
    if r == 365 {
      EraLeap(era, c, q);
    }
    MonthOfDay(100 * c + 4 * q + a + era * 400, r);
  }

  lemma CivilSplit(days: int, era: int, doe: int, c: int, q: int, a: int, r: int)
    requires era == EraOf(days + 719468) && doe == days + 719468 - era * 146097 && Split(doe, c, q, a, r)
    ensures CivilFromDays(days) == InMarchYear(100 * c + 4 * q + a + era * 400, r)
  {
    YearOfEraIs(doe, c, q, a, r);
  }

  lemma {:induction false} YearsApart(a: int, b: int)
    requires a < b
    ensures DaysToYear(a) + DaysToMonth(a, 13) <= DaysToYear(b)
    decreases b - a
  {
    YearLength(b - 1);
    if a < b - 1 {
      YearsApart(a, b - 1);
    }
  }

  lemma {:induction false} MonthsApart(y: int, a: int, b: int)
    requires 1 <= a < b <= 13
    ensures DaysToMonth(y, a) + MonthLength(y, a) <= DaysToMonth(y, b)
    decreases b - a
  {
    if a < b - 1 {
      MonthsApart(y, a, b - 1);
    }
  }

  /** Day numbers order dates as the calendar does. */
  lemma DayNumberIncreases(a: Date, b: Date)
    requires ValidDate(a) && ValidDate(b) && Before(a, b)
    ensures DayNumber(a) < DayNumber(b)
  {
    MonthsApart(a.year, a.month, 13);
    if a.year < b.year {
      YearsApart(a.year, b.year);
      if b.month > 1 {
        MonthsApart(b.year, 1, b.month);
      }
    } else if a.month < b.month {
      MonthsApart(a.year, a.month, b.month);
    }
  }

  lemma SameNumber(a: Date, b: Date)
    requires ValidDate(a) && ValidDate(b) && DayNumber(a) == DayNumber(b)
    ensures a == b
  {
    if Before(a, b) {
      DayNumberIncreases(a, b);
    } else if Before(b, a) {
      DayNumberIncreases(b, a);
    }
  }

  /** Converting the day number of a date gives the date back. */
  lemma CivilInverts(d: Date)
    requires ValidDate(d)
    ensures CivilFromDays(DayNumber(d)) == d
  {
    CivilIsDate(DayNumber(d));
    SameNumber(CivilFromDays(DayNumber(d)), d);
  }

  /** Later days are later dates. */
  lemma CivilIncreases(days: int, later: int)
    requires days < later
    ensures Before(CivilFromDays(days), CivilFromDays(later))
  {
    CivilIsDate(days);
    CivilIsDate(later);
    NumbersOrder(CivilFromDays(days), CivilFromDays(later));
  }

  lemma NumbersOrder(a: Date, b: Date)
    requires ValidDate(a) && ValidDate(b) && DayNumber(a) < DayNumber(b)
    ensures Before(a, b)
  {
    if Before(b, a) {
      DayNumberIncreases(b, a);
    }
  }

  /** The day after is the next date of the calendar. */
  lemma CivilSteps(days: int)
    ensures ValidDate(CivilFromDays(days)) && CivilFromDays(days + 1) == NextDay(CivilFromDays(days))
  {
    CivilIsDate(days);
    CivilIsDate(days + 1);
    NextNumber(CivilFromDays(days), CivilFromDays(days + 1));
  }

  lemma NextNumber(d: Date, e: Date)
    requires ValidDate(d) && ValidDate(e) && DayNumber(e) == DayNumber(d) + 1
    ensures e == NextDay(d)
  {
    DayNumberCounts(d);
    SameNumber(NextDay(d), e);
  }
}
