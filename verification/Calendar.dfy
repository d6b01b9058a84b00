/** Civil dates from epoch seconds: the two `format_ts` copies of the command line
    (`src/cli/device.rs`, `src/cli/devices.rs`), proved against a calendar that is
    defined only by month lengths and the Gregorian leap-year rule. */
module Calendar {

  datatype Date = Date(year: int, month: int, day: int)

  datatype Timestamp = Timestamp(date: Date, hour: int, minute: int, second: int)

  // ---------------------------------------------------------------------------
  // The reference calendar (RFC 3339, section 5.7 and appendix C)
  // ---------------------------------------------------------------------------

  predicate IsLeap(y: int) {
    y % 4 == 0 && (y % 100 != 0 || y % 400 == 0)
  }

  function DaysInMonth(y: int, m: int): int {
    if m == 2 then (if IsLeap(y) then 29 else 28)
    else if m == 4 || m == 6 || m == 9 || m == 11 then 30
    else 31
  }

  predicate IsDate(t: Date) {
    1 <= t.month <= 12 && 1 <= t.day <= DaysInMonth(t.year, t.month)
  }

  /** The calendar day after `t`. */
  function NextDay(t: Date): Date {
    if t.day < DaysInMonth(t.year, t.month) then t.(day := t.day + 1)
    else if t.month < 12 then Date(t.year, t.month + 1, 1)
    else Date(t.year + 1, 1, 1)
  }

  /** Days of year `y` before month `m`, summed month by month. */
  function DaysBeforeMonth(y: int, m: int): int
    requires 1 <= m <= 12
    decreases m
  {
    if m == 1 then 0 else DaysBeforeMonth(y, m - 1) + DaysInMonth(y, m - 1)
  }

  function YearLength(y: int): int {
    if IsLeap(y) then 366 else 365
  }

  /** Days from 1 January 1970 to 1 January of `y` (negative before 1970), year by year. */
  function DaysBeforeYear(y: int): int
    decreases if y >= 1970 then y - 1970 else 1970 - y
  {
    if y == 1970 then 0
    else if y > 1970 then DaysBeforeYear(y - 1) + YearLength(y - 1)
    else DaysBeforeYear(y + 1) - YearLength(y)
  }

  /** The reference day number: days since 1 January 1970. */
  function DayNumber(t: Date): int
    requires 1 <= t.month <= 12
  {
    DaysBeforeYear(t.year) + DaysBeforeMonth(t.year, t.month) + t.day - 1
  }

  // ---------------------------------------------------------------------------
  // The code
  // ---------------------------------------------------------------------------

  /** Year of era from day of era; common to both copies. */
  function YearOfEra(doe: int): int {
    (doe - doe / 1460 + doe / 36_524 - doe / 146_096) / 365
  }

  /** March-based month and day to the civil date; common to both copies. */
  function FromMarch(y: int, doy: int): Date {
    var mp := (5 * doy + 2) / 153;
    var d := doy - (153 * mp + 2) / 5 + 1;
    var m := if mp < 10 then mp + 3 else mp - 9;
    Date(if m <= 2 then y + 1 else y, m, d)
  }

  /** `src/cli/devices.rs`: the copy used by the device table. */
  function CivilTable(days: int): Date {
    var z := days + 719_468;
    var era := z / 146_097;
    var doe := z % 146_097;
    var yoe := YearOfEra(doe);
    FromMarch(yoe + era * 400, doe - (365 * yoe + yoe / 4 - yoe / 100))
  }

  /** `src/cli/device.rs`: the copy with the extra `yoe / 146_096` term. */
  function CivilPairing(days: int): Date {
    var z := days + 719_468;
    var era := z / 146_097;
    var doe := z % 146_097;
    var yoe := YearOfEra(doe);
    FromMarch(yoe + era * 400, doe - (365 * yoe + yoe / 4 - yoe / 100 + yoe / 146_096))
  }

  function TimestampTable(secs: nat): Timestamp {
    var sod := secs % 86_400;
    Timestamp(CivilTable(secs / 86_400), sod / 3600, (sod % 3600) / 60, sod % 60)
  }

  function TimestampPairing(secs: nat): Timestamp {
    var sod := secs % 86_400;
    Timestamp(CivilPairing(secs / 86_400), sod / 3600, (sod % 3600) / 60, sod % 3600 % 60)
  }

  // ---------------------------------------------------------------------------
  // Days of an era: the closed form for the year of the era
  // ---------------------------------------------------------------------------

  /** Days of the era before its `yoe`-th March-based year. */
  function EraYearStart(yoe: int): int {
    365 * yoe + yoe / 4 - yoe / 100
  }

  /** The `yoe`-th March-based year of an era ends with a 29 February. */
  predicate LongYear(yoe: int) {
    yoe == 399 || ((yoe + 1) % 4 == 0 && (yoe + 1) % 100 != 0)
  }

  lemma {:induction false} AtLeastOnce(k: int, n: int)
    requires k > 0 && n > 0
    ensures k * n >= k
    decreases n
  {
    if n > 1 {
      AtLeastOnce(k, n - 1);
      assert k * n == k * (n - 1) + k;
    }
  }

  lemma Apart(k: int, a: int, b: int)
    requires k > 0 && a > b
    ensures k * a - k * b >= k
  {
    AtLeastOnce(k, a - b);
    assert k * (a - b) == k * a - k * b;
  }

  /** Quotient and remainder are determined by their defining equation. */
  lemma DivModIs(a: int, k: int, q: int, r: int)
    requires k > 0 && 0 <= r < k && a == k * q + r
    ensures a / k == q && a % k == r
  {
    var q', r' := a / k, a % k;
    assert a == k * q' + r';
    if q < q' {
      Apart(k, q', q);
    } else if q' < q {
      Apart(k, q, q');
    }
  }

  /** The closed form on a day given by century `c`, four-year block `q`, year `r` and day `dd`. */
  lemma YearOfEraAt(c: int, q: int, r: int, dd: int)
    requires 0 <= c < 4 && 0 <= q < 25 && 0 <= r < 4
    requires 0 <= dd <= (if LongYear(100 * c + 4 * q + r) then 365 else 364)
    ensures YearOfEra(36_524 * c + 1461 * q + 365 * r + dd) == 100 * c + 4 * q + r
  {
    EraYearStartAt(c, q, r);
    var doe := 36_524 * c + 1461 * q + 365 * r + dd;
    var e := 24 * c + q + 365 * r + dd;
    var wrap := if e >= 1460 then 1 else 0;
    DivModIs(doe, 1460, 25 * c + q + wrap, e - 1460 * wrap);
    var last := if doe == 146_096 then 1 else 0;
    DivModIs(doe, 36_524, c + last, doe - 36_524 * (c + last));
    DivModIs(doe, 146_096, last, doe - 146_096 * last);
    DivModIs(365 * (100 * c + 4 * q + r) + dd - wrap, 365, 100 * c + 4 * q + r, dd - wrap);
  }

  lemma EraYearStartAt(c: int, q: int, r: int)
    requires 0 <= c < 4 && 0 <= q < 25 && 0 <= r < 4
    ensures EraYearStart(100 * c + 4 * q + r) == 36_524 * c + 1461 * q + 365 * r
    ensures LongYear(100 * c + 4 * q + r) == (r == 3 && (q < 24 || c == 3))
  {
    var yoe := 100 * c + 4 * q + r;
    DivModIs(yoe, 4, 25 * c + q, r);
    DivModIs(yoe, 100, c, 4 * q + r);
    DivModIs(yoe + 1, 4, 25 * c + q + (if r == 3 then 1 else 0), (r + 1) % 4);
    if q == 24 && r == 3 {
      DivModIs(yoe + 1, 100, c + 1, 0);
    } else {
      DivModIs(yoe + 1, 100, c, 4 * q + r + 1);
    }
  }

  /** Every day of an era falls in the year the closed form names, and only the last day of
      a long year reaches offset 365. */
  lemma YearOfEraBounds(doe: int)
    requires 0 <= doe < 146_097
    ensures 0 <= YearOfEra(doe) < 400
    ensures 0 <= doe - EraYearStart(YearOfEra(doe)) <= (if LongYear(YearOfEra(doe)) then 365 else 364)
  {
    var c := if doe / 36_524 == 4 then 3 else doe / 36_524;
    var dc := doe - 36_524 * c;
    var q, dq := dc / 1461, dc % 1461;
    var r := if dq / 365 == 4 then 3 else dq / 365;
    assert 0 <= c < 4 && 0 <= dc <= 36_524 && (dc == 36_524 ==> c == 3);
    assert 0 <= q < 25 && (q == 24 && dq == 1460 ==> c == 3);
    EraYearStartAt(c, q, r);
    YearOfEraAt(c, q, r, dq - 365 * r);
  }

  // ---------------------------------------------------------------------------
  // The reference calendar in closed form
  // ---------------------------------------------------------------------------

  function LeapsBefore(y: int): int {
    (y - 1) / 4 - (y - 1) / 100 + (y - 1) / 400
  }

  lemma LeapsStep(y: int)
    ensures LeapsBefore(y + 1) == LeapsBefore(y) + (if IsLeap(y) then 1 else 0)
  {
    QuotientStep(y, 4);
    QuotientStep(y, 100);
    QuotientStep(y, 400);
    MultiplesNest(y);
  }

  lemma MultiplesNest(y: int)
    ensures y % 400 == 0 ==> y % 100 == 0
    ensures y % 100 == 0 ==> y % 4 == 0
  {
    if y % 400 == 0 {
      DivModIs(y, 100, 4 * (y / 400), 0);
    }
    if y % 100 == 0 {
      DivModIs(y, 4, 25 * (y / 100), 0);
    }
  }

  lemma QuotientStep(y: int, k: int)
    requires k == 4 || k == 100 || k == 400
    ensures y / k == (y - 1) / k + (if y % k == 0 then 1 else 0)
  {
  }

  lemma {:induction false} DaysBeforeYearClosed(y: int)
    ensures DaysBeforeYear(y) == 365 * (y - 1970) + LeapsBefore(y) - 477
    decreases if y >= 1970 then y - 1970 else 1970 - y
  {
    if y > 1970 {
      DaysBeforeYearClosed(y - 1);
      LeapsStep(y - 1);
    } else if y < 1970 {
      DaysBeforeYearClosed(y + 1);
      LeapsStep(y);
    }
  }

  lemma YearStep(y: int)
    ensures DaysBeforeYear(y + 1) == DaysBeforeYear(y) + YearLength(y)
  {
  }

  lemma MonthTable(y: int)
    ensures DaysBeforeMonth(y, 1) == 0 && DaysBeforeMonth(y, 2) == 31
    ensures var k := if IsLeap(y) then 1 else 0;
            && DaysBeforeMonth(y, 3) == 59 + k && DaysBeforeMonth(y, 4) == 90 + k
            && DaysBeforeMonth(y, 5) == 120 + k && DaysBeforeMonth(y, 6) == 151 + k
            && DaysBeforeMonth(y, 7) == 181 + k && DaysBeforeMonth(y, 8) == 212 + k
            && DaysBeforeMonth(y, 9) == 243 + k && DaysBeforeMonth(y, 10) == 273 + k
            && DaysBeforeMonth(y, 11) == 304 + k && DaysBeforeMonth(y, 12) == 334 + k
  {
    var k := if IsLeap(y) then 1 else 0;
    assert DaysBeforeMonth(y, 3) == 59 + k;
    assert DaysBeforeMonth(y, 5) == 120 + k;
    assert DaysBeforeMonth(y, 7) == 181 + k;
    assert DaysBeforeMonth(y, 9) == 243 + k;
    assert DaysBeforeMonth(y, 11) == 304 + k;
  }

  /** A March-based year begins 306 days before the civil year that follows it. */
  lemma MarchYearStart(era: int, yoe: int)
    requires 0 <= yoe < 400
    ensures DaysBeforeYear(400 * era + yoe + 1) - 306 == 146_097 * era + EraYearStart(yoe) - 719_468
    ensures LongYear(yoe) == IsLeap(400 * era + yoe + 1)
  {
    var y := 400 * era + yoe;
    DaysBeforeYearClosed(y + 1);
    DivModIs(y, 4, 100 * era + yoe / 4, yoe % 4);
    DivModIs(y, 100, 4 * era + yoe / 100, yoe % 100);
    DivModIs(y, 400, era, yoe);
    DivModIs(y + 1, 4, 100 * era + (yoe + 1) / 4, (yoe + 1) % 4);
    DivModIs(y + 1, 100, 4 * era + (yoe + 1) / 100, (yoe + 1) % 100);
    DivModIs(y + 1, 400, era + (yoe + 1) / 400, (yoe + 1) % 400);
  }

  /** Offset of the first day of the `mp`-th month counted from March. */
  lemma MarchMonthStart(mp: int)
    requires 0 <= mp < 12
    ensures (153 * mp + 2) / 5 == [0, 31, 61, 92, 122, 153, 184, 214, 245, 275, 306, 337][mp]
  {
  }

  lemma MarchMonth(doy: int)
    requires 0 <= doy <= 365
    ensures var mp := (5 * doy + 2) / 153;
            && 0 <= mp < 12
            && (153 * mp + 2) / 5 <= doy
            && (mp < 11 ==> doy < (153 * (mp + 1) + 2) / 5)
  {
  }

  /** A day offset in a March-based year is sent to the civil date at that offset. */
  lemma FromMarchCorrect(y: int, doy: int)
    requires 0 <= doy <= (if IsLeap(y + 1) then 365 else 364)
    ensures IsDate(FromMarch(y, doy))
    ensures DayNumber(FromMarch(y, doy)) == DaysBeforeYear(y + 1) - 306 + doy
  {
    var mp := (5 * doy + 2) / 153;
    MarchMonth(doy);
    MarchMonthStart(mp);
    if mp < 11 { MarchMonthStart(mp + 1); }
    var t := FromMarch(y, doy);
    hide FromMarch, IsLeap, DaysBeforeYear;
    MonthTable(t.year);
    YearStep(y);
  }

  // ---------------------------------------------------------------------------
  // Main results
  // ---------------------------------------------------------------------------

  /** What both copies compute, with the divisions resolved: the era, the year of the era
      and the day offset that determine the answer. */
  lemma CivilUnfolded(days: int) returns (era: int, yoe: int, doy: int)
    ensures 0 <= yoe < 400
    ensures days + 719_468 == 146_097 * era + EraYearStart(yoe) + doy
    ensures 0 <= doy <= (if LongYear(yoe) then 365 else 364)
    ensures CivilTable(days) == CivilPairing(days) == FromMarch(400 * era + yoe, doy)
  {
    hide YearOfEra, FromMarch;
    var z := days + 719_468;
    var doe := z % 146_097;
    YearOfEraBounds(doe);
    era, yoe := z / 146_097, YearOfEra(doe);
    doy := doe - EraYearStart(yoe);
  }

  /** For every day, before or after 1970, the code names a valid Gregorian date whose
      day number is the input. */
  lemma CivilIsTheDate(days: int)
    ensures IsDate(CivilTable(days))
    ensures DayNumber(CivilTable(days)) == days
  {
    hide *;
    var era, yoe, doy := CivilUnfolded(days);
    MarchYearStart(era, yoe);
    FromMarchCorrect(400 * era + yoe, doy);
  }

  /** The two copies agree on every second although their year offsets differ. */
  lemma CopiesAgree(secs: nat)
    ensures TimestampTable(secs) == TimestampPairing(secs)
  {
    hide CivilTable, CivilPairing;
    var _, _, _ := CivilUnfolded(secs / 86_400);
  }

  lemma WithinYear(t: Date)
    requires IsDate(t)
    ensures DaysBeforeYear(t.year) <= DayNumber(t) < DaysBeforeYear(t.year + 1)
  {
    MonthTable(t.year);
    YearStep(t.year);
  }

  lemma {:induction false} YearsIncrease(y: int, y': int)
    requires y <= y'
    ensures DaysBeforeYear(y) <= DaysBeforeYear(y')
    decreases y' - y
  {
    if y < y' {
      YearsIncrease(y, y' - 1);
      YearStep(y' - 1);
    }
  }

  /** Day numbers identify dates. */
  lemma DayNumberInjective(t: Date, u: Date)
    requires IsDate(t) && IsDate(u) && DayNumber(t) == DayNumber(u)
    ensures t == u
  {
    WithinYear(t);
    WithinYear(u);
    if t.year < u.year {
      YearsIncrease(t.year + 1, u.year);
    } else if u.year < t.year {
      YearsIncrease(u.year + 1, t.year);
    }
    MonthTable(t.year);
  }

  lemma NextDayCounts(t: Date)
    requires IsDate(t)
    ensures IsDate(NextDay(t)) && DayNumber(NextDay(t)) == DayNumber(t) + 1
  {
    MonthTable(t.year);
    YearStep(t.year);
  }

  /** Consecutive days are consecutive calendar dates, across months, years and eras. */
  lemma CivilStepsThroughTheCalendar(days: int)
    ensures CivilTable(days + 1) == NextDay(CivilTable(days))
    ensures CivilTable(0) == Date(1970, 1, 1)
  {
    hide CivilTable, NextDay;
    CivilIsTheDate(0);
    CivilIsTheDate(days);
    CivilIsTheDate(days + 1);
    DayNumberInjective(CivilTable(0), Date(1970, 1, 1));
    NextDayCounts(CivilTable(days));
    DayNumberInjective(CivilTable(days + 1), NextDay(CivilTable(days)));
  }

  /** Round trip: every valid date is the code's answer for its own day number. */
  lemma CivilInvertsDayNumber(t: Date)
    requires IsDate(t)
    ensures CivilTable(DayNumber(t)) == t
  {
    CivilIsTheDate(DayNumber(t));
    DayNumberInjective(CivilTable(DayNumber(t)), t);
  }

  lemma ClockFields(sod: int)
    requires 0 <= sod < 86_400
    ensures 0 <= sod / 3600 < 24 && 0 <= (sod % 3600) / 60 < 60 && 0 <= sod % 60 < 60
    ensures sod / 3600 * 3600 + (sod % 3600) / 60 * 60 + sod % 60 == sod
  {
    var h, rest := sod / 3600, sod % 3600;
    assert sod == 3600 * h + rest;
    assert sod == 60 * (60 * h + rest / 60) + rest % 60;
  }

  /** The clock fields are in range, and the printed fields determine the second. */
  lemma TimestampCounts(secs: nat)
    ensures var t := TimestampTable(secs);
            && 0 <= t.hour < 24 && 0 <= t.minute < 60 && 0 <= t.second < 60
            && IsDate(t.date)
            && DayNumber(t.date) * 86_400 + t.hour * 3600 + t.minute * 60 + t.second == secs
  {
    hide CivilTable, DayNumber, IsDate;
    CivilIsTheDate(secs / 86_400);
    ClockFields(secs % 86_400);
  }
}
