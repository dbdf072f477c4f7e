/**
 Calendar arithmetic of the cloud tools: the era / day-of-era conversion from a
 Unix day number to a proleptic Gregorian date, against a January-based
 reference that knows nothing of eras or of years that start in March.
 */
module Calendar {

  const I32_MIN: int := -0x8000_0000
  const I32_MAX: int := 0x7FFF_FFFF

  datatype Date = Date(year: int, month: int, day: int)

  // ---------- The Gregorian calendar ----------

  predicate IsLeap(y: int) {
    y % 4 == 0 && (y % 100 != 0 || y % 400 == 0)
  }

  function DaysInMonth(y: int, m: int): int {
    if m == 2 then (if IsLeap(y) then 29 else 28)
    else if m == 4 || m == 6 || m == 9 || m == 11 then 30
    else 31
  }

  predicate ValidDate(date: Date) {
    && 1 <= date.month <= 12
    && 1 <= date.day <= DaysInMonth(date.year, date.month)
  }

  /** The calendar successor of a date. */
  function NextDay(date: Date): Date {
    if date.day < DaysInMonth(date.year, date.month) then Date(date.year, date.month, date.day + 1)
    else if date.month < 12 then Date(date.year, date.month + 1, 1)
    else Date(date.year + 1, 1, 1)
  }

  function DaysBeforeMonth(y: int, m: int): int
    requires 1 <= m <= 12
  {
    if m == 1 then 0 else DaysBeforeMonth(y, m - 1) + DaysInMonth(y, m - 1)
  }

  /** Days from 0001-01-01 to the first of January of year `y`. */
  function DaysBeforeYear(y: int): int {
    365 * (y - 1) + (y - 1) / 4 - (y - 1) / 100 + (y - 1) / 400
  }

  /** The standard date-to-days formula, counted from 1970-01-01. */
  function DayNumber(date: Date): int
    requires 1 <= date.month <= 12
  {
    DaysBeforeYear(date.year) + DaysBeforeMonth(date.year, date.month) + date.day - 1 - 719_162
  }

  // ---------- The program's conversion ----------

  /** Rust's `/` on signed integers: the quotient is rounded toward zero. */
  function TruncDiv(n: int, d: int): int
    requires d > 0
  {
    if n >= 0 then n / d else -((-n) / d)
  }

  /** Rust's `as i32`: the low 32 bits, read as two's complement. */
  function AsI32(n: int): int {
    (n + 0x8000_0000) % 0x1_0000_0000 - 0x8000_0000
  }

  function Era(z: int): int {
    TruncDiv(if z >= 0 then z else z - 146_096, 146_097)
  }

  function YearOfEra(doe: nat): int {
    (doe - doe / 1460 + doe / 36524 - doe / 146_096) / 365
  }

  /** First day of year `yoe` of an era; the years run from March to February. */
  function YearStart(yoe: int): int {
    365 * yoe + yoe / 4 - yoe / 100
  }

  /** Month (1..12) and day of the month from the day of a year that starts in March. */
  function MonthDay(doy: int): (int, int) {
    var mp := (5 * doy + 2) / 153;
    (if mp < 10 then mp + 3 else mp - 9, doy - (153 * mp + 2) / 5 + 1)
  }

  function DayOfEra(z: int): (doe: nat)
    ensures doe < 146_097 && z == Era(z) * 146_097 + doe
  {
    EraIsFloor(z);
    z - Era(z) * 146_097
  }

  /**
   Era, year of the era and day of the March year. With 719,468 added, day 0 is
   the first of March of year 0, where an era begins.
   */
  function Parts(days: int): (r: (int, int, int))
    ensures var (era, yoe, doy) := r;
      && 0 <= yoe < 400
      && days + 719_468 == DaysBeforeYear(yoe + era * 400 + 1) + doy
      && 0 <= doy < (if IsLeap(yoe + era * 400 + 1) then 366 else 365)
  {
    var era := Era(days + 719_468);
    var doe := DayOfEra(days + 719_468);
    var yoe := YearOfEra(doe);
    PartsOfEra(era, doe);
    (era, yoe, doe - YearStart(yoe))
  }

  /** Day `doy` of the year that starts on the first of March of year `y`. */
  function MarchDate(y: int, doy: int): Date {
    var (m, d) := MonthDay(doy);
    Date(if m <= 2 then y + 1 else y, m, d)
  }

  /** `civil_from_days` before the year is narrowed to 32 bits. */
  function WideCivil(days: int): Date {
    var (era, yoe, doy) := Parts(days);
    MarchDate(yoe + era * 400, doy)
  }

  function CivilFromDays(days: int): Date {
    var wide := WideCivil(days);
    wide.(year := AsI32(wide.year))
  }

  // ---------- Proofs ----------

  lemma EraIsFloor(z: int)
    ensures 0 <= z - Era(z) * 146_097 < 146_097
  {
  }

  /**
   A day of an era written as whole centuries, four-year groups and years, plus
   a day `r` within the year. The leap day (`r == 365`) closes only the last
   year of a four-year group, and never that of a short century.
   */
  lemma YearOfEraOf(c: int, q: int, a: int, r: int)
    requires 0 <= c <= 3 && 0 <= q <= 24 && 0 <= a <= 3 && 0 <= r <= 365
    requires r == 365 ==> a == 3 && (q < 24 || c == 3)
    ensures YearOfEra(36524 * c + 1461 * q + 365 * a + r) == 100 * c + 4 * q + a
  {
    var doe := 36524 * c + 1461 * q + 365 * a + r;
    var over := if 24 * c + q + 365 * a + r >= 1460 then 1 else 0;
    assert doe / 1460 == 25 * c + q + over;
    assert doe / 36524 - doe / 146_096 == c;
  }

  lemma YearStartOf(c: int, q: int, a: int)
    requires 0 <= c && 0 <= q <= 24 && 0 <= a <= 3
    ensures YearStart(100 * c + 4 * q + a) == 36524 * c + 1461 * q + 365 * a
  {
    assert (100 * c + 4 * q + a) / 4 == 25 * c + q;
    assert (100 * c + 4 * q + a) / 100 == c;
  }

  /** Every day of an era has such a place. */
  lemma PlaceInEra(doe: nat) returns (c: int, q: int, a: int, r: int)
    requires doe < 146_097
    ensures 0 <= c <= 3 && 0 <= q <= 24 && 0 <= a <= 3 && 0 <= r <= 365
    ensures r == 365 ==> a == 3 && (q < 24 || c == 3)
    ensures doe == 36524 * c + 1461 * q + 365 * a + r
  {
    c := if doe == 146_096 then 3 else doe / 36524;
    q := (doe - 36524 * c) / 1461;
    var inGroup := doe - 36524 * c - 1461 * q;
    a := if inGroup == 1460 then 3 else inGroup / 365;
    r := inGroup - 365 * a;
  }

  /** The year after it starts 365 or 366 days later, the leap day being the extra one. */
  lemma NextYearStart(c: int, q: int, a: int)
    requires 0 <= c <= 3 && 0 <= q <= 24 && 0 <= a <= 3
    ensures YearStart(100 * c + 4 * q + a + 1) ==
      36524 * c + 1461 * q + 365 * a + (if a == 3 && q < 24 then 366 else 365)
  {
    if a < 3 { YearStartOf(c, q, a + 1); }
    else if q < 24 { YearStartOf(c, q + 1, 0); }
    else { YearStartOf(c + 1, 0, 0); }
  }

  /** The division formula finds the year that contains the day. */
  lemma YearOfEraBrackets(doe: nat)
    requires doe < 146_097
    ensures 0 <= YearOfEra(doe) < 400
    ensures YearStart(YearOfEra(doe)) <= doe
    ensures doe < YearStart(YearOfEra(doe) + 1) + (if YearOfEra(doe) == 399 then 1 else 0)
  {
    hide YearOfEra, YearStart;
    var c, q, a, r := PlaceInEra(doe);
    YearOfEraOf(c, q, a, r);
    YearStartOf(c, q, a);
    NextYearStart(c, q, a);
  }

  lemma PartsOfEra(era: int, doe: nat)
    requires doe < 146_097
    ensures var yoe := YearOfEra(doe);
      && 0 <= yoe < 400
      && 146_097 * era + doe == DaysBeforeYear(yoe + era * 400 + 1) + doe - YearStart(yoe)
      && 0 <= doe - YearStart(yoe) < (if IsLeap(yoe + era * 400 + 1) then 366 else 365)
  {
    hide YearOfEra, YearStart, DaysBeforeYear, IsLeap;
    var yoe := YearOfEra(doe);
    YearOfEraBrackets(doe);
    EraYears(era, yoe);
    EraYears(era, yoe + 1);
    YearLength(yoe + era * 400 + 1);
  }

  /** January-based month starts, closed form of the running sum. */
  lemma DaysBeforeMonthTable(y: int, m: int)
    requires 1 <= m <= 12
    ensures DaysBeforeMonth(y, m) ==
      if m <= 2 then 31 * (m - 1)
      else 59 + (if IsLeap(y) then 1 else 0) + (153 * (m - 3) + 2) / 5
  {
    if m > 1 { DaysBeforeMonthTable(y, m - 1); }
  }

  lemma CrossesMultiple(y: int, d: int)
    requires d == 4 || d == 100 || d == 400
    ensures y / d - (y - 1) / d == if y % d == 0 then 1 else 0
  {
  }

  lemma YearLength(y: int)
    ensures DaysBeforeYear(y + 1) - DaysBeforeYear(y) == if IsLeap(y) then 366 else 365
  {
    CrossesMultiple(y, 4);
    CrossesMultiple(y, 100);
    CrossesMultiple(y, 400);
    LeapRules(y);
  }

  lemma LeapRules(y: int)
    ensures y % 100 == 0 ==> y % 4 == 0
    ensures y % 400 == 0 ==> y % 100 == 0
  {
  }

  /** Years counted in eras agree with years counted from year 1. */
  lemma EraYears(era: int, yoe: int)
    requires 0 <= yoe <= 400
    ensures yoe < 400 ==> DaysBeforeYear(yoe + era * 400 + 1) == 146_097 * era + YearStart(yoe)
    ensures yoe == 400 ==> DaysBeforeYear(yoe + era * 400 + 1) == 146_097 * era + YearStart(yoe) + 1
  {
    var y := yoe + era * 400;
    assert y / 4 == yoe / 4 + 100 * era;
    assert y / 100 == yoe / 100 + 4 * era;
    assert y / 400 == yoe / 400 + era;
  }

  lemma MonthDayCases(doy: int)
    requires 0 <= doy <= 365
    ensures var (m, d) := MonthDay(doy);
      && 1 <= m <= 12 && 1 <= d
      && (m >= 3 ==> doy == (153 * (m - 3) + 2) / 5 + d - 1 && d <= DaysInMonth(1, m))
      && (m == 1 ==> doy == 306 + d - 1 && d <= 31)
      && (m == 2 ==> doy == 337 + d - 1 && d <= 29)
  {
    var mp := (5 * doy + 2) / 153;
    assert 0 <= mp <= 11;
    assert (5 * doy + 2) - 153 * mp < 153;
  }

  /** Day `doy` of the year that starts in March of `y` is a real date with the right number. */
  lemma MarchYearDate(y: int, doy: int)
    requires 0 <= doy < (if IsLeap(y + 1) then 366 else 365)
    ensures ValidDate(MarchDate(y, doy))
    ensures DayNumber(MarchDate(y, doy)) == DaysBeforeYear(y + 1) + doy - 719_468
  {
    MonthDayCases(doy);
    var (m, d) := MonthDay(doy);
    DaysBeforeMonthTable(y + (if m <= 2 then 1 else 0), m);
    YearLength(y);
  }

  /** The conversion always yields a real calendar date, and that date's own number. */
  lemma WideCivilIsInverse(days: int)
    ensures ValidDate(WideCivil(days))
    ensures DayNumber(WideCivil(days)) == days
  {
    hide Parts, IsLeap, DaysBeforeYear, MarchDate, DayNumber, ValidDate;
    var (era, yoe, doy) := Parts(days);
    MarchYearDate(yoe + era * 400, doy);
  }

  /** Counting one day on is stepping to the calendar successor. */
  lemma NextDayCounts(date: Date)
    requires ValidDate(date)
    ensures ValidDate(NextDay(date))
    ensures DayNumber(NextDay(date)) == DayNumber(date) + 1
  {
    YearLength(date.year);
    DaysBeforeMonthTable(date.year, 12);
  }

  /** Dates in calendar order. */
  predicate Earlier(a: Date, b: Date) {
    || a.year < b.year
    || (a.year == b.year && a.month < b.month)
    || (a.year == b.year && a.month == b.month && a.day < b.day)
  }

  lemma {:induction false} YearsAreOrdered(y: int, y': int)
    requires y < y'
    ensures DaysBeforeYear(y + 1) <= DaysBeforeYear(y')
    decreases y' - y
  {
    if y + 1 < y' {
      YearsAreOrdered(y, y' - 1);
      YearLength(y' - 1);
    }
  }

  lemma {:induction false} MonthsAreOrdered(y: int, m: int, m': int)
    requires 1 <= m < m' <= 12
    ensures DaysBeforeMonth(y, m) + DaysInMonth(y, m) <= DaysBeforeMonth(y, m')
    decreases m' - m
  {
    if m + 1 < m' { MonthsAreOrdered(y, m, m' - 1); }
  }

  /** Calendar order is day-number order, so no two dates share a number. */
  lemma DayNumberOrders(a: Date, b: Date)
    requires ValidDate(a) && ValidDate(b)
    ensures Earlier(a, b) <==> DayNumber(a) < DayNumber(b)
    ensures a == b <==> DayNumber(a) == DayNumber(b)
  {
    if Earlier(a, b) { EarlierIsBefore(a, b); }
    else if Earlier(b, a) { EarlierIsBefore(b, a); }
  }

  lemma EarlierIsBefore(a: Date, b: Date)
    requires ValidDate(a) && ValidDate(b) && Earlier(a, b)
    ensures DayNumber(a) < DayNumber(b)
  {
    if a.year < b.year {
      YearsAreOrdered(a.year, b.year);
      DaysBeforeMonthTable(a.year, a.month);
      DaysBeforeMonthTable(b.year, b.month);
      YearLength(a.year);
    } else if a.month < b.month {
      MonthsAreOrdered(a.year, a.month, b.month);
    }
  }

  // ---------- Main results ----------

  /** The day numbers whose year fits 32 bits: -2147483648-01-01 to 2147483647-12-31. */
  const FIRST_DAY: int := -784_353_015_833
  const LAST_DAY: int := 784_351_576_776

  lemma YearBounds()
    ensures FIRST_DAY == DayNumber(Date(I32_MIN, 1, 1))
    ensures LAST_DAY == DayNumber(Date(I32_MAX, 12, 31))
  {
    DaysBeforeMonthTable(I32_MAX, 12);
  }

  lemma YearFits(days: int)
    ensures I32_MIN <= WideCivil(days).year <= I32_MAX <==> FIRST_DAY <= days <= LAST_DAY
  {
    YearBounds();
    WideCivilIsInverse(days);
    var date := WideCivil(days);
    DayNumberOrders(date, Date(I32_MIN, 1, 1));
    DayNumberOrders(Date(I32_MAX, 12, 31), date);
  }

  /**
   The date that comes back is a real date carrying the same day number exactly
   when the day lies in the years a 32-bit year can hold.
   */
  lemma CivilRoundTrip(days: int)
    ensures ValidDate(CivilFromDays(days)) && DayNumber(CivilFromDays(days)) == days
      <==> FIRST_DAY <= days <= LAST_DAY
  {
    WideCivilIsInverse(days);
    var wide, narrow := WideCivil(days), CivilFromDays(days);
    NarrowedYear(days);
    if ValidDate(narrow) { DayNumberOrders(narrow, wide); }
  }

  lemma NarrowedYear(days: int)
    ensures CivilFromDays(days) == WideCivil(days) <==> FIRST_DAY <= days <= LAST_DAY
  {
    YearFits(days);
    AsI32Keeps(WideCivil(days).year);
  }

  lemma AsI32Keeps(n: int)
    ensures AsI32(n) == n <==> I32_MIN <= n <= I32_MAX
  {
  }

  /** Every real date with a 32-bit year is reached, from its own day number. */
  lemma CivilReachesEveryDate(date: Date)
    requires ValidDate(date) && I32_MIN <= date.year <= I32_MAX
    ensures CivilFromDays(DayNumber(date)) == date
  {
    var days := DayNumber(date);
    WideCivilIsInverse(days);
    DayNumberOrders(WideCivil(days), date);
    AsI32Keeps(date.year);
  }

  /** Day n + 1 is the calendar successor of day n, across months, leap years and eras. */
  lemma CivilSuccessor(days: int)
    requires FIRST_DAY <= days < LAST_DAY
    ensures CivilFromDays(days + 1) == NextDay(CivilFromDays(days))
  {
    CivilRoundTrip(days);
    CivilRoundTrip(days + 1);
    NextDayCounts(CivilFromDays(days));
    DayNumberOrders(CivilFromDays(days + 1), NextDay(CivilFromDays(days)));
  }

  const I64_MIN: int := -0x8000_0000_0000_0000
  const I64_MAX: int := 0x7FFF_FFFF_FFFF_FFFF

  predicate FitsI64(v: int) {
    I64_MIN <= v <= I64_MAX
  }

  predicate FitsU64(v: int) {
    0 <= v <= 0xFFFF_FFFF_FFFF_FFFF
  }

  /** Every value on the way fits its type: signed up to the day of the era, unsigned from there. */
  predicate ArithmeticFits(days: int) {
    var z := days + 719_468;
    var era, doe := Era(z), DayOfEra(z);
    var yoe := YearOfEra(doe);
    var doy := doe - YearStart(yoe);
    && FitsI64(z) && (z < 0 ==> FitsI64(z - 146_096))
    && FitsI64(era * 146_097) && FitsI64(era * 400) && FitsI64(yoe + era * 400 + 1)
    && FitsU64(doe - doe / 1460) && FitsU64(365 * yoe + yoe / 4) && FitsU64(YearStart(yoe)) && FitsU64(doy)
    && FitsU64(5 * doy + 2) && FitsU64(doy - (153 * ((5 * doy + 2) / 153) + 2) / 5)
  }

  /** 64-bit arithmetic is exact up to the one overflow there can be, in the shift to March. */
  lemma ArithmeticIsExact(days: int)
    requires FitsI64(days)
    ensures ArithmeticFits(days) <==> days <= I64_MAX - 719_468
  {
    hide YearStart, YearOfEra;
    var z := days + 719_468;
    EraIsNear(z);
    YearIsShort(DayOfEra(z));
  }

  lemma EraIsNear(z: int)
    requires I64_MIN <= z <= I64_MAX + 719_468
    ensures I64_MIN / 146_097 - 1 <= Era(z) <= (I64_MAX + 719_468) / 146_097
  {
  }

  lemma YearIsShort(doe: nat)
    requires doe < 146_097
    ensures var yoe := YearOfEra(doe);
      var doy := doe - YearStart(yoe);
      0 <= yoe < 400 && 0 <= YearStart(yoe) <= doe && 0 <= doy <= 365 && 0 <= doy - (153 * ((5 * doy + 2) / 153) + 2) / 5
  {
    hide YearStart, YearOfEra;
    var c, q, a, r := PlaceInEra(doe);
    YearOfEraOf(c, q, a, r);
    YearStartOf(c, q, a);
    MonthDayCases(r);
  }

  lemma EpochIsFirstOfJanuary1970()
    ensures CivilFromDays(0) == Date(1970, 1, 1)
  {
    var epoch := Date(1970, 1, 1);
    assert DayNumber(epoch) == 0 && ValidDate(epoch);
    CivilReachesEveryDate(epoch);
  }
}
