/**
 The UTC timestamps of the calendar window (sections 5.1 and 5.6 of RFC 3339):
 what `format_rfc3339` prints, a reader for that profile, and the order of the
 printed strings.
 */
module Rfc3339 {
  import opened Wrappers
  import opened Decimal
  import opened Calendar

  const DAY_SECONDS: int := 86_400

  /** 9999-12-31T23:59:59Z, the last second with a four-digit year. */
  const LAST_SECOND: int := 253_402_300_799

  /** Seconds whose year fits the 32-bit year of `civil_from_days`. */
  const END_OF_YEARS: int := (LAST_DAY + 1) * DAY_SECONDS

  function DateOf(secs: nat): Date {
    CivilFromDays(secs / DAY_SECONDS)
  }

  lemma DateOfIsReal(secs: nat)
    requires secs < END_OF_YEARS
    ensures ValidDate(DateOf(secs)) && DateOf(secs).year >= 1970
    ensures DayNumber(DateOf(secs)) == secs / DAY_SECONDS
  {
    CivilRoundTrip(secs / DAY_SECONDS);
    DaysBeforeMonthTable(1970, 1);
    DayNumberOrders(DateOf(secs), Date(1970, 1, 1));
  }

  function YearOf(secs: nat): nat
    requires secs < END_OF_YEARS
  {
    DateOfIsReal(secs);
    DateOf(secs).year
  }

  /** Hour, minute and second of a day. */
  datatype Clock = Clock(hour: int, min: int, sec: int)

  predicate ValidClock(clock: Clock) {
    0 <= clock.hour < 24 && 0 <= clock.min < 60 && 0 <= clock.sec < 60
  }

  function ClockOf(secs: nat): Clock {
    var rem := secs % DAY_SECONDS;
    Clock(rem / 3600, rem % 3600 / 60, rem % 60)
  }

  function SecondOfDay(clock: Clock): int {
    clock.hour * 3600 + clock.min * 60 + clock.sec
  }

  lemma ClockOfSplits(secs: nat)
    ensures ValidClock(ClockOf(secs)) && SecondOfDay(ClockOf(secs)) == secs % DAY_SECONDS
  {
  }

  function Joined(year: string, month: string, day: string, hour: string, min: string, sec: string): string {
    year + (['-'] + (month + (['-'] + (day + (['T'] + (hour + ([':'] + (min + ([':'] + (sec + ['Z']))))))))))
  }

  function Render(date: Date, clock: Clock): string
    requires date.year >= 0 && ValidDate(date) && ValidClock(clock)
  {
    Joined(Padded(date.year, 4), Padded(date.month, 2), Padded(date.day, 2),
           Padded(clock.hour, 2), Padded(clock.min, 2), Padded(clock.sec, 2))
  }

  function FormatRfc3339(unixSecs: int): string
    requires unixSecs < END_OF_YEARS
  {
    var secs: nat := if unixSecs > 0 then unixSecs else 0;
    DateOfIsReal(secs);
    ClockOfSplits(secs);
    Render(DateOf(secs), ClockOf(secs))
  }

  // ---------- Reading a timestamp back ----------

  function Field(s: string, from: nat, width: nat): Option<nat> {
    if from + width <= |s| && AllDigits(s[from..from + width])
    then Some(Value(s[from..from + width]))
    else None
  }

  /** The 20-character `date-time` profile with a `Z` offset and every field in range. */
  function ParseRfc3339(s: string): Option<int> {
    if |s| == 20 && s[4] == '-' && s[7] == '-' && s[10] == 'T' && s[13] == ':' && s[16] == ':' && s[19] == 'Z'
    then match (Field(s, 0, 4), Field(s, 5, 2), Field(s, 8, 2), Field(s, 11, 2), Field(s, 14, 2), Field(s, 17, 2))
      case (Some(y), Some(m), Some(d), Some(hour), Some(min), Some(sec)) =>
        var date := Date(y, m, d);
        if ValidDate(date) && ValidClock(Clock(hour, min, sec))
        then Some(DayNumber(date) * DAY_SECONDS + SecondOfDay(Clock(hour, min, sec)))
        else None
      case _ => None
    else None
  }

  lemma YearHasFourDigits(secs: nat)
    requires secs < END_OF_YEARS
    ensures YearOf(secs) <= 9999 <==> secs <= LAST_SECOND
  {
    DateOfIsReal(secs);
    DaysBeforeMonthTable(10_000, 1);
    DayNumberOrders(DateOf(secs), Date(10_000, 1, 1));
  }

  lemma TwoDigits(n: nat)
    requires n < 100
    ensures |Padded(n, 2)| == 2
  {
    assert Pow10(2) == 100;
    DigitCount(n, 2);
  }

  /** A rendered timestamp is 20 characters long exactly when the year has four digits. */
  lemma RenderLength(date: Date, clock: Clock)
    requires date.year >= 0 && ValidDate(date) && ValidClock(clock)
    ensures |Render(date, clock)| == 16 + |Padded(date.year, 4)|
    ensures |Padded(date.year, 4)| == 4 <==> date.year <= 9999
    ensures |Padded(date.month, 2)| == |Padded(date.day, 2)| == 2
    ensures |Padded(clock.hour, 2)| == |Padded(clock.min, 2)| == |Padded(clock.sec, 2)| == 2
  {
    assert Pow10(4) == 10_000;
    DigitCount(date.year, 4);
    TwoDigits(date.month);
    TwoDigits(date.day);
    TwoDigits(clock.hour);
    TwoDigits(clock.min);
    TwoDigits(clock.sec);
  }

  /** Where the fields and marks of a timestamp stand when each has its usual width. */
  lemma Layout(year: string, month: string, day: string, hour: string, min: string, sec: string)
    requires |year| == 4 && |month| == |day| == |hour| == |min| == |sec| == 2
    ensures var s := Joined(year, month, day, hour, min, sec);
      && |s| == 20
      && s[0..4] == year && s[5..7] == month && s[8..10] == day
      && s[11..13] == hour && s[14..16] == min && s[17..19] == sec
      && s[4] == '-' && s[7] == '-' && s[10] == 'T' && s[13] == ':' && s[16] == ':' && s[19] == 'Z'
  {
    var s := Joined(year, month, day, hour, min, sec);
    var clock := ['T'] + (hour + ([':'] + (min + ([':'] + (sec + ['Z'])))));
    DatePart(year, month, day, clock);
    ClockPart(hour, min, sec);
    TailSlice(s, 10, clock, 1, 3);
    TailSlice(s, 10, clock, 4, 6);
    TailSlice(s, 10, clock, 7, 9);
  }

  lemma DatePart(year: string, month: string, day: string, rest: string)
    requires |year| == 4 && |month| == |day| == 2
    ensures var s := year + (['-'] + (month + (['-'] + (day + rest))));
      && |s| == 10 + |rest| && s[10..] == rest
      && s[0..4] == year && s[4] == '-' && s[5..7] == month && s[7] == '-' && s[8..10] == day
  {
    var dayOn := ['-'] + (day + rest);
    var monthOn := ['-'] + (month + dayOn);
    var s := year + monthOn;
    assert s[0..4] == year && s[4..] == monthOn;
    NextField(s, 4, monthOn, '-', month, dayOn);
    NextField(s, 7, dayOn, '-', day, rest);
  }

  lemma ClockPart(hour: string, min: string, sec: string)
    requires |hour| == |min| == |sec| == 2
    ensures var s := ['T'] + (hour + ([':'] + (min + ([':'] + (sec + ['Z'])))));
      && |s| == 10 && s[0] == 'T' && s[3] == ':' && s[6] == ':' && s[9] == 'Z'
      && s[1..3] == hour && s[4..6] == min && s[7..9] == sec
  {
    var secOn := [':'] + (sec + ['Z']);
    var minOn := [':'] + (min + secOn);
    var s := ['T'] + (hour + minOn);
    assert s[0..] == s;
    NextField(s, 0, s, 'T', hour, minOn);
    NextField(s, 3, minOn, ':', min, secOn);
    NextField(s, 6, secOn, ':', sec, ['Z']);
    assert s[9..][0] == 'Z';
  }

  /** A mark, a field of two characters, and what follows them. */
  lemma NextField(s: string, k: nat, tail: string, mark: char, field: string, rest: string)
    requires k <= |s| && s[k..] == tail && tail == [mark] + (field + rest) && |field| == 2
    ensures k + 3 <= |s| && s[k] == mark && s[k + 1..k + 3] == field && s[k + 3..] == rest
  {
    TailSlice(s, k, tail, 1, 3);
    TailSlice(s, k, tail, 3, |tail|);
    var n := |tail|;
    assert |s| == k + n && n == 3 + |rest|;
    assert tail[1..3] == field && tail[3..n] == rest;
    assert s[k + 3..] == s[k + 3..k + n];
    assert s[k] == tail[0];
  }

  lemma TailSlice(s: string, k: nat, tail: string, i: nat, j: nat)
    requires k <= |s| && s[k..] == tail && i <= j <= |tail|
    ensures s[k + i..k + j] == tail[i..j]
  {
    forall p | 0 <= p < j - i ensures s[k + i..k + j][p] == tail[i..j][p] {
      assert s[k..][i + p] == s[k + i + p];
    }
  }

  lemma RenderFields(date: Date, clock: Clock)
    requires 0 <= date.year <= 9999 && ValidDate(date) && ValidClock(clock)
    ensures var s := Render(date, clock);
      && |s| == 20
      && s[4] == '-' && s[7] == '-' && s[10] == 'T' && s[13] == ':' && s[16] == ':' && s[19] == 'Z'
      && Field(s, 0, 4) == Some(date.year) && Field(s, 5, 2) == Some(date.month) && Field(s, 8, 2) == Some(date.day)
      && Field(s, 11, 2) == Some(clock.hour) && Field(s, 14, 2) == Some(clock.min) && Field(s, 17, 2) == Some(clock.sec)
  {
    RenderLength(date, clock);
    hide Joined, Padded, ValidDate;
    Layout(Padded(date.year, 4), Padded(date.month, 2), Padded(date.day, 2),
           Padded(clock.hour, 2), Padded(clock.min, 2), Padded(clock.sec, 2));
    PaddedValue(date.year, 4);
    PaddedValue(date.month, 2);
    PaddedValue(date.day, 2);
    PaddedValue(clock.hour, 2);
    PaddedValue(clock.min, 2);
    PaddedValue(clock.sec, 2);
  }

  lemma ParseOfFields(s: string, date: Date, clock: Clock)
    requires date.year >= 0 && ValidDate(date) && ValidClock(clock)
    requires |s| == 20 && s[4] == '-' && s[7] == '-' && s[10] == 'T' && s[13] == ':' && s[16] == ':' && s[19] == 'Z'
    requires Field(s, 0, 4) == Some(date.year) && Field(s, 5, 2) == Some(date.month) && Field(s, 8, 2) == Some(date.day)
    requires Field(s, 11, 2) == Some(clock.hour) && Field(s, 14, 2) == Some(clock.min) && Field(s, 17, 2) == Some(clock.sec)
    ensures ParseRfc3339(s) == Some(DayNumber(date) * DAY_SECONDS + SecondOfDay(clock))
  {
    hide Field, DayNumber, SecondOfDay, DaysInMonth;
  }

  lemma ParseOfRender(date: Date, clock: Clock)
    requires 0 <= date.year && ValidDate(date) && ValidClock(clock)
    ensures ParseRfc3339(Render(date, clock)) ==
      if date.year <= 9999 then Some(DayNumber(date) * DAY_SECONDS + SecondOfDay(clock)) else None
  {
    RenderLength(date, clock);
    if date.year <= 9999 {
      hide *;
      RenderFields(date, clock);
      ParseOfFields(Render(date, clock), date, clock);
    }
  }

  lemma RenderRoundTrip(date: Date, clock: Clock, secs: int)
    requires 0 <= date.year && ValidDate(date) && ValidClock(clock)
    requires secs == DayNumber(date) * DAY_SECONDS + SecondOfDay(clock)
    ensures |Render(date, clock)| == 20 <==> date.year <= 9999
    ensures ParseRfc3339(Render(date, clock)) == Some(secs) <==> date.year <= 9999
  {
    hide *;
    RenderLength(date, clock);
    ParseOfRender(date, clock);
  }

  /**
   Printing and reading back: up to the year 9999, and no further, a timestamp
   is 20 characters that read back as the second they were printed from.
   */
  lemma TimestampRoundTrip(secs: nat)
    requires secs < END_OF_YEARS
    ensures |FormatRfc3339(secs)| == 20 <==> secs <= LAST_SECOND
    ensures ParseRfc3339(FormatRfc3339(secs)) == Some(secs) <==> secs <= LAST_SECOND
  {
    DateOfIsReal(secs);
    ClockOfSplits(secs);
    YearHasFourDigits(secs);
    RenderRoundTrip(DateOf(secs), ClockOf(secs), secs);
  }

  // ---------- Order ----------

  /** One field of the comparison: numerals of equal width, then whatever follows them. */
  lemma LexField(m: nat, n: nat, w: nat, a: string, b: string)
    requires |Padded(m, w)| == |Padded(n, w)|
    ensures LexLess(Padded(m, w) + a, Padded(n, w) + b) <==> m < n || (m == n && LexLess(a, b))
  {
    LexOfDigits(Padded(m, w), Padded(n, w), a, b);
    PaddedValue(m, w);
    PaddedValue(n, w);
  }

  function ClockText(clock: Clock): string
    requires ValidClock(clock)
  {
    Padded(clock.hour, 2) + ([':'] + (Padded(clock.min, 2) + ([':'] + (Padded(clock.sec, 2) + ['Z']))))
  }

  lemma ClockTextOrder(a: Clock, b: Clock)
    requires ValidClock(a) && ValidClock(b)
    ensures LexLess(ClockText(a), ClockText(b)) <==> SecondOfDay(a) < SecondOfDay(b)
  {
    TwoDigits(a.hour); TwoDigits(a.min); TwoDigits(a.sec);
    TwoDigits(b.hour); TwoDigits(b.min); TwoDigits(b.sec);
    var secA, secB := Padded(a.sec, 2) + ['Z'], Padded(b.sec, 2) + ['Z'];
    var minA, minB := Padded(a.min, 2) + ([':'] + secA), Padded(b.min, 2) + ([':'] + secB);
    LexField(a.sec, b.sec, 2, ['Z'], ['Z']);
    LexPrefix([':'], secA, secB);
    LexField(a.min, b.min, 2, [':'] + secA, [':'] + secB);
    LexPrefix([':'], minA, minB);
    LexField(a.hour, b.hour, 2, [':'] + minA, [':'] + minB);
  }

  lemma RenderOrder(d: Date, c: Clock, d': Date, c': Clock)
    requires d.year >= 0 && ValidDate(d) && ValidClock(c)
    requires d'.year >= 0 && ValidDate(d') && ValidClock(c')
    requires |Padded(d.year, 4)| == |Padded(d'.year, 4)|
    ensures LexLess(Render(d, c), Render(d', c'))
      <==> Earlier(d, d') || (d == d' && SecondOfDay(c) < SecondOfDay(c'))
  {
    RenderLength(d, c);
    RenderLength(d', c');
    var clockA, clockB := ClockText(c), ClockText(c');
    var dayA, dayB := Padded(d.day, 2) + (['T'] + clockA), Padded(d'.day, 2) + (['T'] + clockB);
    var monthA, monthB := Padded(d.month, 2) + (['-'] + dayA), Padded(d'.month, 2) + (['-'] + dayB);
    ClockTextOrder(c, c');
    LexPrefix(['T'], clockA, clockB);
    LexField(d.day, d'.day, 2, ['T'] + clockA, ['T'] + clockB);
    LexPrefix(['-'], dayA, dayB);
    LexField(d.month, d'.month, 2, ['-'] + dayA, ['-'] + dayB);
    LexPrefix(['-'], monthA, monthB);
    LexField(d.year, d'.year, 4, ['-'] + monthA, ['-'] + monthB);
  }

  /** The same, with the two moments given as seconds. */
  lemma RenderOrderInSeconds(d: Date, c: Clock, s: int, d': Date, c': Clock, t: int)
    requires d.year >= 0 && ValidDate(d) && ValidClock(c) && s == DayNumber(d) * DAY_SECONDS + SecondOfDay(c)
    requires d'.year >= 0 && ValidDate(d') && ValidClock(c') && t == DayNumber(d') * DAY_SECONDS + SecondOfDay(c')
    requires |Padded(d.year, 4)| == |Padded(d'.year, 4)|
    ensures LexLess(Render(d, c), Render(d', c')) <==> s < t
  {
    RenderOrder(d, c, d', c');
    DayNumberOrders(d, d');
  }

  /** Dictionary order of timestamps is time order, while the printed years are equally wide. */
  lemma TimestampOrder(s: nat, t: nat)
    requires s < END_OF_YEARS && t < END_OF_YEARS
    requires |Padded(YearOf(s), 4)| == |Padded(YearOf(t), 4)|
    ensures LexLess(FormatRfc3339(s), FormatRfc3339(t)) <==> s < t
  {
    hide DateOf, ClockOf, Render;
    DateOfIsReal(s); DateOfIsReal(t);
    ClockOfSplits(s); ClockOfSplits(t);
    RenderOrderInSeconds(DateOf(s), ClockOf(s), s, DateOf(t), ClockOf(t), t);
  }

  // ---------- The calendar window ----------

  /** `clamp_calendar_days`: 7 days by default, never more than 90. */
  function ClampCalendarDays(requested: Option<nat>): nat {
    match requested
    case None => 7
    case Some(n) => if n == 0 then 7 else if n < 90 then n else 90
  }

  /** What the clock can say: 64-bit milliseconds, cut to seconds. */
  const LAST_CLOCK_SECOND: nat := 0xFFFF_FFFF_FFFF_FFFF / 1000

  lemma ClockFits()
    ensures LAST_CLOCK_SECOND + 90 * DAY_SECONDS < END_OF_YEARS
  {
  }

  /** A window of at most 90 days spans at most one New Year. */
  lemma WindowYears(now: nat, end: nat)
    requires now < end <= now + 90 * DAY_SECONDS && end < END_OF_YEARS
    ensures YearOf(now) <= YearOf(end) <= YearOf(now) + 1
  {
    DateOfIsReal(now);
    DateOfIsReal(end);
    NearbyYears(DateOf(now), DateOf(end));
  }

  lemma NearbyYears(a: Date, b: Date)
    requires ValidDate(a) && ValidDate(b) && DayNumber(a) <= DayNumber(b) <= DayNumber(a) + 90
    ensures a.year <= b.year <= a.year + 1
  {
    DayNumberOrders(b, a);
    var newYear, next := Date(a.year + 1, 1, 1), Date(a.year + 2, 1, 1);
    YearLength(a.year + 1);
    DayNumberOrders(a, newYear);
    DayNumberOrders(b, next);
  }

  /** From 1970 on a year is printed without leading zeros. */
  lemma YearText(secs: nat)
    requires secs < END_OF_YEARS
    ensures Padded(YearOf(secs), 4) == ToString(YearOf(secs))
    ensures FormatRfc3339(secs) != [] && FormatRfc3339(secs)[0] == ToString(YearOf(secs))[0]
  {
    DateOfIsReal(secs);
    ClockOfSplits(secs);
    assert Pow10(3) == 1000;
    DigitCount(YearOf(secs), 3);
  }

  function WindowEnd(now: nat, requested: Option<nat>): (end: nat)
    requires now <= LAST_CLOCK_SECOND
    ensures now < end <= now + 90 * DAY_SECONDS && end < END_OF_YEARS
  {
    ClockFits();
    now + ClampCalendarDays(requested) * DAY_SECONDS
  }

  /** `timeMin` and `timeMax` of a calendar listing. */
  function CalendarWindow(now: nat, requested: Option<nat>): (string, string)
    requires now <= LAST_CLOCK_SECOND
  {
    (FormatRfc3339(now), FormatRfc3339(WindowEnd(now, requested)))
  }

  /** Where the next year gains a digit, its numeral starts with 1 and the old one with 9. */
  lemma WiderYearSortsFirst(a: string, b: string, y: nat)
    requires |ToString(y)| != |ToString(y + 1)|
    requires a != [] && b != [] && a[0] == ToString(y)[0] && b[0] == ToString(y + 1)[0]
    ensures !LexLess(a, b)
  {
    LongerSuccessor(y);
  }

  lemma OrderInEqualWidths(s: nat, t: nat)
    requires s < t < END_OF_YEARS && |ToString(YearOf(s))| == |ToString(YearOf(t))|
    ensures LexLess(FormatRfc3339(s), FormatRfc3339(t))
  {
    hide *;
    YearText(s);
    YearText(t);
    TimestampOrder(s, t);
  }

  lemma DisorderInWiderYear(s: nat, t: nat)
    requires s < t < END_OF_YEARS && YearOf(s) <= YearOf(t) <= YearOf(s) + 1
    requires |ToString(YearOf(s))| != |ToString(YearOf(t))|
    ensures !LexLess(FormatRfc3339(s), FormatRfc3339(t))
  {
    hide *;
    YearText(s);
    YearText(t);
    WiderYearSortsFirst(FormatRfc3339(s), FormatRfc3339(t), YearOf(s));
  }

  /**
   `timeMin` sorts below `timeMax` exactly when the two years print equally wide;
   what breaks the order is a New Year inside the window that adds a digit, the
   first of which is 9999 to 10000.
   */
  lemma WindowIsOrdered(now: nat, requested: Option<nat>)
    requires now <= LAST_CLOCK_SECOND
    ensures LexLess(CalendarWindow(now, requested).0, CalendarWindow(now, requested).1)
      <==> |ToString(YearOf(now))| == |ToString(YearOf(WindowEnd(now, requested)))|
  {
    var end := WindowEnd(now, requested);
    WindowYears(now, end);
    if |ToString(YearOf(now))| == |ToString(YearOf(end))| {
      OrderInEqualWidths(now, end);
    } else {
      DisorderInWiderYear(now, end);
    }
  }

  /** Until the year 9999 closes, every window is in order. */
  lemma WindowInFourDigitYears(now: nat, requested: Option<nat>)
    requires now <= LAST_CLOCK_SECOND && WindowEnd(now, requested) <= LAST_SECOND
    ensures LexLess(CalendarWindow(now, requested).0, CalendarWindow(now, requested).1)
  {
    var end := WindowEnd(now, requested);
    FourDigits(now);
    FourDigits(end);
    TimestampOrder(now, end);
  }

  lemma FourDigits(secs: nat)
    requires secs < END_OF_YEARS
    ensures |Padded(YearOf(secs), 4)| == 4 <==> secs <= LAST_SECOND
  {
    YearHasFourDigits(secs);
    assert Pow10(4) == 10_000;
    DigitCount(YearOf(secs), 4);
  }

  /** So a window opened up to the year 9999 is in order exactly when it also ends there. */
  lemma WindowBreaksExactly(now: nat, requested: Option<nat>)
    requires now <= LAST_SECOND
    ensures LexLess(CalendarWindow(now, requested).0, CalendarWindow(now, requested).1)
      <==> WindowEnd(now, requested) <= LAST_SECOND
  {
    var end := WindowEnd(now, requested);
    WindowIsOrdered(now, requested);
    FourDigits(now);
    FourDigits(end);
    YearText(now);
    YearText(end);
  }

  /** A broken window: a listing opened on the last second of the year 9999. */
  lemma WindowBreaksAtYear10000()
    ensures LAST_SECOND <= LAST_CLOCK_SECOND
    ensures !LexLess(CalendarWindow(LAST_SECOND, None).0, CalendarWindow(LAST_SECOND, None).1)
  {
    WindowBreaksExactly(LAST_SECOND, None);
  }

  /** A window is as long as asked for, within a day and ninety; and seven days where nothing is asked for. */
  lemma WindowIsAsAsked(now: nat, requested: Option<nat>)
    requires now <= LAST_CLOCK_SECOND
    ensures WindowEnd(now, requested) - now == 86_400 *
      (match requested case None => 7 case Some(n) => if n == 0 then 7 else if n <= 90 then n else 90)
    ensures CalendarWindow(now, requested) == (FormatRfc3339(now), FormatRfc3339(WindowEnd(now, requested)))
  {
  }

  /** The first second, letter by letter; and a negative one prints as the first. */
  lemma KnownTimestamp(before: int)
    requires before <= 0
    ensures FormatRfc3339(before) == "1970-01-01T00:00:00Z"
  {
    EpochIsFirstOfJanuary1970();
    hide Render, CivilFromDays;
    assert DateOf(0) == Date(1970, 1, 1) && ClockOf(0) == Clock(0, 0, 0);
    EpochText();
  }

  lemma EpochText()
    ensures ValidDate(Date(1970, 1, 1)) && ValidClock(Clock(0, 0, 0))
    ensures Render(Date(1970, 1, 1), Clock(0, 0, 0)) == "1970-01-01T00:00:00Z"
  {
    KnownFields();
    hide Padded;
    JoinedEpoch();
  }

  lemma JoinedEpoch()
    ensures Joined("1970", "01", "01", "00", "00", "00") == "1970-01-01T00:00:00Z"
  {
  }

  lemma KnownFields()
    ensures Padded(1970, 4) == "1970" && Padded(1, 2) == "01" && Padded(0, 2) == "00"
  {
    KnownNumerals();
    hide ToString;
    assert Zeros(1) == "0" && Zeros(0) == "";
  }

  lemma KnownNumerals()
    ensures ToString(0) == "0" && ToString(1) == "1" && ToString(1970) == "1970"
  {
    assert ToString(19) == "19" && ToString(197) == "197";
  }
}
