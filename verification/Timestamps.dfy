/**
 UTC timestamps as fixed-width text (section 5.6 of RFC 3339), in the two forms the service
 stores, and why comparing such texts compares the instants behind them. An instant is a
 number of nanoseconds since the start of year 0 of the proleptic Gregorian calendar.
 */
module Timestamps {
  import opened Text

  type Instant = nat

  /** A UTC instant that RFC 3339 text can name: local times of the years 0 to 9999, offsets of less than a day. */
  type Moment = t: int | 0 <= t + NANOS_PER_DAY && t < YEAR_10000 + NANOS_PER_DAY witness 0

  const NANOS_PER_SECOND: nat := 1_000_000_000
  const NANOS_PER_MILLI: nat := 1_000_000
  const SECONDS_PER_DAY: nat := 86_400
  const NANOS_PER_DAY: nat := 86_400_000_000_000
  const MILLIS_PER_DAY: nat := 86_400_000
  const MAX_YEAR: nat := 9999

  /** The start of year 10000: 3652425 days. */
  const YEAR_10000: Instant := 315_569_520_000_000_000_000

  // ---- the calendar ----

  predicate IsLeap(year: nat) {
    year % 4 == 0 && (year % 100 != 0 || year % 400 == 0)
  }

  function YearLength(year: nat): nat {
    if IsLeap(year) then 366 else 365
  }

  function MonthLength(year: nat, month: nat): nat {
    if month == 2 then (if IsLeap(year) then 29 else 28)
    else if month == 4 || month == 6 || month == 9 || month == 11 then 30
    else 31
  }

  /** Days before the first of January. */
  function YearStart(year: nat): nat {
    if year == 0 then 0 else YearStart(year - 1) + YearLength(year - 1)
  }

  /** Days of the year before the first of a month. */
  function MonthStart(year: nat, month: nat): nat
    requires 1 <= month <= 13
  {
    if month == 1 then 0 else MonthStart(year, month - 1) + MonthLength(year, month - 1)
  }

  datatype Date = Date(year: nat, month: nat, day: nat)

  predicate ValidDate(d: Date) {
    1 <= d.month <= 12 && 1 <= d.day <= MonthLength(d.year, d.month)
  }

  function DayNumber(d: Date): nat
    requires ValidDate(d)
  {
    YearStart(d.year) + MonthStart(d.year, d.month) + d.day - 1
  }

  function FindYear(day: nat, year: nat): (y: nat)
    requires YearStart(year) <= day
    ensures YearStart(y) <= day < YearStart(y + 1)
    decreases day - YearStart(year)
  {
    if day < YearStart(year + 1) then year else FindYear(day, year + 1)
  }

  function FindMonth(year: nat, day: nat, month: nat): (m: nat)
    requires 1 <= month <= 12 && MonthStart(year, month) <= day < MonthStart(year, 13)
    ensures month <= m <= 12 && MonthStart(year, m) <= day < MonthStart(year, m + 1)
    decreases 12 - month
  {
    if month == 12 || day < MonthStart(year, month + 1) then month else FindMonth(year, day, month + 1)
  }

  lemma TwelveMonths(year: nat)
    ensures MonthStart(year, 13) == YearLength(year)
  {
    assert MonthStart(year, 2) == 31;
    assert MonthStart(year, 4) == MonthStart(year, 3) + 31 == MonthStart(year, 2) + MonthLength(year, 2) + 31;
    assert MonthStart(year, 6) == MonthStart(year, 5) + 31 == MonthStart(year, 4) + 61;
    assert MonthStart(year, 8) == MonthStart(year, 7) + 31 == MonthStart(year, 6) + 61;
    assert MonthStart(year, 10) == MonthStart(year, 9) + 30 == MonthStart(year, 8) + 61;
    assert MonthStart(year, 12) == MonthStart(year, 11) + 30 == MonthStart(year, 10) + 61;
  }

  function DateOf(day: nat): (d: Date)
    ensures ValidDate(d) && DayNumber(d) == day
  {
    var year := FindYear(day, 0);
    TwelveMonths(year);
    var rest := day - YearStart(year);
    var month := FindMonth(year, rest, 1);
    Date(year, month, rest - MonthStart(year, month) + 1)
  }

  lemma {:induction false} YearStartMonotone(a: nat, b: nat)
    requires a < b
    ensures YearStart(a + 1) <= YearStart(b)
  {
    if a + 1 < b { YearStartMonotone(a, b - 1); }
  }

  lemma {:induction false} MonthStartMonotone(year: nat, a: nat, b: nat)
    requires 1 <= a < b <= 13
    ensures MonthStart(year, a + 1) <= MonthStart(year, b)
  {
    if a + 1 < b { MonthStartMonotone(year, a, b - 1); }
  }

  /** The number of leap years before a year. */
  function LeapYearsBefore(year: nat): int {
    (year + 3) / 4 - (year + 99) / 100 + (year + 399) / 400
  }

  lemma LeapStep(year: nat)
    ensures LeapYearsBefore(year + 1) == LeapYearsBefore(year) + (if IsLeap(year) then 1 else 0)
  {
    RoundUp4(year);
    RoundUp100(year);
    RoundUp400(year);
    Multiples(year);
  }

  lemma RoundUp4(n: nat)
    ensures (n + 1 + 3) / 4 == (n + 3) / 4 + (if n % 4 == 0 then 1 else 0)
  {
  }

  lemma RoundUp100(n: nat)
    ensures (n + 1 + 99) / 100 == (n + 99) / 100 + (if n % 100 == 0 then 1 else 0)
  {
  }

  lemma RoundUp400(n: nat)
    ensures (n + 1 + 399) / 400 == (n + 399) / 400 + (if n % 400 == 0 then 1 else 0)
  {
  }

  lemma Multiples(n: nat)
    ensures (n % 400 == 0 ==> n % 100 == 0) && (n % 100 == 0 ==> n % 4 == 0)
  {
    if n % 400 == 0 { HundredTimes(4 * (n / 400), n); }
    if n % 100 == 0 { FourTimes(25 * (n / 100), n); }
  }

  lemma HundredTimes(k: nat, n: nat)
    requires n == 100 * k
    ensures n % 100 == 0
  {
  }

  lemma FourTimes(k: nat, n: nat)
    requires n == 4 * k
    ensures n % 4 == 0
  {
  }

  /** The calendar in closed form. */
  lemma {:induction false} YearStartClosed(year: nat)
    ensures YearStart(year) == 365 * year + LeapYearsBefore(year)
  {
    if year > 0 {
      YearStartClosed(year - 1);
      LeapStep(year - 1);
    }
  }

  ghost predicate Earlier(a: Date, b: Date) {
    a.year < b.year || (a.year == b.year && (a.month < b.month || (a.month == b.month && a.day < b.day)))
  }

  /** A date lies within its month, and its month within its year. */
  lemma WithinYear(d: Date)
    requires ValidDate(d)
    ensures YearStart(d.year) + MonthStart(d.year, d.month) <= DayNumber(d)
    ensures DayNumber(d) < YearStart(d.year) + MonthStart(d.year, d.month + 1)
    ensures DayNumber(d) < YearStart(d.year + 1)
  {
    TwelveMonths(d.year);
    if d.month < 12 { MonthStartMonotone(d.year, d.month, 13); }
  }

  lemma EarlierIsSmaller(a: Date, b: Date)
    requires ValidDate(a) && ValidDate(b) && Earlier(a, b)
    ensures DayNumber(a) < DayNumber(b)
  {
    WithinYear(a);
    WithinYear(b);
    if a.year < b.year {
      YearStartMonotone(a.year, b.year);
    } else if a.month < b.month {
      MonthStartMonotone(a.year, a.month, b.month);
    }
  }

  /** Every date has one day number, and the calendar gives the date back. */
  lemma DateRoundTrip(d: Date)
    requires ValidDate(d)
    ensures DateOf(DayNumber(d)) == d
  {
    var e := DateOf(DayNumber(d));
    if Earlier(d, e) {
      EarlierIsSmaller(d, e);
    } else if Earlier(e, d) {
      EarlierIsSmaller(e, d);
    }
  }

  // ---- fixed-width numbers ----

  function Power10(w: nat): nat {
    if w == 0 then 1 else 10 * Power10(w - 1)
  }

  function Digit(n: nat): char
    requires n < 10
  {
    '0' + n as char
  }

  function Pad(n: nat, w: nat): (s: string)
    ensures |s| == w
  {
    if w == 0 then "" else Pad(n / 10, w - 1) + [Digit(n % 10)]
  }

  lemma DigitOrder(m: nat, n: nat)
    requires m < 10 && n < 10
    ensures Less([Digit(m)], [Digit(n)]) <==> m < n
    ensures [Digit(m)] == [Digit(n)] <==> m == n
  {
    assert Digit(m) < Digit(n) <==> m < n;
    assert Digit(n) < Digit(m) <==> n < m;
    assert [Digit(m)][1..] == "" && [Digit(n)][1..] == "";
    assert [Digit(m)][0] == Digit(m) && [Digit(n)][0] == Digit(n);
  }

  /** Numbers of one width compare as their texts do. */
  lemma {:induction false} PadOrder(m: nat, n: nat, w: nat)
    requires m < Power10(w) && n < Power10(w)
    ensures Less(Pad(m, w), Pad(n, w)) <==> m < n
    ensures Pad(m, w) == Pad(n, w) <==> m == n
  {
    if w > 0 {
      PadOrder(m / 10, n / 10, w - 1);
      DigitOrder(m % 10, n % 10);
      LessAppend(Pad(m / 10, w - 1), Pad(n / 10, w - 1), [Digit(m % 10)], [Digit(n % 10)]);
      var p, q := Pad(m, w), Pad(n, w);
      assert p == q <==> p[..w - 1] == q[..w - 1] && p[w - 1..] == q[w - 1..];
    }
  }

  // ---- fields in front of a text ----

  /** A number of a fixed width, the mark that ends it, and what follows. */
  function Chain(value: nat, width: nat, mark: char, rest: string): string {
    Pad(value, width) + ([mark] + rest)
  }

  lemma MarkOrder(mark: char, s: string, t: string)
    ensures Less([mark] + s, [mark] + t) <==> Less(s, t)
  {
    assert ([mark] + s)[1..] == s && ([mark] + t)[1..] == t;
  }

  /** The first field decides; what follows decides between equal fields. */
  lemma ChainOrder(m: nat, n: nat, width: nat, mark: char, s: string, t: string)
    requires m < Power10(width) && n < Power10(width)
    ensures Less(Chain(m, width, mark, s), Chain(n, width, mark, t)) <==> m < n || (m == n && Less(s, t))
  {
    PadOrder(m, n, width);
    LessAppend(Pad(m, width), Pad(n, width), [mark] + s, [mark] + t);
    MarkOrder(mark, s, t);
  }

  // ---- the two forms ----

  function Decimal(n: nat): (s: string)
    ensures s != "" && '0' <= s[0] <= '9'
  {
    if n < 10 then [Digit(n)] else Decimal(n / 10) + [Digit(n % 10)]
  }

  /** Four digits hold the years up to 9999; later years are printed with a plus sign in front. */
  function YearText(year: nat, rest: string): string {
    if year <= MAX_YEAR then Chain(year, 4, '-', rest) else "+" + Decimal(year) + "-" + rest
  }

  function DateText(d: Date, rest: string): string {
    YearText(d.year, Chain(d.month, 2, '-', Chain(d.day, 2, 'T', rest)))
  }

  /** The time of day, given as a number of seconds; the seconds are followed by a mark. */
  function TimeText(s: nat, mark: char, rest: string): string {
    Chain(s / 3600, 2, ':', Chain(s / 60 % 60, 2, ':', Chain(s % 60, 2, mark, rest)))
  }

  function DayOf(t: Instant): nat { t / NANOS_PER_DAY }

  function SecondOfDay(t: Instant): (n: nat)
    ensures n < SECONDS_PER_DAY
  {
    t % NANOS_PER_DAY / NANOS_PER_SECOND
  }

  function MilliOfSecond(t: Instant): (n: nat)
    ensures n < 1000
  {
    t % NANOS_PER_SECOND / NANOS_PER_MILLI
  }

  function YearOf(t: Instant): nat { DateOf(DayOf(t)).year }

  /** `YYYY-MM-DDThh:mm:ssZ`. */
  function FormatSeconds(t: Instant): string {
    DateText(DateOf(DayOf(t)), TimeText(SecondOfDay(t), 'Z', ""))
  }

  /** `YYYY-MM-DDThh:mm:ss.mmmZ`. */
  function FormatMillis(t: Instant): string {
    DateText(DateOf(DayOf(t)), TimeText(SecondOfDay(t), '.', Chain(MilliOfSecond(t), 3, 'Z', "")))
  }

  // ---- before year 0 ----

  /** Four hundred years, after which the calendar repeats: 146097 days. */
  const CYCLE: nat := 12_622_780_800_000_000_000
  const CYCLE_DAYS: nat := 146_097
  const CYCLE_YEARS: nat := 400

  /** How many cycles ahead an instant before year 0 falls into the first 400 years. */
  function Cycles(t: int): (k: nat)
    requires t < 0
    ensures 0 <= t + k * CYCLE < CYCLE && k >= 1
  {
    (CYCLE - 1 - t) / CYCLE
  }

  function Shifted(t: int): (u: Instant)
    requires t < 0
    ensures u < CYCLE
  {
    t + Cycles(t) * CYCLE
  }

  lemma FirstCycle(day: nat, year: nat)
    requires day < CYCLE_DAYS && year == CYCLE_YEARS
    ensures DateOf(day).year < year
  {
    var d := DateOf(day);
    WithinYear(d);
    YearStartClosed(year);
    if d.year > year { YearStartMonotone(year, d.year); }
  }

  /** A year before year 0, given by its distance: a minus sign and at least four digits. */
  function MinusYearText(n: nat, rest: string): string {
    "-" + (if n <= MAX_YEAR then Chain(n, 4, '-', rest) else Decimal(n) + "-" + rest)
  }

  /** The date of an instant before year 0, its year given by the distance. */
  function EarlyDate(t: int): Date
    requires t < 0
  {
    var d := DateOf(DayOf(Shifted(t)));
    FirstCycle(DayOf(Shifted(t)), CYCLE_YEARS);
    Date(CYCLE_YEARS * Cycles(t) - d.year, d.month, d.day)
  }

  function MinusDateText(d: Date, rest: string): string {
    MinusYearText(d.year, Chain(d.month, 2, '-', Chain(d.day, 2, 'T', rest)))
  }

  lemma LastDayNumber(year: nat)
    ensures ValidDate(Date(year, 12, 31)) && DayNumber(Date(year, 12, 31)) + 1 == YearStart(year + 1)
  {
    TwelveMonths(year);
  }

  lemma LastOfYear(year: nat, day: nat)
    requires day + 1 == YearStart(year + 1)
    ensures DateOf(day) == Date(year, 12, 31)
  {
    LastDayNumber(year);
    DateRoundTrip(Date(year, 12, 31));
  }

  lemma LastOfCycle(day: nat, year: nat)
    requires day + 1 == CYCLE_DAYS && year + 1 == CYCLE_YEARS
    ensures DateOf(day) == Date(year, 12, 31)
  {
    YearStartClosed(year + 1);
    LastOfYear(year, day);
  }

  lemma DayBeforeParts(t: int)
    requires -86_400_000_000_000 <= t < 0
    ensures Cycles(t) == 1 && DayOf(Shifted(t)) + 1 == CYCLE_DAYS
  {
  }

  /** The day before year 0 is the last of December of year -1. */
  lemma DayBeforeYearZero(t: int)
    requires -86_400_000_000_000 <= t < 0
    ensures EarlyDate(t) == Date(1, 12, 31)
  {
    DayBeforeParts(t);
    LastOfCycle(DayOf(Shifted(t)), CYCLE_YEARS - 1);
  }

  /** The text with seconds of any instant. */
  function SecondsText(t: int): string {
    if t >= 0 then FormatSeconds(t) else MinusDateText(EarlyDate(t), TimeText(SecondOfDay(Shifted(t)), 'Z', ""))
  }

  /** The text with milliseconds of any instant. */
  function MillisText(t: int): string {
    if t >= 0 then FormatMillis(t)
    else MinusDateText(EarlyDate(t), TimeText(SecondOfDay(Shifted(t)), '.', Chain(MilliOfSecond(Shifted(t)), 3, 'Z', "")))
  }

  lemma MinusStarts(d: Date, rest: string)
    ensures MinusDateText(d, rest) != "" && MinusDateText(d, rest)[0] == '-'
  {
  }

  /** Before year 0 a text starts with a minus sign, which comes before every digit. */
  lemma EarlyStarts(t: int)
    requires t < 0
    ensures SecondsText(t) != "" && SecondsText(t)[0] == '-' && MillisText(t) != "" && MillisText(t)[0] == '-'
  {
    MinusStarts(EarlyDate(t), TimeText(SecondOfDay(Shifted(t)), 'Z', ""));
    MinusStarts(EarlyDate(t), TimeText(SecondOfDay(Shifted(t)), '.', Chain(MilliOfSecond(Shifted(t)), 3, 'Z', "")));
  }

  // ---- years of four digits ----

  lemma DaysBefore(t: Instant, days: nat)
    ensures DayOf(t) < days <==> t < days * NANOS_PER_DAY
  {
  }

  lemma FourDigitDays(day: nat, year: nat)
    requires year == MAX_YEAR + 1
    ensures DateOf(day).year <= MAX_YEAR <==> day < 3_652_425
  {
    var d := DateOf(day);
    WithinYear(d);
    YearStartClosed(year);
    if d.year < year {
      YearStartMonotone(d.year, year);
    } else if d.year > year {
      YearStartMonotone(year, d.year);
    }
  }

  /** Four digits are enough exactly before the start of year 10000. */
  lemma FourDigitYears(t: Instant)
    ensures YearOf(t) <= MAX_YEAR <==> t < YEAR_10000
  {
    DaysBefore(t, 3_652_425);
    FourDigitDays(DayOf(t), MAX_YEAR + 1);
  }

  // ---- text order is time order ----

  lemma Powers()
    ensures Power10(2) == 100 && Power10(3) == 1000 && Power10(4) == 10_000
  {
    assert Power10(1) == 10 && Power10(2) == 100;
  }

  lemma TimeOfDayOrder(s: nat, u: nat)
    requires s < SECONDS_PER_DAY && u < SECONDS_PER_DAY
    ensures s < u <==> s / 3600 < u / 3600
                       || (s / 3600 == u / 3600 && (s / 60 % 60 < u / 60 % 60 || (s / 60 % 60 == u / 60 % 60 && s % 60 < u % 60)))
    ensures s == u <==> s / 3600 == u / 3600 && s / 60 % 60 == u / 60 % 60 && s % 60 == u % 60
  {
    assert s == s / 3600 * 3600 + s / 60 % 60 * 60 + s % 60;
    assert u == u / 3600 * 3600 + u / 60 % 60 * 60 + u % 60;
  }

  lemma TimeTextOrder(s: nat, u: nat, mark: char, x: string, y: string)
    requires s < SECONDS_PER_DAY && u < SECONDS_PER_DAY
    ensures Less(TimeText(s, mark, x), TimeText(u, mark, y)) <==> s < u || (s == u && Less(x, y))
  {
    Powers();
    TimeOfDayOrder(s, u);
    var s1, u1 := Chain(s % 60, 2, mark, x), Chain(u % 60, 2, mark, y);
    ChainOrder(s % 60, u % 60, 2, mark, x, y);
    ChainOrder(s / 60 % 60, u / 60 % 60, 2, ':', s1, u1);
    ChainOrder(s / 3600, u / 3600, 2, ':', Chain(s / 60 % 60, 2, ':', s1), Chain(u / 60 % 60, 2, ':', u1));
  }

  lemma DateTextOrder(d: Date, e: Date, x: string, y: string)
    requires ValidDate(d) && ValidDate(e) && d.year <= MAX_YEAR && e.year <= MAX_YEAR
    ensures Less(DateText(d, x), DateText(e, y)) <==> Earlier(d, e) || (d == e && Less(x, y))
  {
    Powers();
    var d1, e1 := Chain(d.day, 2, 'T', x), Chain(e.day, 2, 'T', y);
    ChainOrder(d.day, e.day, 2, 'T', x, y);
    ChainOrder(d.month, e.month, 2, '-', d1, e1);
    ChainOrder(d.year, e.year, 4, '-', Chain(d.month, 2, '-', d1), Chain(e.month, 2, '-', e1));
  }

  lemma DayOrder(a: nat, b: nat)
    ensures Earlier(DateOf(a), DateOf(b)) <==> a < b
    ensures DateOf(a) == DateOf(b) <==> a == b
  {
    var d, e := DateOf(a), DateOf(b);
    if Earlier(d, e) {
      EarlierIsSmaller(d, e);
    } else if Earlier(e, d) {
      EarlierIsSmaller(e, d);
    }
  }

  lemma InstantParts(t: Instant)
    ensures t / NANOS_PER_SECOND == DayOf(t) * SECONDS_PER_DAY + SecondOfDay(t)
    ensures t / NANOS_PER_MILLI == (t / NANOS_PER_SECOND) * 1000 + MilliOfSecond(t)
  {
  }

  /** With seconds, up to year 9999, texts compare as the instants do, to the second. */
  lemma SecondsTextOrder(a: Instant, b: Instant)
    requires a < YEAR_10000 && b < YEAR_10000
    ensures Less(FormatSeconds(a), FormatSeconds(b)) <==> a / NANOS_PER_SECOND < b / NANOS_PER_SECOND
  {
    FourDigitYears(a);
    FourDigitYears(b);
    InstantParts(a);
    InstantParts(b);
    DayOrder(DayOf(a), DayOf(b));
    TimeTextOrder(SecondOfDay(a), SecondOfDay(b), 'Z', "", "");
    DateTextOrder(DateOf(DayOf(a)), DateOf(DayOf(b)), TimeText(SecondOfDay(a), 'Z', ""), TimeText(SecondOfDay(b), 'Z', ""));
  }

  /** With milliseconds, up to year 9999, texts compare as the instants do, to the millisecond. */
  lemma MillisTextOrder(a: Instant, b: Instant)
    requires a < YEAR_10000 && b < YEAR_10000
    ensures Less(FormatMillis(a), FormatMillis(b)) <==> a / NANOS_PER_MILLI < b / NANOS_PER_MILLI
  {
    FourDigitYears(a);
    FourDigitYears(b);
    InstantParts(a);
    InstantParts(b);
    Powers();
    DayOrder(DayOf(a), DayOf(b));
    var x, y := Chain(MilliOfSecond(a), 3, 'Z', ""), Chain(MilliOfSecond(b), 3, 'Z', "");
    ChainOrder(MilliOfSecond(a), MilliOfSecond(b), 3, 'Z', "", "");
    TimeTextOrder(SecondOfDay(a), SecondOfDay(b), '.', x, y);
    DateTextOrder(DateOf(DayOf(a)), DateOf(DayOf(b)), TimeText(SecondOfDay(a), '.', x), TimeText(SecondOfDay(b), '.', y));
  }

  lemma {:induction false} PadDigits(n: nat, w: nat)
    requires w > 0
    ensures '0' <= Pad(n, w)[0] <= '9'
  {
    if w > 1 { PadDigits(n / 10, w - 1); }
  }

  /** Past year 9999 text order breaks: a later instant's text comes before an earlier one's. */
  lemma LateYearsSortFirst(early: Instant, late: Instant)
    requires early < YEAR_10000 <= late
    ensures Less(FormatMillis(late), FormatMillis(early)) && Less(FormatSeconds(late), FormatSeconds(early))
  {
    FourDigitYears(early);
    FourDigitYears(late);
    PadDigits(YearOf(early), 4);
  }

  /** Before year 0 text order holds against the years up to 9999. */
  lemma EarlyYearsSortFirst(early: int, late: Instant)
    requires early < 0 && late < YEAR_10000
    ensures Less(MillisText(early), FormatMillis(late)) && Less(SecondsText(early), FormatSeconds(late))
  {
    EarlyStarts(early);
    FourDigitYears(late);
    PadDigits(YearOf(late), 4);
  }

  lemma FirstOfYear(year: nat)
    ensures DateOf(YearStart(year)) == Date(year, 1, 1)
  {
    DateRoundTrip(Date(year, 1, 1));
  }

  lemma DaysBeforeYear10000(year: nat)
    requires year == MAX_YEAR + 1
    ensures YearStart(year) == 3_652_425
  {
    YearStartClosed(year);
  }

  lemma TenThousand(n: nat)
    requires n == MAX_YEAR + 1
    ensures Decimal(n) == "10000"
  {
    assert Decimal(1) == "1";
    assert Decimal(10) == "10";
    assert Decimal(100) == "100";
    assert Decimal(1000) == "1000";
  }

  lemma TwoDigits()
    ensures Pad(0, 2) == "00" && Pad(1, 2) == "01" && Pad(30, 2) == "30"
  {
  }

  lemma HalfPastTime(s: nat)
    requires s == 1800
    ensures TimeText(s, 'Z', "") == "00:30:00Z"
  {
    TwoDigits();
  }

  lemma FirstOfJanuary(year: nat, rest: string)
    requires year > MAX_YEAR
    ensures DateText(Date(year, 1, 1), rest) == "+" + Decimal(year) + "-" + ("01-01T" + rest)
  {
    TwoDigits();
  }

  lemma HalfPastMidnight(year: nat)
    requires year > MAX_YEAR
    ensures DateText(Date(year, 1, 1), TimeText(1800, 'Z', "")) == "+" + Decimal(year) + "-01-01T00:30:00Z"
  {
    HalfPastTime(1800);
    FirstOfJanuary(year, "00:30:00Z");
  }

  lemma FormatParts(t: Instant, d: Date, s: nat)
    requires DateOf(DayOf(t)) == d && SecondOfDay(t) == s
    ensures FormatSeconds(t) == DateText(d, TimeText(s, 'Z', ""))
  {
  }

  lemma HalfPastMidnightOf(t: Instant, year: nat)
    requires DayOf(t) == YearStart(year) && SecondOfDay(t) == 1800 && year > MAX_YEAR
    ensures FormatSeconds(t) == "+" + Decimal(year) + "-01-01T00:30:00Z"
  {
    FirstOfYear(year);
    FormatParts(t, Date(year, 1, 1), 1800);
    HalfPastMidnight(year);
  }

  lemma HalfPastMidnightParts(t: Instant)
    requires t == YEAR_10000 + 1_800_000_000_000
    ensures DayOf(t) == 3_652_425 && SecondOfDay(t) == 1800
  {
  }

  lemma Year10000() returns (year: nat)
    ensures YearStart(year) == 3_652_425 && Decimal(year) == "10000" && year > MAX_YEAR
  {
    year := MAX_YEAR + 1;
    DaysBeforeYear10000(year);
    TenThousand(year);
  }

  lemma HalfPastMidnightIn(t: Instant, year: nat)
    requires DayOf(t) == YearStart(year) && SecondOfDay(t) == 1800 && year > MAX_YEAR && Decimal(year) == "10000"
    ensures FormatSeconds(t) == "+10000-01-01T00:30:00Z"
  {
    HalfPastMidnightOf(t, year);
    Joined(Decimal(year));
  }

  lemma Joined(s: string)
    requires s == "10000"
    ensures "+" + s + "-01-01T00:30:00Z" == "+10000-01-01T00:30:00Z"
  {
  }

  /** Half past midnight on the first day of year 10000, as the service prints it. */
  lemma HalfPastMidnightText(t: Instant)
    requires t == YEAR_10000 + 1_800_000_000_000
    ensures FormatSeconds(t) == "+10000-01-01T00:30:00Z"
  {
    HalfPastMidnightParts(t);
    var year := Year10000();
    HalfPastMidnightIn(t, year);
  }

  /** Going back whole days goes back that many times the milliseconds of a day. */
  lemma DaysBack(now: Instant, days: nat)
    requires days * NANOS_PER_DAY <= now
    ensures (now - days * NANOS_PER_DAY) / NANOS_PER_MILLI + days * MILLIS_PER_DAY == now / NANOS_PER_MILLI
  {
    var c := now - days * NANOS_PER_DAY;
    assert now == c + days * MILLIS_PER_DAY * NANOS_PER_MILLI;
  }
}
