/** The texts of instants field by field: what stands where, and that it gives the instant back. */
module TimestampFields {
  import opened Text
  import opened Timestamps

  // ---- the calendar in known numbers ----

  /** Days before each month of a year that is not a leap year. */
  const DAYS_BEFORE_MONTH: seq<nat> := [0, 31, 59, 90, 120, 151, 181, 212, 243, 273, 304, 334]

  lemma {:induction false} MonthStarts(year: nat, month: nat)
    requires 1 <= month <= 12
    ensures MonthStart(year, month) == DAYS_BEFORE_MONTH[month - 1] + (if month > 2 && IsLeap(year) then 1 else 0)
  {
    if month > 1 { MonthStarts(year, month - 1); }
  }

  /** The first of January 1970 is day 719528. */
  lemma UnixEpoch(d: Date)
    requires d == Date(1970, 1, 1)
    ensures ValidDate(d) && DayNumber(d) == 719_528
  {
    YearStartClosed(d.year);
  }

  // ---- numbers in a text ----

  function DigitValue(c: char): nat {
    if '0' <= c <= '9' then (c - '0') as nat else 0
  }

  /** The number a text of digits stands for. */
  function Value(s: string): nat {
    if s == "" then 0 else 10 * Value(s[..|s| - 1]) + DigitValue(s[|s| - 1])
  }

  lemma {:induction false} PadValue(n: nat, w: nat)
    requires n < Power10(w)
    ensures Value(Pad(n, w)) == n
  {
    if w > 0 {
      PadValue(n / 10, w - 1);
      assert Pad(n, w)[..w - 1] == Pad(n / 10, w - 1);
    }
  }

  /** A field, the mark after it, and what follows, from where the field starts. */
  ghost predicate FieldAt(s: string, from: nat, width: nat, value: nat, mark: char) {
    from + width < |s| && Value(s[from..from + width]) == value && s[from + width] == mark
  }

  lemma ChainField(value: nat, width: nat, mark: char, rest: string)
    requires value < Power10(width)
    ensures var s := Chain(value, width, mark, rest);
            |s| == width + 1 + |rest| && FieldAt(s, 0, width, value, mark) && s[width + 1..] == rest
  {
    PadValue(value, width);
    assert Chain(value, width, mark, rest)[0..width] == Pad(value, width);
  }

  /** What holds of the rest of a text holds further on in the whole. */
  lemma FieldLater(s: string, skip: nat, from: nat, width: nat, value: nat, mark: char)
    requires skip <= |s| && FieldAt(s[skip..], from, width, value, mark)
    ensures FieldAt(s, skip + from, width, value, mark)
  {
    assert s[skip..][from..from + width] == s[skip + from..skip + from + width];
  }

  /** `hh:mm:ss` and the mark after it. */
  ghost predicate TimeAt(s: string, from: nat, second: nat, mark: char) {
    && FieldAt(s, from, 2, second / 3600, ':') && FieldAt(s, from + 3, 2, second / 60 % 60, ':')
    && FieldAt(s, from + 6, 2, second % 60, mark)
  }

  lemma TimeFields(second: nat, mark: char, rest: string)
    requires second < SECONDS_PER_DAY
    ensures var s := TimeText(second, mark, rest);
            |s| == 9 + |rest| && TimeAt(s, 0, second, mark) && s[9..] == rest
  {
    Powers();
    var c := Chain(second % 60, 2, mark, rest);
    var b := Chain(second / 60 % 60, 2, ':', c);
    var a := TimeText(second, mark, rest);
    ChainField(second % 60, 2, mark, rest);
    ChainField(second / 60 % 60, 2, ':', c);
    ChainField(second / 3600, 2, ':', b);
    FieldLater(b, 3, 0, 2, second % 60, mark);
    FieldLater(a, 3, 0, 2, second / 60 % 60, ':');
    FieldLater(a, 3, 3, 2, second % 60, mark);
    assert b[3..] == c && a[3..] == b && c[3..] == rest;
    assert a[9..] == rest;
  }

  /** `YYYY-MM-DDT`. */
  ghost predicate DateAt(s: string, d: Date) {
    FieldAt(s, 0, 4, d.year, '-') && FieldAt(s, 5, 2, d.month, '-') && FieldAt(s, 8, 2, d.day, 'T')
  }

  lemma SmallFields(d: Date)
    requires ValidDate(d)
    ensures d.month < 100 && d.day < 100
  {
  }

  lemma DateFields(d: Date, rest: string)
    requires ValidDate(d) && d.year <= MAX_YEAR
    ensures var s := DateText(d, rest);
            |s| == 11 + |rest| && DateAt(s, d) && s[11..] == rest
  {
    Powers();
    SmallFields(d);
    var c := Chain(d.day, 2, 'T', rest);
    var b := Chain(d.month, 2, '-', c);
    var a := DateText(d, rest);
    ChainField(d.day, 2, 'T', rest);
    ChainField(d.month, 2, '-', c);
    ChainField(d.year, 4, '-', b);
    FieldLater(b, 3, 0, 2, d.day, 'T');
    FieldLater(a, 5, 0, 2, d.month, '-');
    FieldLater(a, 5, 3, 2, d.day, 'T');
    assert a[11..] == rest;
  }

  lemma TimeLater(s: string, skip: nat, from: nat, second: nat, mark: char)
    requires skip <= |s| && TimeAt(s[skip..], from, second, mark)
    ensures TimeAt(s, skip + from, second, mark)
  {
    FieldLater(s, skip, from, 2, second / 3600, ':');
    FieldLater(s, skip, from + 3, 2, second / 60 % 60, ':');
    FieldLater(s, skip, from + 6, 2, second % 60, mark);
  }

  lemma MillisFields(t: Instant)
    requires t < YEAR_10000
    ensures var s := FormatMillis(t);
            && |s| == 24 && DateAt(s, DateOf(DayOf(t))) && TimeAt(s, 11, SecondOfDay(t), '.')
            && FieldAt(s, 20, 3, MilliOfSecond(t), 'Z')
  {
    Powers();
    FourDigitYears(t);
    var ms := Chain(MilliOfSecond(t), 3, 'Z', "");
    var time := TimeText(SecondOfDay(t), '.', ms);
    var s := FormatMillis(t);
    ChainField(MilliOfSecond(t), 3, 'Z', "");
    TimeFields(SecondOfDay(t), '.', ms);
    DateFields(DateOf(DayOf(t)), time);
    TimeLater(s, 11, 0, SecondOfDay(t), '.');
    FieldLater(time, 9, 0, 3, MilliOfSecond(t), 'Z');
    FieldLater(s, 11, 9, 3, MilliOfSecond(t), 'Z');
  }

  lemma SecondsFields(t: Instant)
    requires t < YEAR_10000
    ensures var s := FormatSeconds(t);
            |s| == 20 && DateAt(s, DateOf(DayOf(t))) && TimeAt(s, 11, SecondOfDay(t), 'Z')
  {
    FourDigitYears(t);
    var time := TimeText(SecondOfDay(t), 'Z', "");
    TimeFields(SecondOfDay(t), 'Z', "");
    DateFields(DateOf(DayOf(t)), time);
    TimeLater(FormatSeconds(t), 11, 0, SecondOfDay(t), 'Z');
  }

  // ---- the instant back from the text ----

  /** The date in the first ten characters. */
  function DateIn(s: string): Date
    requires |s| >= 10
  {
    Date(Value(s[0..4]), Value(s[5..7]), Value(s[8..10]))
  }

  /** The second of the day in `hh:mm:ss` from the twelfth character on. */
  function SecondIn(s: string): nat
    requires |s| >= 19
  {
    Value(s[11..13]) * 3600 + Value(s[14..16]) * 60 + Value(s[17..19])
  }

  lemma SecondParts(n: nat)
    ensures n / 3600 * 3600 + n / 60 % 60 * 60 + n % 60 == n
  {
    assert n / 3600 == n / 60 / 60;
  }

  /**
   Up to year 9999 a text with milliseconds has the form `YYYY-MM-DDThh:mm:ss.mmmZ`, and its fields
   give the instant back, to the millisecond.
   */
  lemma MillisTextReads(t: Instant)
    requires t < YEAR_10000
    ensures var s := FormatMillis(t);
            && |s| == 24 && s[4] == s[7] == '-' && s[10] == 'T' && s[13] == s[16] == ':' && s[19] == '.' && s[23] == 'Z'
            && ValidDate(DateIn(s))
            && (DayNumber(DateIn(s)) * SECONDS_PER_DAY + SecondIn(s)) * 1000 + Value(s[20..23]) == t / NANOS_PER_MILLI
  {
    MillisFields(t);
    InstantParts(t);
    SecondParts(SecondOfDay(t));
  }

  /** The same for `YYYY-MM-DDThh:mm:ssZ`, to the second. */
  lemma SecondsTextReads(t: Instant)
    requires t < YEAR_10000
    ensures var s := FormatSeconds(t);
            && |s| == 20 && s[4] == s[7] == '-' && s[10] == 'T' && s[13] == s[16] == ':' && s[19] == 'Z'
            && ValidDate(DateIn(s))
            && DayNumber(DateIn(s)) * SECONDS_PER_DAY + SecondIn(s) == t / NANOS_PER_SECOND
  {
    SecondsFields(t);
    InstantParts(t);
    SecondParts(SecondOfDay(t));
  }
}
