/**
 Timestamps that arrive as RFC 3339 text (section 5.6 of RFC 3339) and leave as UTC text with
 milliseconds. A local time in the years 0 to 9999, with an offset of less than a day, may fall
 on the day before year 0 or on the first day of year 10000; chrono prints those two with a
 sign, and the grammar has no sign.
 */
module Moments {
  import opened Outcomes
  import opened Text
  import opened Timestamps

  predicate FourDigitYear(t: Moment) {
    0 <= t < YEAR_10000
  }

  // ---- parsing ----

  type Parser = string -> Option<Moment>

  predicate IsDigit(c: char) {
    '0' <= c <= '9'
  }

  predicate StartsWithYear(s: string) {
    |s| >= 4 && forall i :: 0 <= i < 4 ==> IsDigit(s[i])
  }

  /** The instant without what is below a millisecond. */
  function WholeMillis(t: Instant): (r: Instant)
    ensures r <= t
  {
    t / NANOS_PER_MILLI * NANOS_PER_MILLI
  }

  /**
   What is used of the parser: the grammar starts with a year of four digits, and it reads the
   millisecond form of every instant in those years as what the form says.
   */
  ghost predicate ParserOk(parse: Parser) {
    && (forall s :: parse(s).Some? ==> StartsWithYear(s))
    && (forall t: Instant :: t < YEAR_10000 ==> parse(FormatMillis(t)) == Some(WholeMillis(t)))
  }

  // ---- the ends of a text ----

  predicate EndsInZ(s: string) {
    s != "" && s[|s| - 1] == 'Z'
  }

  lemma ChainEnds(value: nat, width: nat, mark: char, rest: string)
    requires EndsInZ([mark] + rest)
    ensures EndsInZ(Chain(value, width, mark, rest))
  {
  }

  lemma TimeTextEnds(s: nat, mark: char, rest: string)
    requires EndsInZ([mark] + rest)
    ensures EndsInZ(TimeText(s, mark, rest))
  {
    ChainEnds(s % 60, 2, mark, rest);
    ChainEnds(s / 60 % 60, 2, ':', Chain(s % 60, 2, mark, rest));
    ChainEnds(s / 3600, 2, ':', Chain(s / 60 % 60, 2, ':', Chain(s % 60, 2, mark, rest)));
  }

  lemma DateTextEnds(d: Date, rest: string)
    requires EndsInZ(rest)
    ensures EndsInZ(DateText(d, rest))
  {
    ChainEnds(d.day, 2, 'T', rest);
    ChainEnds(d.month, 2, '-', Chain(d.day, 2, 'T', rest));
    if d.year <= MAX_YEAR { ChainEnds(d.year, 4, '-', Chain(d.month, 2, '-', Chain(d.day, 2, 'T', rest))); }
  }

  lemma {:induction false} PadIsDigits(n: nat, w: nat)
    ensures forall i :: 0 <= i < w ==> IsDigit(Pad(n, w)[i])
  {
    if w > 0 { PadIsDigits(n / 10, w - 1); }
  }

  /** A date starts with its year of four digits, or with a sign. */
  lemma DateTextStarts(d: Date, rest: string)
    ensures d.year <= MAX_YEAR ==> StartsWithYear(DateText(d, rest))
    ensures d.year > MAX_YEAR ==> DateText(d, rest) != "" && DateText(d, rest)[0] == '+'
  {
    PadIsDigits(d.year, 4);
  }

  lemma FormatEnds(t: Instant)
    ensures EndsInZ(FormatMillis(t))
  {
    var x := Chain(MilliOfSecond(t), 3, 'Z', "");
    ChainEnds(MilliOfSecond(t), 3, 'Z', "");
    TimeTextEnds(SecondOfDay(t), '.', x);
    DateTextEnds(DateOf(DayOf(t)), TimeText(SecondOfDay(t), '.', x));
  }

  lemma FormatStarts(t: Instant)
    ensures t < YEAR_10000 ==> StartsWithYear(FormatMillis(t))
    ensures t >= YEAR_10000 ==> FormatMillis(t) != "" && FormatMillis(t)[0] == '+'
  {
    FourDigitYears(t);
    DateTextStarts(DateOf(DayOf(t)), TimeText(SecondOfDay(t), '.', Chain(MilliOfSecond(t), 3, 'Z', "")));
  }

  lemma MinusYearEnds(n: nat, rest: string)
    requires EndsInZ(rest)
    ensures EndsInZ(MinusYearText(n, rest))
  {
    if n <= MAX_YEAR { ChainEnds(n, 4, '-', rest); }
  }

  lemma MinusDateEnds(d: Date, rest: string)
    requires EndsInZ(rest)
    ensures EndsInZ(MinusDateText(d, rest))
  {
    ChainEnds(d.day, 2, 'T', rest);
    ChainEnds(d.month, 2, '-', Chain(d.day, 2, 'T', rest));
    MinusYearEnds(d.year, Chain(d.month, 2, '-', Chain(d.day, 2, 'T', rest)));
  }

  lemma EarlyEnds(t: int)
    requires t < 0
    ensures EndsInZ(MillisText(t))
  {
    var u := Shifted(t);
    var x := Chain(MilliOfSecond(u), 3, 'Z', "");
    ChainEnds(MilliOfSecond(u), 3, 'Z', "");
    TimeTextEnds(SecondOfDay(u), '.', x);
    MinusDateEnds(EarlyDate(t), TimeText(SecondOfDay(u), '.', x));
  }

  /** How a rendered text starts and ends. */
  lemma RenderShape(t: Moment)
    ensures EndsInZ(MillisText(t)) && Printable(MillisText(t)[0])
    ensures StartsWithYear(MillisText(t)) <==> FourDigitYear(t)
  {
    if t >= 0 {
      FormatEnds(t);
      FormatStarts(t);
    } else {
      EarlyEnds(t);
      EarlyStarts(t);
    }
  }

  lemma RenderTrimmed(t: Moment)
    ensures Trim(MillisText(t)) == MillisText(t)
  {
    RenderShape(t);
    PrintableEnds(MillisText(t));
  }

  // ---- reading back ----

  /** A quotient and a remainder are determined by the sum they make. */
  lemma Quotient(t: nat, d: nat, q: nat, r: nat)
    requires d > 0 && t == q * d + r && r < d
    ensures t / d == q && t % d == r
  {
    if t / d < q {
      Less1(t / d, q, d);
    } else if t / d > q {
      Less1(q, t / d, d);
    }
  }

  lemma Less1(a: nat, b: nat, d: nat)
    requires a < b
    ensures a * d + d <= b * d
  {
    assert (a + 1) * d <= b * d;
  }

  /** The parts of an instant, from its number of milliseconds. */
  lemma PartsFromMillis(t: Instant, m: nat, r: nat)
    requires t == m * NANOS_PER_MILLI + r && r < NANOS_PER_MILLI
    ensures DayOf(t) == m / MILLIS_PER_DAY
    ensures SecondOfDay(t) == m % MILLIS_PER_DAY / 1000
    ensures MilliOfSecond(t) == m % 1000
  {
    var day, rest := m / MILLIS_PER_DAY, m % MILLIS_PER_DAY;
    Quotient(t, NANOS_PER_DAY, day, rest * NANOS_PER_MILLI + r);
    Quotient(rest * NANOS_PER_MILLI + r, NANOS_PER_SECOND, rest / 1000, rest % 1000 * NANOS_PER_MILLI + r);
    Quotient(t, NANOS_PER_SECOND, m / 1000, m % 1000 * NANOS_PER_MILLI + r);
    Quotient(m % 1000 * NANOS_PER_MILLI + r, NANOS_PER_MILLI, m % 1000, r);
  }

  lemma WholeMillisParts(t: Instant)
    ensures DayOf(WholeMillis(t)) == DayOf(t) && SecondOfDay(WholeMillis(t)) == SecondOfDay(t)
    ensures MilliOfSecond(WholeMillis(t)) == MilliOfSecond(t) && WholeMillis(t) <= t
  {
    var m := t / NANOS_PER_MILLI;
    PartsFromMillis(t, m, t % NANOS_PER_MILLI);
    PartsFromMillis(WholeMillis(t), m, 0);
  }

  /** What is below a millisecond is not printed. */
  lemma WholeMillisText(t: Instant)
    ensures FormatMillis(WholeMillis(t)) == FormatMillis(t)
  {
    WholeMillisParts(t);
  }

  /** A rendered timestamp is read back, and then printed the same, exactly in the years of four digits. */
  lemma RenderReadBack(parse: Parser, t: Moment)
    requires ParserOk(parse)
    ensures if FourDigitYear(t) then
              WholeMillis(t) < YEAR_10000 && parse(MillisText(t)) == Some(WholeMillis(t)) && MillisText(WholeMillis(t)) == MillisText(t)
            else parse(MillisText(t)).None?
  {
    RenderShape(t);
    if FourDigitYear(t) {
      WholeMillisParts(t);
      WholeMillisText(t);
    }
  }

  // ---- a parser with both edges ----

  /** An hour before year 0 and half an hour after year 9999, as an accepted text can give them. */
  const BEFORE_YEAR_0: Moment := -3_600_000_000_000
  const AFTER_YEAR_9999: Moment := YEAR_10000 + 1_800_000_000_000
  const BEFORE_YEAR_0_TEXT: string := "0000-01-01T00:00:00+01:00"
  const AFTER_YEAR_9999_TEXT: string := "9999-12-31T23:30:00-01:00"

  ghost predicate Prints(t: Instant, s: string) {
    t < YEAR_10000 && FormatMillis(t) == s
  }

  ghost function EdgeParser(s: string): Option<Moment> {
    if s == BEFORE_YEAR_0_TEXT then Some(BEFORE_YEAR_0)
    else if s == AFTER_YEAR_9999_TEXT then Some(AFTER_YEAR_9999)
    else if t: Instant :| Prints(t, s) then Some(WholeMillis(t))
    else None
  }

  lemma SameTextSameMillis(a: Instant, b: Instant)
    requires a < YEAR_10000 && b < YEAR_10000 && FormatMillis(a) == FormatMillis(b)
    ensures WholeMillis(a) == WholeMillis(b)
  {
    MillisTextOrder(a, b);
    MillisTextOrder(b, a);
    LessTotal(FormatMillis(a), FormatMillis(a));
  }

  lemma Picked(t: Instant, s: string) returns (u: Instant)
    requires Prints(t, s) && s != BEFORE_YEAR_0_TEXT && s != AFTER_YEAR_9999_TEXT
    ensures Prints(u, s) && EdgeParser(s) == Some(WholeMillis(u))
  {
    u :| Prints(u, s) && EdgeParser(s) == Some(WholeMillis(u));
  }

  lemma NotAnEdge(t: Instant, s: string)
    requires Prints(t, s)
    ensures s != BEFORE_YEAR_0_TEXT && s != AFTER_YEAR_9999_TEXT
  {
    FormatEnds(t);
    EdgeTexts();
  }

  lemma EdgeReads(t: Instant, s: string)
    requires Prints(t, s)
    ensures EdgeParser(s) == Some(WholeMillis(t))
  {
    NotAnEdge(t, s);
    var u := Picked(t, s);
    SameTextSameMillis(t, u);
  }

  lemma EdgeTexts()
    ensures StartsWithYear(BEFORE_YEAR_0_TEXT) && !EndsInZ(BEFORE_YEAR_0_TEXT)
    ensures StartsWithYear(AFTER_YEAR_9999_TEXT) && !EndsInZ(AFTER_YEAR_9999_TEXT)
  {
  }

  lemma EdgeTextsTrimmed()
    ensures Trim(BEFORE_YEAR_0_TEXT) == BEFORE_YEAR_0_TEXT && Trim(AFTER_YEAR_9999_TEXT) == AFTER_YEAR_9999_TEXT
  {
    PrintableEnds(BEFORE_YEAR_0_TEXT);
    PrintableEnds(AFTER_YEAR_9999_TEXT);
  }

  lemma EdgeStarts(s: string)
    requires EdgeParser(s).Some?
    ensures StartsWithYear(s)
  {
    EdgeTexts();
    if s != BEFORE_YEAR_0_TEXT && s != AFTER_YEAR_9999_TEXT {
      var t: Instant :| Prints(t, s);
      FormatStarts(t);
    }
  }

  /** The assumptions about the parser can be met, with both edges among the texts it accepts. */
  lemma EdgeParserOk()
    ensures ParserOk(EdgeParser)
    ensures EdgeParser(BEFORE_YEAR_0_TEXT) == Some(BEFORE_YEAR_0) && EdgeParser(AFTER_YEAR_9999_TEXT) == Some(AFTER_YEAR_9999)
  {
    forall s | EdgeParser(s).Some? ensures StartsWithYear(s) { EdgeStarts(s); }
    forall t: Instant | t < YEAR_10000 ensures EdgeParser(FormatMillis(t)) == Some(WholeMillis(t)) { EdgeReads(t, FormatMillis(t)); }
    assert BEFORE_YEAR_0_TEXT[0] != AFTER_YEAR_9999_TEXT[0];
  }
}
