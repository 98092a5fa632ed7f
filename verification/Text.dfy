/** The string operations the other models share: trimming, searching, lengths and order. */
module Text {
  import opened Outcomes

  /** A range of characters, both ends included. */
  datatype Range = Range(low: char, high: char)

  /** The characters with the Unicode White_Space property, which trimming removes. */
  const WHITESPACE: seq<Range> :=
    [Range('\U{0009}', '\U{000D}'), Range(' ', ' '), Range('\U{0085}', '\U{0085}'), Range('\U{00A0}', '\U{00A0}'),
     Range('\U{1680}', '\U{1680}'), Range('\U{2000}', '\U{200A}'), Range('\U{2028}', '\U{2029}'),
     Range('\U{202F}', '\U{202F}'), Range('\U{205F}', '\U{205F}'), Range('\U{3000}', '\U{3000}')]

  predicate InRanges(c: char, ranges: seq<Range>) {
    ranges != [] && (ranges[0].low <= c <= ranges[0].high || InRanges(c, ranges[1..]))
  }

  predicate IsWhitespace(c: char) {
    InRanges(c, WHITESPACE)
  }

  function TrimStart(s: string): string {
    if s != "" && IsWhitespace(s[0]) then TrimStart(s[1..]) else s
  }

  function TrimEnd(s: string): string {
    if s != "" && IsWhitespace(s[|s| - 1]) then TrimEnd(s[..|s| - 1]) else s
  }

  function Trim(s: string): string {
    TrimEnd(TrimStart(s))
  }

  predicate Trimmed(s: string) {
    s == "" || (!IsWhitespace(s[0]) && !IsWhitespace(s[|s| - 1]))
  }

  lemma {:induction false} TrimStartHead(s: string)
    ensures TrimStart(s) == "" || !IsWhitespace(TrimStart(s)[0])
  {
    if s != "" && IsWhitespace(s[0]) { TrimStartHead(s[1..]); }
  }

  lemma {:induction false} TrimEndEnds(s: string)
    ensures TrimEnd(s) <= s
    ensures TrimEnd(s) == "" || !IsWhitespace(TrimEnd(s)[|TrimEnd(s)| - 1])
  {
    if s != "" && IsWhitespace(s[|s| - 1]) { TrimEndEnds(s[..|s| - 1]); }
  }

  /** A trimmed string has no white space at either end, so trimming it again changes nothing. */
  lemma TrimIsTrimmed(s: string)
    ensures Trimmed(Trim(s)) && Trim(Trim(s)) == Trim(s)
  {
    TrimStartHead(s);
    TrimEndEnds(TrimStart(s));
  }

  predicate AllWhite(s: string) {
    forall i :: 0 <= i < |s| ==> IsWhitespace(s[i])
  }

  lemma {:induction false} TrimStartDrops(s: string) returns (before: string)
    ensures AllWhite(before) && s == before + TrimStart(s)
  {
    before := "";
    if s != "" && IsWhitespace(s[0]) {
      before := TrimStartDrops(s[1..]);
      before := [s[0]] + before;
    }
  }

  lemma {:induction false} TrimEndDrops(s: string) returns (after: string)
    ensures AllWhite(after) && s == TrimEnd(s) + after
  {
    after := "";
    if s != "" && IsWhitespace(s[|s| - 1]) {
      after := TrimEndDrops(s[..|s| - 1]);
      after := after + [s[|s| - 1]];
    }
  }

  lemma {:induction false} TrimStartOf(before: string, r: string)
    requires AllWhite(before) && (r == "" || !IsWhitespace(r[0]))
    ensures TrimStart(before + r) == r
  {
    if before == "" {
      assert before + r == r;
    } else {
      assert (before + r)[1..] == before[1..] + r;
      TrimStartOf(before[1..], r);
    }
  }

  lemma {:induction false} TrimEndOf(r: string, after: string)
    requires AllWhite(after) && (r == "" || !IsWhitespace(r[|r| - 1]))
    ensures TrimEnd(r + after) == r
  {
    if after == "" {
      assert r + after == r;
    } else {
      assert (r + after)[..|r + after| - 1] == r + after[..|after| - 1];
      TrimEndOf(r, after[..|after| - 1]);
    }
  }

  /**
   What is trimmed off is white space at the two ends, and nothing else: a string is its trimmed
   form between two runs of white space, and whatever trimmed form it has in this way is that one.
   */
  lemma TrimExact(s: string, r: string)
    ensures Trim(s) == r <==> Trimmed(r) && exists before, after :: AllWhite(before) && AllWhite(after) && s == before + r + after
  {
    TrimIsTrimmed(s);
    var before := TrimStartDrops(s);
    var after := TrimEndDrops(TrimStart(s));
    assert s == before + Trim(s) + after;
    forall b: string, a: string | AllWhite(b) && AllWhite(a) && s == b + r + a && Trimmed(r) ensures Trim(s) == r {
      TrimBetween(b, r, a);
    }
  }

  lemma TrimBetween(before: string, r: string, after: string)
    requires AllWhite(before) && AllWhite(after) && Trimmed(r)
    ensures Trim(before + r + after) == r
  {
    assert before + r + after == before + (r + after);
    if r == "" {
      assert before + (r + after) == (before + after) + "";
      TrimStartOf(before + after, "");
    } else {
      TrimStartOf(before, r + after);
      TrimEndOf(r, after);
    }
  }

  lemma {:induction false} OutsideRanges(c: char, ranges: seq<Range>)
    requires forall i :: 0 <= i < |ranges| ==> c < ranges[i].low || ranges[i].high < c
    ensures !InRanges(c, ranges)
  {
    if ranges != [] { OutsideRanges(c, ranges[1..]); }
  }

  predicate Printable(c: char) {
    '!' <= c <= '~'
  }

  /** A string whose ends are printable ASCII is trimmed. */
  lemma PrintableEnds(s: string)
    requires s != "" && Printable(s[0]) && Printable(s[|s| - 1])
    ensures Trimmed(s) && Trim(s) == s
  {
    OutsideRanges(s[0], WHITESPACE);
    OutsideRanges(s[|s| - 1], WHITESPACE);
  }

  // ---- searching ----

  predicate OccursAt(s: string, p: string, k: int) {
    0 <= k <= |s| && p <= s[k..]
  }

  /** Where the pattern first occurs. */
  function Find(s: string, p: string): (r: Option<nat>)
    ensures r.Some? ==> OccursAt(s, p, r.value) && forall k :: 0 <= k < r.value ==> !OccursAt(s, p, k)
    ensures r.None? ==> forall k :: !OccursAt(s, p, k)
  {
    FindFrom(s, p, 0)
  }

  function FindFrom(s: string, p: string, from: nat): (r: Option<nat>)
    requires from <= |s| && forall k :: 0 <= k < from ==> !OccursAt(s, p, k)
    ensures r.Some? ==> OccursAt(s, p, r.value) && forall k :: 0 <= k < r.value ==> !OccursAt(s, p, k)
    ensures r.None? ==> forall k :: !OccursAt(s, p, k)
    decreases |s| - from
  {
    if OccursAt(s, p, from) then Some(from) else if from == |s| then None else FindFrom(s, p, from + 1)
  }

  predicate Contains(s: string, p: string) {
    Find(s, p).Some?
  }

  /** The first occurrence is determined by where the pattern occurs. */
  lemma FoundAt(s: string, p: string, i: nat)
    requires OccursAt(s, p, i) && forall k :: 0 <= k < i ==> !OccursAt(s, p, k)
    ensures Find(s, p) == Some(i)
  {
  }

  // ---- lengths and order ----

  function Utf8Width(c: char): nat {
    if c < '\U{0080}' then 1 else if c < '\U{0800}' then 2 else if c < '\U{10000}' then 3 else 4
  }

  /** The length in bytes, as opposed to the number of characters. */
  function Utf8Len(s: string): nat {
    if s == "" then 0 else Utf8Width(s[0]) + Utf8Len(s[1..])
  }

  /** The bytes of a text are those of its parts; one character takes one to four. */
  lemma {:induction false} Utf8LenOfParts(a: string, b: string)
    ensures Utf8Len(a + b) == Utf8Len(a) + Utf8Len(b)
  {
    if a == "" {
      assert a + b == b;
    } else {
      assert (a + b)[1..] == a[1..] + b;
      Utf8LenOfParts(a[1..], b);
    }
  }

  /** The order on strings: by the first character that differs, a prefix before its extensions. */
  predicate Less(a: string, b: string) {
    b != "" && (a == "" || a[0] < b[0] || (a[0] == b[0] && Less(a[1..], b[1..])))
  }

  predicate LessEq(a: string, b: string) {
    !Less(b, a)
  }

  lemma {:induction false} LessTotal(a: string, b: string)
    ensures a == b || Less(a, b) || Less(b, a)
    ensures !(Less(a, b) && Less(b, a)) && !Less(a, a)
  {
    if a != "" && b != "" {
      if a[0] == b[0] {
        LessTotal(a[1..], b[1..]);
        assert a == [a[0]] + a[1..] && b == [b[0]] + b[1..];
      }
      LessTotal(a[1..], a[1..]);
    } else if a != "" {
      LessTotal(a[1..], a[1..]);
    }
  }

  lemma LessIsLessEq(a: string, b: string)
    requires Less(a, b)
    ensures LessEq(a, b)
  {
    LessTotal(a, b);
  }

  lemma {:induction false} LessTransitive(a: string, b: string, c: string)
    requires Less(a, b) && LessEq(b, c)
    ensures Less(a, c)
  {
    if a != "" && c != "" && a[0] == b[0] == c[0] { LessTransitive(a[1..], b[1..], c[1..]); }
  }

  lemma LessEqTransitive(a: string, b: string, c: string)
    requires LessEq(a, b) && LessEq(b, c)
    ensures LessEq(a, c)
  {
    LessTotal(a, b);
    LessTotal(b, c);
    if Less(c, a) && a != b {
      LessIsLessEq(a, b);
      LessTransitive(c, a, b);
    }
  }

  /** Of two texts with fronts of one length, the fronts decide; what follows decides between equal fronts. */
  lemma {:induction false} LessAppend(a: string, b: string, s: string, t: string)
    requires |a| == |b|
    ensures Less(a + s, b + t) <==> Less(a, b) || (a == b && Less(s, t))
  {
    if a == "" {
      assert a + s == s && b + t == t;
    } else {
      var a', b' := a[1..], b[1..];
      LessAppend(a', b', s, t);
      assert (a + s)[1..] == a' + s && (b + t)[1..] == b' + t;
      assert a == [a[0]] + a' && b == [b[0]] + b';
    }
  }
}
