/**
 Meeting invitations in iCalendar form: TEXT escaping as five successive whole-string
 replacements, and the assembly of the content lines.
 */
module Calendar {
  import opened Outcomes
  import T = Text

  // ---- whole-string replacement ----

  /** Replaces every occurrence of one character. */
  function ReplaceChar(s: string, c: char, sub: string): string {
    if s == "" then "" else (if s[0] == c then sub else [s[0]]) + ReplaceChar(s[1..], c, sub)
  }

  /** Replaces every CR LF pair, scanning from the left. */
  function ReplaceCrLf(s: string, sub: string): string {
    if s == "" then ""
    else if |s| >= 2 && s[0] == '\r' && s[1] == '\n' then sub + ReplaceCrLf(s[2..], sub)
    else [s[0]] + ReplaceCrLf(s[1..], sub)
  }

  function ReplaceEither(s: string, c: char, d: char, sub: string): string {
    if s == "" then "" else (if s[0] == c || s[0] == d then sub else [s[0]]) + ReplaceEither(s[1..], c, d, sub)
  }

  function EscapeText(value: string): string {
    var s1 := ReplaceChar(value, '\\', "\\\\");
    var s2 := ReplaceChar(s1, ';', "\\;");
    var s3 := ReplaceChar(s2, ',', "\\,");
    var s4 := ReplaceCrLf(s3, "\\n");
    ReplaceEither(s4, '\n', '\r', "\\n")
  }

  // ---- the same in one pass ----

  /** Section 3.3.11 of RFC 5545: backslash, semicolon and comma are escaped, line ends become \n. */
  function EscapeOnce(s: string): string {
    if s == "" then ""
    else if |s| >= 2 && s[0] == '\r' && s[1] == '\n' then "\\n" + EscapeOnce(s[2..])
    else if s[0] == '\r' || s[0] == '\n' then "\\n" + EscapeOnce(s[1..])
    else if s[0] == '\\' || s[0] == ';' || s[0] == ',' then ['\\', s[0]] + EscapeOnce(s[1..])
    else [s[0]] + EscapeOnce(s[1..])
  }

  /** Reading a TEXT value back, by the same section; nothing follows a trailing backslash. */
  function Unescape(s: string): Option<string> {
    if s == "" then Some("")
    else if s[0] == '\\' then
      if |s| == 1 then None
      else
        var rest := Unescape(s[2..]);
        if rest.None? then None
        else if s[1] == 'n' || s[1] == 'N' then Some("\n" + rest.value)
        else if s[1] == '\\' || s[1] == ';' || s[1] == ',' then Some([s[1]] + rest.value)
        else None
    else
      var rest := Unescape(s[1..]);
      if rest.None? then None else Some([s[0]] + rest.value)
  }

  /** CR LF pairs and lone CRs become LF. */
  function NormalizeNewlines(s: string): string {
    if s == "" then ""
    else if |s| >= 2 && s[0] == '\r' && s[1] == '\n' then "\n" + NormalizeNewlines(s[2..])
    else if s[0] == '\r' then "\n" + NormalizeNewlines(s[1..])
    else [s[0]] + NormalizeNewlines(s[1..])
  }

  predicate NoLineBreak(s: string) {
    forall i :: 0 <= i < |s| ==> s[i] != '\r' && s[i] != '\n'
  }

  // ---- the five passes are one pass ----

  lemma {:induction false} ReplaceCharAppend(s: string, t: string, c: char, sub: string)
    ensures ReplaceChar(s + t, c, sub) == ReplaceChar(s, c, sub) + ReplaceChar(t, c, sub)
  {
    if s == "" {
      assert s + t == t;
    } else {
      assert (s + t)[1..] == s[1..] + t;
      ReplaceCharAppend(s[1..], t, c, sub);
    }
  }

  /** The first three passes, which work character by character. */
  function EscapeChars(s: string): string {
    if s == "" then ""
    else (if s[0] == '\\' || s[0] == ';' || s[0] == ',' then ['\\', s[0]] else [s[0]]) + EscapeChars(s[1..])
  }

  function ThreePasses(s: string): string {
    ReplaceChar(ReplaceChar(ReplaceChar(s, '\\', "\\\\"), ';', "\\;"), ',', "\\,")
  }

  lemma ReplaceCharOne(x: char, c: char, sub: string)
    ensures ReplaceChar([x], c, sub) == (if x == c then sub else [x])
  {
    assert ReplaceChar([x], c, sub) == (if x == c then sub else [x]) + ReplaceChar([x][1..], c, sub);
  }

  lemma ReplaceCharTwo(x: char, y: char, c: char, sub: string)
    ensures ReplaceChar([x, y], c, sub) == (if x == c then sub else [x]) + (if y == c then sub else [y])
  {
    ReplaceCharOne(x, c, sub);
    ReplaceCharOne(y, c, sub);
    ReplaceCharAppend([x], [y], c, sub);
    assert [x] + [y] == [x, y];
  }

  lemma ThreePassesOne(c: char)
    ensures ThreePasses([c]) == (if c == '\\' || c == ';' || c == ',' then ['\\', c] else [c])
  {
    ReplaceCharOne(c, '\\', "\\\\");
    ReplaceCharOne(c, ';', "\\;");
    ReplaceCharOne(c, ',', "\\,");
    ReplaceCharTwo('\\', '\\', ';', "\\;");
    ReplaceCharTwo('\\', '\\', ',', "\\,");
    ReplaceCharTwo('\\', ';', ',', "\\,");
  }

  lemma {:induction false} ThreePassesAreOne(s: string)
    ensures ThreePasses(s) == EscapeChars(s)
  {
    if s != "" {
      var h, t := [s[0]], s[1..];
      assert s == h + t;
      ReplaceCharAppend(h, t, '\\', "\\\\");
      var h1, t1 := ReplaceChar(h, '\\', "\\\\"), ReplaceChar(t, '\\', "\\\\");
      ReplaceCharAppend(h1, t1, ';', "\\;");
      var h2, t2 := ReplaceChar(h1, ';', "\\;"), ReplaceChar(t1, ';', "\\;");
      ReplaceCharAppend(h2, t2, ',', "\\,");
      ThreePassesOne(s[0]);
      ThreePassesAreOne(t);
    }
  }

  /** The two newline passes after a character that is not a CR act on the rest alone. */
  function NewlinePasses(s: string): string {
    ReplaceEither(ReplaceCrLf(s, "\\n"), '\n', '\r', "\\n")
  }

  lemma {:induction false} ReplaceEitherAppend(s: string, t: string, c: char, d: char, sub: string)
    ensures ReplaceEither(s + t, c, d, sub) == ReplaceEither(s, c, d, sub) + ReplaceEither(t, c, d, sub)
  {
    if s == "" {
      assert s + t == t;
    } else {
      assert (s + t)[1..] == s[1..] + t;
      ReplaceEitherAppend(s[1..], t, c, d, sub);
    }
  }

  lemma NewlinePlain(c: char, t: string)
    requires c != '\r' || t == "" || t[0] != '\n'
    ensures NewlinePasses([c] + t) == (if c == '\r' || c == '\n' then "\\n" else [c]) + NewlinePasses(t)
  {
    var s := [c] + t;
    assert s[1..] == t;
    var r := ReplaceCrLf(t, "\\n");
    assert ReplaceCrLf(s, "\\n") == [c] + r;
    assert ([c] + r)[1..] == r;
  }

  lemma NewlinePair(t: string)
    ensures NewlinePasses("\r\n" + t) == "\\n" + NewlinePasses(t)
  {
    var s := "\r\n" + t;
    assert s[2..] == t;
    var r := ReplaceCrLf(t, "\\n");
    assert ReplaceCrLf(s, "\\n") == "\\n" + r;
    ReplaceEitherAppend("\\n", r, '\n', '\r', "\\n");
    assert "\\n"[1..] == "n";
    assert ReplaceEither("\\n", '\n', '\r', "\\n") == "\\n";
  }

  lemma EscapeCharsHead(s: string)
    ensures (EscapeChars(s) == "") == (s == "")
    ensures s != "" ==> ((EscapeChars(s)[0] == '\n') == (s[0] == '\n'))
  {
  }

  lemma EscapedPair(t: string)
    ensures EscapeChars("\r\n" + t) == "\r\n" + EscapeChars(t) && EscapeOnce("\r\n" + t) == "\\n" + EscapeOnce(t)
  {
    var s := "\r\n" + t;
    assert s[2..] == t && s[1..] == "\n" + t && ("\n" + t)[1..] == t;
    assert EscapeChars("\n" + t) == "\n" + EscapeChars(t);
    assert "\r" + ("\n" + EscapeChars(t)) == "\r\n" + EscapeChars(t);
  }

  predicate Special(c: char) {
    c == '\\' || c == ';' || c == ','
  }

  function EscapedChar(c: char): string {
    if Special(c) then ['\\', c] else [c]
  }

  lemma EscapeCharsOne(c: char, t: string)
    ensures EscapeChars([c] + t) == EscapedChar(c) + EscapeChars(t)
  {
    assert ([c] + t)[1..] == t;
  }

  lemma EscapeOnceOne(c: char, t: string)
    requires !(c == '\r' && t != "" && t[0] == '\n')
    ensures EscapeOnce([c] + t) == (if c == '\r' || c == '\n' then "\\n" else EscapedChar(c)) + EscapeOnce(t)
  {
    assert ([c] + t)[1..] == t;
  }

  lemma TwoInFront(a: char, b: char, t: string)
    ensures [a, b] + t == [a] + ([b] + t)
  {
  }

  lemma NewlinesOfOne(c: char, t: string)
    requires !(c == '\r' && t != "" && t[0] == '\n') && NewlinePasses(EscapeChars(t)) == EscapeOnce(t)
    ensures NewlinePasses(EscapeChars([c] + t)) == EscapeOnce([c] + t)
  {
    EscapeCharsOne(c, t);
    EscapeOnceOne(c, t);
    EscapeCharsHead(t);
    NewlinePlain(c, EscapeChars(t));
    if Special(c) {
      TwoInFront('\\', c, EscapeChars(t));
      NewlinePlain('\\', [c] + EscapeChars(t));
      TwoInFront('\\', c, EscapeOnce(t));
    }
  }

  lemma {:induction false} NewlinesOfEscaped(s: string)
    ensures NewlinePasses(EscapeChars(s)) == EscapeOnce(s)
    decreases |s|
  {
    if |s| >= 2 && s[0] == '\r' && s[1] == '\n' {
      NewlinesOfEscaped(s[2..]);
      assert s == "\r\n" + s[2..];
      EscapedPair(s[2..]);
      NewlinePair(EscapeChars(s[2..]));
    } else if s != "" {
      NewlinesOfEscaped(s[1..]);
      assert s == [s[0]] + s[1..];
      NewlinesOfOne(s[0], s[1..]);
    }
  }

  /** Five successive replacements do what one left-to-right pass does. */
  lemma FivePassesAreOne(s: string)
    ensures EscapeText(s) == EscapeOnce(s)
  {
    ThreePassesAreOne(s);
    NewlinesOfEscaped(s);
  }

  // ---- what escaping means ----

  lemma {:induction false} UnescapeEscapeOnce(s: string)
    ensures Unescape(EscapeOnce(s)) == Some(NormalizeNewlines(s))
    decreases |s|
  {
    if s != "" {
      if |s| >= 2 && s[0] == '\r' && s[1] == '\n' {
        var e := EscapeOnce(s[2..]);
        UnescapeEscapeOnce(s[2..]);
        assert ("\\n" + e)[2..] == e;
      } else {
        var e := EscapeOnce(s[1..]);
        UnescapeEscapeOnce(s[1..]);
        assert (['\\', s[0]] + e)[2..] == e && ([s[0]] + e)[1..] == e && ("\\n" + e)[2..] == e;
      }
    }
  }

  /** Reading an escaped text gives the text back with its line ends as LF. */
  lemma EscapeRoundTrip(s: string)
    ensures Unescape(EscapeText(s)) == Some(NormalizeNewlines(s))
  {
    FivePassesAreOne(s);
    UnescapeEscapeOnce(s);
  }

  lemma {:induction false} EscapeOnceNoBreak(s: string)
    ensures NoLineBreak(EscapeOnce(s))
    decreases |s|
  {
    if s != "" {
      if |s| >= 2 && s[0] == '\r' && s[1] == '\n' { EscapeOnceNoBreak(s[2..]); } else { EscapeOnceNoBreak(s[1..]); }
    }
  }

  /** An escaped text holds no raw line end: it stays on its content line. */
  lemma EscapedHasNoLineBreak(s: string)
    ensures NoLineBreak(EscapeText(s))
  {
    FivePassesAreOne(s);
    EscapeOnceNoBreak(s);
  }

  lemma {:induction false} EscapeNormalized(s: string)
    ensures EscapeOnce(NormalizeNewlines(s)) == EscapeOnce(s)
    decreases |s|
  {
    if s != "" {
      var pair := |s| >= 2 && s[0] == '\r' && s[1] == '\n';
      var rest := if pair then s[2..] else s[1..];
      EscapeNormalized(rest);
      var head := if pair || s[0] == '\r' then '\n' else s[0];
      assert NormalizeNewlines(s) == [head] + NormalizeNewlines(rest);
      EscapeHead(head, NormalizeNewlines(rest));
    }
  }

  lemma EscapeHead(c: char, rest: string)
    requires c != '\r'
    ensures EscapeOnce([c] + rest) ==
            (if c == '\n' then "\\n" else if c == '\\' || c == ';' || c == ',' then ['\\', c] else [c]) + EscapeOnce(rest)
  {
    assert ([c] + rest)[1..] == rest;
  }

  /** Texts have the same escaped form exactly when they differ at most in how their lines end. */
  lemma EscapeInjective(s: string, t: string)
    ensures EscapeText(s) == EscapeText(t) <==> NormalizeNewlines(s) == NormalizeNewlines(t)
  {
    EscapeRoundTrip(s);
    EscapeRoundTrip(t);
    FivePassesAreOne(s);
    FivePassesAreOne(t);
    EscapeNormalized(s);
    EscapeNormalized(t);
  }

  // ---- the document ----

  datatype Attendee = Attendee(email: Option<string>, role: string, displayName: Option<string>)

  /** A meeting with its times already formatted; a time that is not RFC 3339 is absent. */
  datatype Meeting = Meeting(
    id: string,
    joinSlug: string,
    title: string,
    description: Option<string>,
    startsAt: Option<string>,
    endsAt: Option<string>,
    cancelled: bool,
    attendees: seq<Attendee>
  )

  datatype InviteError = InvalidStart | InvalidEnd

  function TrimSlashes(url: string): string {
    if url != "" && url[|url| - 1] == '/' then TrimSlashes(url[..|url| - 1]) else url
  }

  function JoinUrl(publicUrl: string, slug: string): string {
    var url := TrimSlashes(publicUrl);
    if url == "" then "/join/" + slug else url + "/join/" + slug
  }

  function DescriptionText(m: Meeting, url: string): string {
    if m.description.Some? then m.description.value + "\n\nJoin: " + url else "Join: " + url
  }

  function EscapeParameter(value: string): string {
    "\"" + ReplaceEither(ReplaceChar(ReplaceChar(value, '\\', "\\\\"), '\"', "\\\""), '\r', '\n', " ") + "\""
  }

  function RoleName(role: string): string {
    if role == "host" then "CHAIR" else if role == "optional" then "OPT-PARTICIPANT" else "REQ-PARTICIPANT"
  }

  function AttendeeLine(a: Attendee): seq<string> {
    if a.email.None? then []
    else
      var name := if a.displayName.Some? then a.displayName.value else a.email.value;
      ["ATTENDEE;ROLE=" + RoleName(a.role) + ";CN=" + EscapeParameter(name) + ":mailto:" + a.email.value]
  }

  function AttendeeLines(attendees: seq<Attendee>): seq<string> {
    if attendees == [] then []
    else AttendeeLines(attendees[..|attendees| - 1]) + AttendeeLine(attendees[|attendees| - 1])
  }

  const PREAMBLE: seq<string> :=
    ["BEGIN:VCALENDAR", "VERSION:2.0", "PRODID:-//OpenCord//OpenCord Calendar//EN", "CALSCALE:GREGORIAN",
     "METHOD:PUBLISH", "BEGIN:VEVENT"]
  const END_LINES: seq<string> := ["END:VEVENT", "END:VCALENDAR"]
  const SUMMARY_LINE: nat := 10
  const DESCRIPTION_LINE: nat := 11

  /** The name and the value of each content line that depends on the meeting. */
  function Properties(m: Meeting, url: string, stamp: string): seq<(string, string)>
    requires m.startsAt.Some? && m.endsAt.Some?
  {
    [("UID:", m.id + "@opencord"),
     ("DTSTAMP:", stamp),
     ("DTSTART:", m.startsAt.value),
     ("DTEND:", m.endsAt.value),
     ("SUMMARY:", EscapeText(m.title)),
     ("DESCRIPTION:", EscapeText(DescriptionText(m, url))),
     ("LOCATION:", EscapeText(url)),
     ("URL:", url),
     ("STATUS:", if m.cancelled then "CANCELLED" else "CONFIRMED")]
  }

  function PropertyLines(ps: seq<(string, string)>): (ls: seq<string>)
    ensures |ls| == |ps|
    ensures forall i :: 0 <= i < |ls| ==> ls[i] == ps[i].0 + ps[i].1
  {
    seq(|ps|, i requires 0 <= i < |ps| => ps[i].0 + ps[i].1)
  }

  function HeadLines(m: Meeting, url: string, stamp: string): seq<string>
    requires m.startsAt.Some? && m.endsAt.Some?
  {
    PREAMBLE + PropertyLines(Properties(m, url, stamp))
  }

  function InviteLines(m: Meeting, url: string, stamp: string): seq<string>
    requires m.startsAt.Some? && m.endsAt.Some?
  {
    HeadLines(m, url, stamp) + AttendeeLines(m.attendees) + END_LINES
  }

  function JoinLines(lines: seq<string>): string {
    if lines == [] then ""
    else if |lines| == 1 then lines[0]
    else lines[0] + "\r\n" + JoinLines(lines[1..])
  }

  method MeetingInviteIcs(m: Meeting, publicUrl: string, stamp: string) returns (r: Result<string, InviteError>)
    ensures m.startsAt.None? ==> r == Err(InvalidStart)
    ensures m.startsAt.Some? && m.endsAt.None? ==> r == Err(InvalidEnd)
    ensures m.startsAt.Some? && m.endsAt.Some? ==>
              r == Ok(JoinLines(InviteLines(m, JoinUrl(publicUrl, m.joinSlug), stamp)) + "\r\n")
  {
    var url := JoinUrl(publicUrl, m.joinSlug);
    if m.startsAt.None? {
      return Err(InvalidStart);
    }
    if m.endsAt.None? {
      return Err(InvalidEnd);
    }
    var lines := HeadLines(m, url, stamp);
    for i := 0 to |m.attendees|
      invariant lines == HeadLines(m, url, stamp) + AttendeeLines(m.attendees[..i])
    {
      assert m.attendees[..i + 1][..i] == m.attendees[..i];
      lines := lines + AttendeeLine(m.attendees[i]);
    }
    assert m.attendees[..|m.attendees|] == m.attendees;
    lines := lines + END_LINES;
    return Ok(JoinLines(lines) + "\r\n");
  }

  // ---- reading the document back ----

  /** Where the first CR LF starts, or the length of the string. */
  function CrLfIndex(s: string): (i: nat)
    ensures i <= |s|
    ensures i < |s| ==> i + 1 < |s| && s[i] == '\r' && s[i + 1] == '\n'
    ensures forall k :: 0 <= k < i && k + 1 < |s| ==> !(s[k] == '\r' && s[k + 1] == '\n')
  {
    if |s| < 2 then |s| else if s[0] == '\r' && s[1] == '\n' then 0 else 1 + CrLfIndex(s[1..])
  }

  /** The content lines of a document: section 3.1 of RFC 5545 ends each with CR LF. */
  function ContentLines(s: string): seq<string> {
    var i := CrLfIndex(s);
    if i == |s| then (if s == "" then [] else [s]) else [s[..i]] + ContentLines(s[i + 2..])
  }

  predicate HasCrLf(s: string) {
    CrLfIndex(s) < |s|
  }

  lemma CrLfAfterLine(l: string, rest: string)
    requires !HasCrLf(l)
    ensures CrLfIndex(l + "\r\n" + rest) == |l|
  {
    var s := l + "\r\n" + rest;
    assert s[|l|] == '\r' && s[|l| + 1] == '\n';
    forall k | 0 <= k < |l| ensures !(s[k] == '\r' && s[k + 1] == '\n') {
      if k + 1 < |l| { assert s[k] == l[k] && s[k + 1] == l[k + 1]; }
    }
  }

  lemma FirstLine(l: string, rest: string)
    requires !HasCrLf(l)
    ensures ContentLines(l + "\r\n" + rest) == [l] + ContentLines(rest)
  {
    CrLfAfterLine(l, rest);
    var s := l + "\r\n" + rest;
    assert s[..|l|] == l && s[|l| + 2..] == rest;
  }

  lemma JoinedRest(l: string, joined: string)
    ensures (l + "\r\n" + joined) + "\r\n" == l + "\r\n" + (joined + "\r\n")
    ensures l + "\r\n" == l + "\r\n" + ""
  {
  }

  lemma {:induction false} LinesReadBack(lines: seq<string>)
    requires lines != [] && forall i :: 0 <= i < |lines| ==> !HasCrLf(lines[i])
    ensures ContentLines(JoinLines(lines) + "\r\n") == lines
  {
    var l, tail := lines[0], lines[1..];
    assert lines == [l] + tail;
    if |lines| == 1 {
      JoinedRest(l, "");
      FirstLine(l, "");
    } else {
      LinesReadBack(tail);
      JoinedRest(l, JoinLines(tail));
      FirstLine(l, JoinLines(tail) + "\r\n");
    }
  }

  lemma {:induction false} NoContentLineHasCrLf(s: string)
    ensures forall i :: 0 <= i < |ContentLines(s)| ==> !HasCrLf(ContentLines(s)[i])
    decreases |s|
  {
    var i := CrLfIndex(s);
    if i < |s| {
      NoContentLineHasCrLf(s[i + 2..]);
      var h := s[..i];
      assert forall k :: 0 <= k < |h| ==> h[k] == s[k];
      assert !HasCrLf(h);
    }
  }

  /** Written lines are read back as written exactly when none of them contains a CR LF. */
  lemma LinesReadBackIff(lines: seq<string>)
    requires lines != []
    ensures ContentLines(JoinLines(lines) + "\r\n") == lines <==> forall i :: 0 <= i < |lines| ==> !HasCrLf(lines[i])
  {
    if forall i :: 0 <= i < |lines| ==> !HasCrLf(lines[i]) {
      LinesReadBack(lines);
    } else {
      NoContentLineHasCrLf(JoinLines(lines) + "\r\n");
    }
  }

  lemma {:induction false} EitherRemoved(s: string)
    ensures NoLineBreak(ReplaceEither(s, '\r', '\n', " "))
  {
    if s != "" { EitherRemoved(s[1..]); }
  }

  lemma ParameterSingle(name: string)
    ensures NoLineBreak(EscapeParameter(name))
  {
    EitherRemoved(ReplaceChar(ReplaceChar(name, '\\', "\\\\"), '\"', "\\\""));
  }

  predicate CrLfAt(s: string, k: int) {
    0 <= k && k + 1 < |s| && s[k] == '\r' && s[k + 1] == '\n'
  }

  lemma HasCrLfIff(s: string)
    ensures HasCrLf(s) <==> exists k :: CrLfAt(s, k)
  {
    if HasCrLf(s) { assert CrLfAt(s, CrLfIndex(s)); }
  }

  /** Text without line breaks before and after a field does not make or hide a CR LF. */
  lemma Wrapped(a: string, f: string, b: string)
    requires NoLineBreak(a) && NoLineBreak(b)
    ensures HasCrLf(a + (f + b)) <==> HasCrLf(f)
  {
    var s := a + (f + b);
    HasCrLfIff(s);
    HasCrLfIff(f);
    assert forall i :: 0 <= i < |f| ==> s[|a| + i] == f[i];
    if k :| CrLfAt(f, k) { assert CrLfAt(s, |a| + k); }
    if k :| CrLfAt(s, k) {
      assert |a| <= k && k + 1 < |a| + |f|;
      assert CrLfAt(f, k - |a|);
    }
  }

  lemma AfterName(a: string, f: string)
    requires NoLineBreak(a)
    ensures HasCrLf(a + f) <==> HasCrLf(f)
  {
    Wrapped(a, f, "");
    assert f + "" == f;
  }

  lemma NoBreakNoCrLf(s: string)
    requires NoLineBreak(s)
    ensures !HasCrLf(s)
  {
  }

  lemma ConcatSingle(a: string, b: string)
    requires NoLineBreak(a) && NoLineBreak(b)
    ensures NoLineBreak(a + b)
  {
  }

  ghost predicate OneEach(lines: seq<string>) {
    forall i :: 0 <= i < |lines| ==> !HasCrLf(lines[i])
  }

  lemma OneEachConcat(a: seq<string>, b: seq<string>)
    ensures OneEach(a + b) <==> OneEach(a) && OneEach(b)
  {
    assert forall i :: 0 <= i < |a| ==> (a + b)[i] == a[i];
    assert forall i :: 0 <= i < |b| ==> (a + b)[|a| + i] == b[i];
  }

  lemma PreambleTexts()
    ensures NoLineBreak("BEGIN:VCALENDAR") && NoLineBreak("VERSION:2.0") && NoLineBreak("PRODID:-//OpenCord//OpenCord Calendar//EN")
    ensures NoLineBreak("CALSCALE:GREGORIAN") && NoLineBreak("METHOD:PUBLISH") && NoLineBreak("BEGIN:VEVENT")
  {
  }

  lemma SixLines(lines: seq<string>)
    requires |lines| == 6
    requires NoLineBreak(lines[0]) && NoLineBreak(lines[1]) && NoLineBreak(lines[2]) && NoLineBreak(lines[3])
    requires NoLineBreak(lines[4]) && NoLineBreak(lines[5])
    ensures forall i :: 0 <= i < |lines| ==> NoLineBreak(lines[i])
  {
  }

  lemma PreambleSingle()
    ensures forall i :: 0 <= i < |PREAMBLE| ==> NoLineBreak(PREAMBLE[i])
  {
    PreambleTexts();
    SixLines(PREAMBLE);
  }

  lemma EndSingle()
    ensures forall i :: 0 <= i < |END_LINES| ==> NoLineBreak(END_LINES[i])
  {
  }

  lemma SingleLines(lines: seq<string>)
    requires forall i :: 0 <= i < |lines| ==> NoLineBreak(lines[i])
    ensures OneEach(lines)
  {
    forall i | 0 <= i < |lines| ensures !HasCrLf(lines[i]) { NoBreakNoCrLf(lines[i]); }
  }

  lemma FixedLines()
    ensures OneEach(PREAMBLE) && OneEach(END_LINES)
  {
    PreambleSingle();
    EndSingle();
    SingleLines(PREAMBLE);
    SingleLines(END_LINES);
  }

  lemma NamesSingle()
    ensures NoLineBreak("UID:") && NoLineBreak("@opencord") && NoLineBreak("DTSTAMP:") && NoLineBreak("DTSTART:")
    ensures NoLineBreak("DTEND:") && NoLineBreak("SUMMARY:") && NoLineBreak("DESCRIPTION:") && NoLineBreak("LOCATION:")
    ensures NoLineBreak("URL:") && NoLineBreak("STATUS:") && NoLineBreak("CANCELLED") && NoLineBreak("CONFIRMED")
  {
  }

  lemma EscapedLine(name: string, text: string)
    requires NoLineBreak(name)
    ensures !HasCrLf(name + EscapeText(text))
  {
    EscapedHasNoLineBreak(text);
    ConcatSingle(name, EscapeText(text));
    NoBreakNoCrLf(name + EscapeText(text));
  }

  /** The lines of the event properties, one by one. */
  lemma PropertyLinesOne(m: Meeting, url: string, stamp: string)
    requires m.startsAt.Some? && m.endsAt.Some?
    ensures OneEach(PropertyLines(Properties(m, url, stamp))) <==>
            !HasCrLf(m.id) && !HasCrLf(stamp) && !HasCrLf(m.startsAt.value) && !HasCrLf(m.endsAt.value) && !HasCrLf(url)
  {
    NamesSingle();
    var ps := Properties(m, url, stamp);
    var ls := PropertyLines(ps);
    Wrapped("UID:", m.id, "@opencord");
    AfterName("DTSTAMP:", stamp);
    AfterName("DTSTART:", m.startsAt.value);
    AfterName("DTEND:", m.endsAt.value);
    EscapedLine("SUMMARY:", m.title);
    EscapedLine("DESCRIPTION:", DescriptionText(m, url));
    EscapedLine("LOCATION:", url);
    AfterName("URL:", url);
    ConcatSingle("STATUS:", ps[8].1);
    NoBreakNoCrLf(ls[8]);
    NineLines(ls);
  }

  lemma NineLines(ls: seq<string>)
    requires |ls| == 9
    ensures OneEach(ls) <==>
            && !HasCrLf(ls[0]) && !HasCrLf(ls[1]) && !HasCrLf(ls[2]) && !HasCrLf(ls[3]) && !HasCrLf(ls[4])
            && !HasCrLf(ls[5]) && !HasCrLf(ls[6]) && !HasCrLf(ls[7]) && !HasCrLf(ls[8])
  {
  }

  ghost predicate PlainAddress(a: Attendee) {
    a.email.Some? ==> !HasCrLf(a.email.value)
  }

  /** What stands in front of the address. */
  function AttendeeFront(a: Attendee, name: string): string {
    "ATTENDEE;ROLE=" + RoleName(a.role) + ";CN=" + EscapeParameter(name) + ":mailto:"
  }

  lemma AttendeeFrontSingle(a: Attendee, name: string)
    ensures NoLineBreak(AttendeeFront(a, name))
  {
    ParameterSingle(name);
    ConcatSingle("ATTENDEE;ROLE=", RoleName(a.role));
    ConcatSingle("ATTENDEE;ROLE=" + RoleName(a.role), ";CN=");
    ConcatSingle("ATTENDEE;ROLE=" + RoleName(a.role) + ";CN=", EscapeParameter(name));
    ConcatSingle("ATTENDEE;ROLE=" + RoleName(a.role) + ";CN=" + EscapeParameter(name), ":mailto:");
  }

  lemma AttendeeLineOne(a: Attendee)
    ensures OneEach(AttendeeLine(a)) <==> PlainAddress(a)
  {
    if a.email.Some? {
      var name := if a.displayName.Some? then a.displayName.value else a.email.value;
      var line := AttendeeFront(a, name) + a.email.value;
      AttendeeFrontSingle(a, name);
      AfterName(AttendeeFront(a, name), a.email.value);
      assert AttendeeLine(a) == [line];
      OneLine(line);
    }
  }

  lemma OneLine(line: string)
    ensures OneEach([line]) <==> !HasCrLf(line)
  {
    assert [line][0] == line;
  }

  ghost predicate PlainAddresses(attendees: seq<Attendee>) {
    forall i :: 0 <= i < |attendees| ==> PlainAddress(attendees[i])
  }

  lemma PlainLast(attendees: seq<Attendee>)
    requires attendees != []
    ensures PlainAddresses(attendees) <==> PlainAddresses(attendees[..|attendees| - 1]) && PlainAddress(attendees[|attendees| - 1])
  {
    var init := attendees[..|attendees| - 1];
    assert forall i :: 0 <= i < |init| ==> init[i] == attendees[i];
  }

  lemma {:induction false} AttendeeLinesOne(attendees: seq<Attendee>)
    ensures OneEach(AttendeeLines(attendees)) <==> PlainAddresses(attendees)
  {
    if attendees != [] {
      var init, last := attendees[..|attendees| - 1], attendees[|attendees| - 1];
      AttendeeLinesOne(init);
      AttendeeLineOne(last);
      OneEachConcat(AttendeeLines(init), AttendeeLine(last));
      PlainLast(attendees);
    }
  }

  /** The fields that are written as they are hold no CR LF; title, description and names may. */
  ghost predicate PlainFields(m: Meeting, url: string, stamp: string)
    requires m.startsAt.Some? && m.endsAt.Some?
  {
    && !HasCrLf(m.id) && !HasCrLf(stamp) && !HasCrLf(m.startsAt.value) && !HasCrLf(m.endsAt.value) && !HasCrLf(url)
    && PlainAddresses(m.attendees)
  }

  lemma InviteLinesOne(m: Meeting, url: string, stamp: string)
    requires m.startsAt.Some? && m.endsAt.Some?
    ensures OneEach(InviteLines(m, url, stamp)) <==> PlainFields(m, url, stamp)
  {
    FixedLines();
    PropertyLinesOne(m, url, stamp);
    AttendeeLinesOne(m.attendees);
    OneEachConcat(PREAMBLE, PropertyLines(Properties(m, url, stamp)));
    OneEachConcat(HeadLines(m, url, stamp), AttendeeLines(m.attendees));
    OneEachConcat(HeadLines(m, url, stamp) + AttendeeLines(m.attendees), END_LINES);
  }

  /** The value of a content line with the given name. */
  function PropertyValue(line: string, name: string): Option<string> {
    if name <= line then Some(line[|name|..]) else None
  }

  lemma PropertyAt(m: Meeting, url: string, stamp: string, i: nat)
    requires m.startsAt.Some? && m.endsAt.Some? && i < |Properties(m, url, stamp)|
    ensures |PREAMBLE| + i < |InviteLines(m, url, stamp)|
    ensures var (name, value) := Properties(m, url, stamp)[i];
            PropertyValue(InviteLines(m, url, stamp)[|PREAMBLE| + i], name) == Some(value)
  {
    var (name, value) := Properties(m, url, stamp)[i];
    var line := InviteLines(m, url, stamp)[|PREAMBLE| + i];
    assert line == PropertyLines(Properties(m, url, stamp))[i] == name + value;
    assert line[..|name|] == name && line[|name|..] == value;
  }

  lemma SummaryAndDescription(m: Meeting, url: string, stamp: string)
    requires m.startsAt.Some? && m.endsAt.Some?
    ensures var lines := InviteLines(m, url, stamp);
            && DESCRIPTION_LINE < |lines|
            && PropertyValue(lines[SUMMARY_LINE], "SUMMARY:") == Some(EscapeText(m.title))
            && PropertyValue(lines[DESCRIPTION_LINE], "DESCRIPTION:") == Some(EscapeText(DescriptionText(m, url)))
  {
    PropertyAt(m, url, stamp, 4);
    PropertyAt(m, url, stamp, 5);
  }

  /** The text a document carries on one of its lines, unescaped. */
  function TextOfLine(doc: string, i: nat, name: string): Option<string> {
    var lines := ContentLines(doc);
    if i >= |lines| || PropertyValue(lines[i], name).None? then None
    else Unescape(PropertyValue(lines[i], name).value)
  }

  /**
   Whatever the title and the description contain, an invitation is read back as the lines it
   was written from exactly when no field that is written as it is holds a CR LF; then the
   SUMMARY and DESCRIPTION lines unescape to the title and the description text with their
   line ends as LF.
   */
  lemma InviteReadsBack(m: Meeting, url: string, stamp: string)
    requires m.startsAt.Some? && m.endsAt.Some?
    ensures var doc := JoinLines(InviteLines(m, url, stamp)) + "\r\n";
            && (ContentLines(doc) == InviteLines(m, url, stamp) <==> PlainFields(m, url, stamp))
            && (PlainFields(m, url, stamp) ==>
                  && TextOfLine(doc, SUMMARY_LINE, "SUMMARY:") == Some(NormalizeNewlines(m.title))
                  && TextOfLine(doc, DESCRIPTION_LINE, "DESCRIPTION:") == Some(NormalizeNewlines(DescriptionText(m, url))))
  {
    InviteLinesOne(m, url, stamp);
    LinesReadBackIff(InviteLines(m, url, stamp));
    EscapeRoundTrip(m.title);
    EscapeRoundTrip(DescriptionText(m, url));
    SummaryAndDescription(m, url, stamp);
  }

  // ---- an address with a line end ----

  function LowerChar(c: char): char {
    if 'A' <= c <= 'Z' then c - 'A' + 'a' else c
  }

  function Lower(s: string): (r: string)
    ensures |r| == |s| && forall i :: 0 <= i < |s| ==> r[i] == LowerChar(s[i])
  {
    seq(|s|, i requires 0 <= i < |s| => LowerChar(s[i]))
  }

  /** Trimmed, in lower case, with an `@` and at most 254 bytes long. */
  function NormalizeEmail(email: string): Option<string> {
    var e := Lower(T.Trim(email));
    if '@' in e && T.Utf8Len(e) <= 254 then Some(e) else None
  }

  const BROKEN_ADDRESS: string := "a@b\r\nc"

  lemma BrokenAddressAccepted()
    ensures NormalizeEmail(BROKEN_ADDRESS) == Some(BROKEN_ADDRESS) && HasCrLf(BROKEN_ADDRESS)
  {
    var e := BROKEN_ADDRESS;
    T.PrintableEnds(e);
    assert Lower(e) == e;
    assert e[1] == '@';
    BrokenAddressShort();
    HasCrLfIff(e);
    assert CrLfAt(e, 3);
  }

  lemma BrokenAddressShort()
    ensures T.Utf8Len(BROKEN_ADDRESS) == 6
  {
    var e := BROKEN_ADDRESS;
    assert e[1..][1..] == e[2..] && e[2..][1..] == e[3..] && e[3..][1..] == e[4..] && e[4..][1..] == e[5..] && e[5..][1..] == "";
  }

  /** An attendee address that is accepted and breaks the invitation of any meeting it is invited to. */
  lemma BrokenInvite(m: Meeting, url: string, stamp: string, i: nat)
    requires m.startsAt.Some? && m.endsAt.Some? && i < |m.attendees| && m.attendees[i].email == NormalizeEmail(BROKEN_ADDRESS)
    ensures ContentLines(JoinLines(InviteLines(m, url, stamp)) + "\r\n") != InviteLines(m, url, stamp)
  {
    BrokenAddressAccepted();
    assert !PlainAddress(m.attendees[i]);
    InviteReadsBack(m, url, stamp);
  }
}
