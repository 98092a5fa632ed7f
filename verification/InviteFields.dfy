/**
 An invitation read back field by field: the properties by their names, and the attendees with
 their roles, names and addresses.
 */
module InviteFields {
  import opened Outcomes
  import T = Text
  import opened Calendar

  // ---- properties by name ----

  /** The value of the first content line with the given name. */
  function FirstValue(lines: seq<string>, name: string): Option<string> {
    if lines == [] then None
    else if name <= lines[0] then Some(lines[0][|name|..]) else FirstValue(lines[1..], name)
  }

  lemma {:induction false} FirstValueAt(lines: seq<string>, name: string, k: nat)
    requires k < |lines| && name <= lines[k] && forall j :: 0 <= j < k ==> !(name <= lines[j])
    ensures FirstValue(lines, name) == Some(lines[k][|name|..])
  {
    if k > 0 { FirstValueAt(lines[1..], name, k - 1); }
  }

  /** How the first fifteen lines of an invitation start. */
  const STARTS: seq<string> :=
    ["BEGIN:VCALENDAR", "VERSION:2.0", "PRODID:-//OpenCord//OpenCord Calendar//EN", "CALSCALE:GREGORIAN",
     "METHOD:PUBLISH", "BEGIN:VEVENT",
     "UID:", "DTSTAMP:", "DTSTART:", "DTEND:", "SUMMARY:", "DESCRIPTION:", "LOCATION:", "URL:", "STATUS:"]

  const FIRST_LETTERS: string := "BVPCMBUDDDSDLUS"
  const HEAD_LINES: nat := 15

  lemma FirstLetters(k: nat)
    requires k < HEAD_LINES
    ensures STARTS[k] != "" && STARTS[k][0] == FIRST_LETTERS[k]
  {
  }

  /** Two starts differ at some place that both have. */
  predicate Apart(a: string, b: string, i: nat) {
    i < |a| && i < |b| && a[i] != b[i]
  }

  lemma SameLetterApart()
    ensures Apart(STARTS[6], STARTS[13], 1) && Apart(STARTS[10], STARTS[14], 1)
    ensures Apart(STARTS[7], STARTS[8], 5) && Apart(STARTS[7], STARTS[9], 2) && Apart(STARTS[8], STARTS[9], 2)
    ensures Apart(STARTS[7], STARTS[11], 1) && Apart(STARTS[8], STARTS[11], 1) && Apart(STARTS[9], STARTS[11], 1)
  {
  }

  lemma StartsApart(j: nat, k: nat) returns (i: nat)
    requires j < k < HEAD_LINES && k >= 6
    ensures Apart(STARTS[j], STARTS[k], i)
  {
    FirstLetters(j);
    FirstLetters(k);
    SameLetterApart();
    i := if k == 8 && j == 7 then 5 else if k == 9 && (j == 7 || j == 8) then 2
         else if (k == 11 && 7 <= j <= 9) || (k == 13 && j == 6) || (k == 14 && j == 10) then 1 else 0;
  }

  lemma NotNamed(a: string, value: string, b: string, i: nat)
    requires Apart(a, b, i)
    ensures !(b <= a + value)
  {
    assert (a + value)[i] == a[i];
  }

  /** What follows the start of each of these lines. */
  function ValueAt(m: Meeting, url: string, stamp: string, k: nat): string
    requires m.startsAt.Some? && m.endsAt.Some? && k < HEAD_LINES
  {
    if k < 6 then "" else Properties(m, url, stamp)[k - 6].1
  }

  lemma PreambleStarts(k: nat)
    requires k < 6
    ensures PREAMBLE[k] == STARTS[k]
  {
  }

  lemma PropertyStarts(m: Meeting, url: string, stamp: string, k: nat)
    requires m.startsAt.Some? && m.endsAt.Some? && 6 <= k < HEAD_LINES
    ensures Properties(m, url, stamp)[k - 6].0 == STARTS[k]
  {
  }

  lemma LineAt(m: Meeting, url: string, stamp: string, k: nat)
    requires m.startsAt.Some? && m.endsAt.Some? && k < HEAD_LINES
    ensures k < |InviteLines(m, url, stamp)| && InviteLines(m, url, stamp)[k] == STARTS[k] + ValueAt(m, url, stamp, k)
  {
    if k < 6 {
      PreambleStarts(k);
      assert InviteLines(m, url, stamp)[k] == PREAMBLE[k];
      assert STARTS[k] + "" == STARTS[k];
    } else {
      PropertyStarts(m, url, stamp, k);
      assert InviteLines(m, url, stamp)[k] == PropertyLines(Properties(m, url, stamp))[k - 6];
    }
  }

  lemma NamedAt(m: Meeting, url: string, stamp: string, k: nat)
    requires m.startsAt.Some? && m.endsAt.Some? && 6 <= k < HEAD_LINES
    ensures FirstValue(InviteLines(m, url, stamp), STARTS[k]) == Some(ValueAt(m, url, stamp, k))
  {
    var lines := InviteLines(m, url, stamp);
    LineAt(m, url, stamp, k);
    forall j | 0 <= j < k ensures !(STARTS[k] <= lines[j]) {
      LineAt(m, url, stamp, j);
      var i := StartsApart(j, k);
      NotNamed(STARTS[j], ValueAt(m, url, stamp, j), STARTS[k], i);
    }
    FirstValueAt(lines, STARTS[k], k);
    assert lines[k][|STARTS[k]|..] == ValueAt(m, url, stamp, k);
  }

  /** A property of a document, by its name. */
  function Property(doc: string, name: string): Option<string> {
    FirstValue(ContentLines(doc), name)
  }

  function TextProperty(doc: string, name: string): Option<string> {
    if Property(doc, name).None? then None else Unescape(Property(doc, name).value)
  }

  lemma DocumentLines(m: Meeting, url: string, stamp: string)
    requires m.startsAt.Some? && m.endsAt.Some? && PlainFields(m, url, stamp)
    ensures ContentLines(JoinLines(InviteLines(m, url, stamp)) + "\r\n") == InviteLines(m, url, stamp)
  {
    InviteReadsBack(m, url, stamp);
  }

  /** The document gives back the value of line `k` under its name. */
  lemma NamedInDocument(m: Meeting, url: string, stamp: string, k: nat)
    requires m.startsAt.Some? && m.endsAt.Some? && PlainFields(m, url, stamp) && 6 <= k < HEAD_LINES
    ensures Property(JoinLines(InviteLines(m, url, stamp)) + "\r\n", STARTS[k]) == Some(Properties(m, url, stamp)[k - 6].1)
  {
    DocumentLines(m, url, stamp);
    NamedAt(m, url, stamp, k);
  }

  lemma NamesOfLines()
    ensures STARTS[6] == "UID:" && STARTS[7] == "DTSTAMP:" && STARTS[8] == "DTSTART:" && STARTS[9] == "DTEND:"
    ensures STARTS[10] == "SUMMARY:" && STARTS[11] == "DESCRIPTION:" && STARTS[12] == "LOCATION:"
    ensures STARTS[13] == "URL:" && STARTS[14] == "STATUS:"
  {
  }

  /** The values of the nine properties. */
  ghost predicate Gives(m: Meeting, url: string, stamp: string, doc: string) {
    && Property(doc, "UID:") == Some(m.id + "@opencord") && Property(doc, "DTSTAMP:") == Some(stamp)
    && Property(doc, "DTSTART:") == m.startsAt && Property(doc, "DTEND:") == m.endsAt
    && Property(doc, "URL:") == Some(url)
    && Property(doc, "STATUS:") == Some(if m.cancelled then "CANCELLED" else "CONFIRMED")
    && TextProperty(doc, "SUMMARY:") == Some(NormalizeNewlines(m.title))
    && TextProperty(doc, "DESCRIPTION:") ==
         Some(NormalizeNewlines((if m.description.Some? then m.description.value + "\n\n" else "") + ("Join: " + url)))
    && TextProperty(doc, "LOCATION:") == Some(NormalizeNewlines(url))
  }

  lemma DescriptionIs(m: Meeting, url: string)
    ensures DescriptionText(m, url) == (if m.description.Some? then m.description.value + "\n\n" else "") + ("Join: " + url)
  {
    if m.description.Some? {
      assert m.description.value + "\n\nJoin: " + url == (m.description.value + "\n\n") + ("Join: " + url);
    } else {
      assert "" + ("Join: " + url) == "Join: " + url;
    }
  }

  /** From the values of the lines to what they say. */
  lemma GivesFrom(m: Meeting, url: string, stamp: string, doc: string)
    requires m.startsAt.Some? && m.endsAt.Some?
    requires forall k :: 6 <= k < HEAD_LINES ==> Property(doc, STARTS[k]) == Some(Properties(m, url, stamp)[k - 6].1)
    ensures Gives(m, url, stamp, doc)
  {
    NamesOfLines();
    DescriptionIs(m, url);
    EscapeRoundTrip(m.title);
    EscapeRoundTrip(DescriptionText(m, url));
    EscapeRoundTrip(url);
    assert Property(doc, STARTS[6]) == Some(Properties(m, url, stamp)[0].1);
    assert Property(doc, STARTS[7]) == Some(Properties(m, url, stamp)[1].1);
    assert Property(doc, STARTS[8]) == Some(Properties(m, url, stamp)[2].1);
    assert Property(doc, STARTS[9]) == Some(Properties(m, url, stamp)[3].1);
    assert Property(doc, STARTS[10]) == Some(Properties(m, url, stamp)[4].1);
    assert Property(doc, STARTS[11]) == Some(Properties(m, url, stamp)[5].1);
    assert Property(doc, STARTS[12]) == Some(Properties(m, url, stamp)[6].1);
    assert Property(doc, STARTS[13]) == Some(Properties(m, url, stamp)[7].1);
    assert Property(doc, STARTS[14]) == Some(Properties(m, url, stamp)[8].1);
  }

  /**
   Where no field that is written as it is holds a CR LF, an invitation gives back by name: its id,
   its times, its link and whether it is cancelled, and title, description and location unescaped.
   */
  lemma PropertiesReadBack(m: Meeting, url: string, stamp: string)
    requires m.startsAt.Some? && m.endsAt.Some? && PlainFields(m, url, stamp)
    ensures Gives(m, url, stamp, JoinLines(InviteLines(m, url, stamp)) + "\r\n")
  {
    var doc := JoinLines(InviteLines(m, url, stamp)) + "\r\n";
    forall k | 6 <= k < HEAD_LINES ensures Property(doc, STARTS[k]) == Some(Properties(m, url, stamp)[k - 6].1) {
      NamedInDocument(m, url, stamp, k);
    }
    GivesFrom(m, url, stamp, doc);
  }

  // ---- quoted names ----

  /** A name with each CR and LF as a space. */
  function Spaced(s: string): string {
    seq(|s|, i requires 0 <= i < |s| => if s[i] == '\r' || s[i] == '\n' then ' ' else s[i])
  }

  /** A quoted text, with a backslash before any character taken literally, and what follows the closing quote. */
  function ReadQuoted(s: string): Option<(string, string)> {
    if s == "" then None
    else if s[0] == '\"' then Some(("", s[1..]))
    else if s[0] == '\\' then
      if |s| == 1 then None
      else
        var rest := ReadQuoted(s[2..]);
        if rest.None? then None else Some(([s[1]] + rest.value.0, rest.value.1))
    else
      var rest := ReadQuoted(s[1..]);
      if rest.None? then None else Some(([s[0]] + rest.value.0, rest.value.1))
  }

  /** One pass for the three replacements. */
  function QuoteOnce(s: string): string {
    if s == "" then "" else QuoteChar(s[0]) + QuoteOnce(s[1..])
  }

  function QuoteChar(c: char): string {
    if c == '\\' then "\\\\" else if c == '\"' then "\\\"" else if c == '\r' || c == '\n' then " " else [c]
  }

  function QuotePasses(s: string): string {
    ReplaceEither(ReplaceChar(ReplaceChar(s, '\\', "\\\\"), '\"', "\\\""), '\r', '\n', " ")
  }

  lemma EitherOne(c: char)
    ensures ReplaceEither([c], '\r', '\n', " ") == if c == '\r' || c == '\n' then " " else [c]
  {
    assert [c][1..] == "";
  }

  lemma EitherTwo(x: char, y: char)
    requires x != '\r' && x != '\n' && y != '\r' && y != '\n'
    ensures ReplaceEither([x, y], '\r', '\n', " ") == [x, y]
  {
    ReplaceEitherAppend([x], [y], '\r', '\n', " ");
    EitherOne(x);
    EitherOne(y);
    assert [x] + [y] == [x, y];
  }

  lemma QuotePassesOne(c: char)
    ensures QuotePasses([c]) == QuoteChar(c)
  {
    ReplaceCharOne(c, '\\', "\\\\");
    ReplaceCharOne(c, '\"', "\\\"");
    ReplaceCharTwo('\\', '\\', '\"', "\\\"");
    EitherOne(c);
    EitherTwo('\\', '\\');
    EitherTwo('\\', '\"');
  }

  lemma {:induction false} QuotePassesAreOne(s: string)
    ensures QuotePasses(s) == QuoteOnce(s)
  {
    if s != "" {
      var h, t := [s[0]], s[1..];
      assert s == h + t;
      ReplaceCharAppend(h, t, '\\', "\\\\");
      var h1, t1 := ReplaceChar(h, '\\', "\\\\"), ReplaceChar(t, '\\', "\\\\");
      ReplaceCharAppend(h1, t1, '\"', "\\\"");
      ReplaceEitherAppend(ReplaceChar(h1, '\"', "\\\""), ReplaceChar(t1, '\"', "\\\""), '\r', '\n', " ");
      QuotePassesOne(s[0]);
      QuotePassesAreOne(t);
    }
  }

  lemma ReadOne(c: char, rest: string)
    requires ReadQuoted(rest).Some?
    ensures ReadQuoted(QuoteChar(c) + rest) ==
              Some(([if c == '\r' || c == '\n' then ' ' else c] + ReadQuoted(rest).value.0, ReadQuoted(rest).value.1))
  {
    var s := QuoteChar(c) + rest;
    if c == '\\' || c == '\"' {
      assert |s| >= 2 && s[0] == '\\' && s[1] == c && s[2..] == rest;
    } else if c == '\r' || c == '\n' {
      assert s == " " + rest && s[0] == ' ' && s[1..] == rest;
    } else {
      assert s == [c] + rest && s[0] == c && s[1..] == rest;
    }
  }

  lemma SpacedHead(c: char, t: string)
    ensures Spaced([c] + t) == [if c == '\r' || c == '\n' then ' ' else c] + Spaced(t)
  {
    var s, r := [c] + t, [if c == '\r' || c == '\n' then ' ' else c] + Spaced(t);
    forall i | 0 <= i < |s| ensures Spaced(s)[i] == r[i] { if i > 0 { assert s[i] == t[i - 1]; } }
  }

  lemma QuotedMore(c: char, t: string, rest: string)
    requires ReadQuoted(QuoteOnce(t) + ("\"" + rest)) == Some((Spaced(t), rest))
    ensures ReadQuoted(QuoteOnce([c] + t) + ("\"" + rest)) == Some((Spaced([c] + t), rest))
  {
    var tail := QuoteOnce(t) + ("\"" + rest);
    assert ([c] + t)[1..] == t;
    assert QuoteOnce([c] + t) + ("\"" + rest) == QuoteChar(c) + tail;
    ReadOne(c, tail);
    SpacedHead(c, t);
  }

  lemma {:induction false} QuotedReadBack(s: string, rest: string)
    ensures ReadQuoted(QuoteOnce(s) + ("\"" + rest)) == Some((Spaced(s), rest))
  {
    if s == "" {
      assert QuoteOnce(s) + ("\"" + rest) == "\"" + rest;
      assert ("\"" + rest)[1..] == rest && Spaced(s) == "";
    } else {
      QuotedReadBack(s[1..], rest);
      QuotedMore(s[0], s[1..], rest);
      assert [s[0]] + s[1..] == s;
    }
  }

  /** A quoted parameter is read back as the name, with each CR and LF as a space, whatever follows it. */
  lemma ParameterRoundTrip(name: string, rest: string)
    ensures "\"" <= EscapeParameter(name) && ReadQuoted((EscapeParameter(name) + rest)[1..]) == Some((Spaced(name), rest))
  {
    QuotePassesAreOne(name);
    QuotedReadBack(name, rest);
    assert EscapeParameter(name) == "\"" + QuoteOnce(name) + "\"";
    assert (EscapeParameter(name) + rest)[1..] == QuoteOnce(name) + ("\"" + rest);
  }

  // ---- attendees ----

  datatype Invitee = Invitee(role: string, name: string, email: string)

  /** What an attendee line says: a role, a quoted name and an address. */
  function ReadAttendee(line: string): Option<Invitee> {
    if !("ATTENDEE;ROLE=" <= line) then None
    else
      var rest := line[14..];
      var end := T.Find(rest, ";");
      if end.None? || !(";CN=\"" <= rest[end.value..]) then None
      else
        var name := ReadQuoted(rest[end.value + 5..]);
        if name.None? || !(":mailto:" <= name.value.1) then None
        else Some(Invitee(rest[..end.value], name.value.0, name.value.1[8..]))
  }

  lemma RoleEnds(role: string, rest: string)
    requires ';' !in role
    ensures T.Find(role + (";" + rest), ";") == Some(|role|)
  {
    var s := role + (";" + rest);
    assert s[|role|..] == ";" + rest;
    forall k | 0 <= k < |role| ensures !T.OccursAt(s, ";", k) { assert s[k] == role[k]; }
    T.FoundAt(s, ";", |role|);
  }

  lemma RolePlain(role: string)
    ensures ';' !in RoleName(role)
  {
  }

  /** A line put together so that its parts show. */
  lemma LineParts(role: string, quoted: string, after: string)
    requires quoted != "" && quoted[0] == '\"'
    ensures var rest := role + (";" + ("CN=" + (quoted + after)));
            && "ATTENDEE;ROLE=" + role + ";CN=" + quoted + after == "ATTENDEE;ROLE=" + rest
            && rest[..|role|] == role && rest[|role|..] == ";CN=\"" + (quoted + after)[1..]
            && rest[|role| + 5..] == (quoted + after)[1..]
  {
    assert quoted + after == "\"" + (quoted + after)[1..];
  }

  lemma ReadParts(role: string, text: string, email: string, rest: string, tail: string)
    requires T.Find(rest, ";") == Some(|role|) && |role| <= |rest| && rest[..|role|] == role
    requires rest[|role|..] == ";CN=\"" + tail && |role| + 5 <= |rest| && rest[|role| + 5..] == tail
    requires ReadQuoted(tail) == Some((text, ":mailto:" + email))
    ensures ReadAttendee("ATTENDEE;ROLE=" + rest) == Some(Invitee(role, text, email))
  {
    assert ("ATTENDEE;ROLE=" + rest)[14..] == rest;
    assert (":mailto:" + email)[8..] == email;
  }

  lemma LineRead(role: string, name: string, email: string)
    requires ';' !in role
    ensures ReadAttendee("ATTENDEE;ROLE=" + role + ";CN=" + EscapeParameter(name) + (":mailto:" + email))
            == Some(Invitee(role, Spaced(name), email))
  {
    var quoted, after := EscapeParameter(name), ":mailto:" + email;
    ParameterRoundTrip(name, after);
    LineParts(role, quoted, after);
    RoleEnds(role, "CN=" + (quoted + after));
    ReadParts(role, Spaced(name), email, role + (";" + ("CN=" + (quoted + after))), (quoted + after)[1..]);
  }

  /** The attendees with an address. */
  function Invited(attendees: seq<Attendee>): seq<Attendee> {
    if attendees == [] then []
    else
      var init, a := Invited(attendees[..|attendees| - 1]), attendees[|attendees| - 1];
      if a.email.Some? then init + [a] else init
  }

  /** What the line of an attendee is to say. */
  ghost predicate Says(line: string, a: Attendee) {
    && a.email.Some?
    && ReadAttendee(line) == Some(Invitee(
         if a.role == "host" then "CHAIR" else if a.role == "optional" then "OPT-PARTICIPANT" else "REQ-PARTICIPANT",
         Spaced(if a.displayName.Some? then a.displayName.value else a.email.value),
         a.email.value))
  }

  lemma OneLineSays(a: Attendee)
    requires a.email.Some?
    ensures |AttendeeLine(a)| == 1 && Says(AttendeeLine(a)[0], a)
  {
    var name := if a.displayName.Some? then a.displayName.value else a.email.value;
    RolePlain(a.role);
    LineRead(RoleName(a.role), name, a.email.value);
    var front := "ATTENDEE;ROLE=" + RoleName(a.role) + ";CN=" + EscapeParameter(name);
    assert front + ":mailto:" + a.email.value == front + (":mailto:" + a.email.value);
  }

  lemma {:induction false} LinesSay(attendees: seq<Attendee>)
    ensures |AttendeeLines(attendees)| == |Invited(attendees)|
    ensures forall i :: 0 <= i < |Invited(attendees)| ==> Says(AttendeeLines(attendees)[i], Invited(attendees)[i])
  {
    if attendees != [] {
      LinesSay(attendees[..|attendees| - 1]);
      var a := attendees[|attendees| - 1];
      if a.email.Some? { OneLineSays(a); }
    }
  }

  /** The lines after the head say what the invited attendees are to be told, and the two last lines follow. */
  ghost predicate InvitedIn(lines: seq<string>, invited: seq<Attendee>) {
    && |lines| == HEAD_LINES + |invited| + 2
    && (forall i :: 0 <= i < |invited| ==> Says(lines[HEAD_LINES + i], invited[i]))
    && lines[|lines| - 2..] == ["END:VEVENT", "END:VCALENDAR"]
  }

  lemma HeadLength(m: Meeting, url: string, stamp: string)
    requires m.startsAt.Some? && m.endsAt.Some?
    ensures |HeadLines(m, url, stamp)| == HEAD_LINES
  {
  }

  lemma FromParts(head: seq<string>, mid: seq<string>, invited: seq<Attendee>)
    requires |head| == HEAD_LINES && |mid| == |invited| && forall i :: 0 <= i < |invited| ==> Says(mid[i], invited[i])
    ensures InvitedIn(head + mid + END_LINES, invited)
  {
    var lines := head + mid + END_LINES;
    forall i | 0 <= i < |invited| ensures Says(lines[HEAD_LINES + i], invited[i]) { assert lines[HEAD_LINES + i] == mid[i]; }
    assert lines[|lines| - 2..] == END_LINES;
  }

  /**
   Where no field that is written as it is holds a CR LF, the lines after the properties are those
   of the attendees with an address, in order: each gives back the role, the name with its line ends
   as spaces, or the address where there is no name, and the address.
   */
  lemma AttendeesReadBack(m: Meeting, url: string, stamp: string)
    requires m.startsAt.Some? && m.endsAt.Some? && PlainFields(m, url, stamp)
    ensures InvitedIn(ContentLines(JoinLines(InviteLines(m, url, stamp)) + "\r\n"), Invited(m.attendees))
  {
    DocumentLines(m, url, stamp);
    LinesSay(m.attendees);
    HeadLength(m, url, stamp);
    FromParts(HeadLines(m, url, stamp), AttendeeLines(m.attendees), Invited(m.attendees));
  }

  // ---- the link ----

  function Slashes(k: nat): string {
    seq(k, _ => '/')
  }

  lemma {:induction false} TrimmedSlashes(url: string) returns (k: nat)
    ensures url == TrimSlashes(url) + Slashes(k)
    ensures TrimSlashes(url) == "" || TrimSlashes(url)[|TrimSlashes(url)| - 1] != '/'
  {
    k := 0;
    if url != "" && url[|url| - 1] == '/' {
      k := TrimmedSlashes(url[..|url| - 1]);
      k := k + 1;
      assert url == url[..|url| - 1] + "/";
    }
  }

  /** The link is the public address without the slashes at its end, then the path. */
  lemma JoinUrlExact(publicUrl: string, slug: string) returns (base: string, k: nat)
    ensures publicUrl == base + Slashes(k) && (base == "" || base[|base| - 1] != '/')
    ensures JoinUrl(publicUrl, slug) == base + "/join/" + slug
  {
    base := TrimSlashes(publicUrl);
    k := TrimmedSlashes(publicUrl);
    assert "" + "/join/" == "/join/";
  }
}
