/**
 Normalisation of message embeds: every member is trimmed and checked against its own limit,
 and a running total of text characters is checked at the end.
 */
module Embed {
  import opened Outcomes
  import T = Text
  import opened Json
  import opened Moments
  import opened Timestamps

  const MAX_FIELDS: nat := 25
  const MAX_TOTAL_TEXT: nat := 6000
  const MAX_COLOR: nat := 0xFF_FF_FF
  const MAX_URL_BYTES: nat := 2048

  /** What one member contributes: nothing, a normalised value, or a refusal of the embed. */
  datatype Part = Absent | Present(value: Value) | Bad

  function TextPart(v: Option<Value>, maxChars: nat): Part {
    if v.None? || v.value.Null? then Absent
    else if !v.value.Str? then Bad
    else
      var text := T.Trim(v.value.text);
      if text == "" then Absent else if |text| > maxChars then Bad else Present(Str(text))
  }

  predicate IsHttpUrl(s: string) {
    T.Utf8Len(s) <= MAX_URL_BYTES && ("https://" <= s || "http://" <= s)
  }

  function UrlPart(v: Option<Value>): Part {
    if v.None? || v.value.Null? then Absent
    else if !v.value.Str? then Bad
    else
      var text := T.Trim(v.value.text);
      if text == "" then Absent else if !IsHttpUrl(text) then Bad else Present(Str(text))
  }

  function TimestampPart(parse: Parser, v: Option<Value>): Part {
    if v.None? || v.value.Null? then Absent
    else if !v.value.Str? then Bad
    else
      var t := parse(T.Trim(v.value.text));
      if t.None? then Bad else Present(Str(MillisText(t.value)))
  }

  function ColorPart(v: Option<Value>): Part {
    if v.None? || v.value.Null? then Absent
    else if v.value.Num? && v.value.number.PosInt? && v.value.number.n <= MAX_COLOR then Present(v.value)
    else Bad
  }

  function TypePart(v: Option<Value>): Part {
    if v.None? then Present(Str("rich"))
    else if v.value.Str? && T.Trim(v.value.text) == "rich" then Present(Str("rich"))
    else Bad
  }

  function InlinePart(v: Option<Value>): Part {
    if v.None? || v.value.Null? then Present(Bool(false))
    else if v.value.Bool? then Present(v.value)
    else Bad
  }

  // ---- nested objects ----

  function Put(m: map<Key, Value>, k: Key, part: Part): map<Key, Value> {
    if part.Present? then m[k := part.value] else m
  }

  predicate Within(v: Value, keys: set<Key>) {
    v.Obj? && forall k :: k in v.fields ==> k in keys
  }

  const FOOTER_KEYS := {Text, IconUrl}
  const MEDIA_KEYS := {Url}
  const AUTHOR_KEYS := {Name, Url, IconUrl}
  const FIELD_KEYS := {Name, FieldValue, Inline}

  function FooterPart(v: Option<Value>): Part {
    if v.None? || v.value.Null? then Absent
    else if !Within(v.value, FOOTER_KEYS) then Bad
    else
      var text, icon := TextPart(v.value.Get(Text), 2048), UrlPart(v.value.Get(IconUrl));
      if !text.Present? || icon.Bad? then Bad else Present(Obj(Put(map[Text := text.value], IconUrl, icon)))
  }

  function MediaPart(v: Option<Value>): Part {
    if v.None? || v.value.Null? then Absent
    else if !Within(v.value, MEDIA_KEYS) then Bad
    else
      var url := UrlPart(v.value.Get(Url));
      if !url.Present? then Bad else Present(Obj(map[Url := url.value]))
  }

  function AuthorPart(v: Option<Value>): Part {
    if v.None? || v.value.Null? then Absent
    else if !Within(v.value, AUTHOR_KEYS) then Bad
    else
      var name, url, icon := TextPart(v.value.Get(Name), 256), UrlPart(v.value.Get(Url)), UrlPart(v.value.Get(IconUrl));
      if !name.Present? || url.Bad? || icon.Bad? then Bad
      else Present(Obj(Put(Put(map[Name := name.value], Url, url), IconUrl, icon)))
  }

  function FieldPart(v: Value): Part {
    if !Within(v, FIELD_KEYS) then Bad
    else
      var name, text := TextPart(v.Get(Name), 256), TextPart(v.Get(FieldValue), 1024);
      var inline_ := InlinePart(v.Get(Inline));
      if !name.Present? || !text.Present? || inline_.Bad? then Bad
      else Present(Obj(map[Name := name.value, FieldValue := text.value, Inline := inline_.value]))
  }

  /** The fields in order, if every one of them is an acceptable object. */
  function FieldList(items: seq<Value>): Option<seq<Value>> {
    if items == [] then Some([])
    else
      var init, last := FieldList(items[..|items| - 1]), FieldPart(items[|items| - 1]);
      if init.Some? && last.Present? then Some(init.value + [last.value]) else None
  }

  function FieldsPart(v: Option<Value>): Part {
    if v.None? || v.value.Null? then Absent
    else if !v.value.Arr? || |v.value.items| > MAX_FIELDS then Bad
    else
      var fields := FieldList(v.value.items);
      if fields.Some? then Present(Arr(fields.value)) else Bad
  }

  // ---- the embed ----

  const EMBED_KEYS: set<Key> :=
    {Title, Type, Description, Url, Timestamp, Color, Footer, Image, Thumbnail, Author, Fields}

  /** What one member contributes, together with its name. */
  datatype Entry = Entry(key: Key, part: Part)

  /** What the members of an embed contribute, in the order in which they are read. */
  function Entries(parse: Parser, v: Value): seq<Entry> {
    [Entry(Title, TextPart(v.Get(Title), 256)),
     Entry(Type, TypePart(v.Get(Type))),
     Entry(Description, TextPart(v.Get(Description), 4096)),
     Entry(Url, UrlPart(v.Get(Url))),
     Entry(Timestamp, TimestampPart(parse, v.Get(Timestamp))),
     Entry(Color, ColorPart(v.Get(Color))),
     Entry(Footer, FooterPart(v.Get(Footer))),
     Entry(Image, MediaPart(v.Get(Image))),
     Entry(Thumbnail, MediaPart(v.Get(Thumbnail))),
     Entry(Author, AuthorPart(v.Get(Author))),
     Entry(Fields, FieldsPart(v.Get(Fields)))]
  }

  const TIMESTAMP_ENTRY: nat := 4

  /** The members that are present. */
  function Members(es: seq<Entry>): map<Key, Value> {
    if es == [] then map[] else Put(Members(es[..|es| - 1]), es[|es| - 1].key, es[|es| - 1].part)
  }

  predicate AnyBad(es: seq<Entry>) {
    exists i :: 0 <= i < |es| && es[i].part.Bad?
  }

  // ---- the text of an embed ----

  function StringChars(v: Option<Value>): nat {
    if v.Some? && v.value.Str? then |v.value.text| else 0
  }

  function CharsOfField(field: Value): nat {
    StringChars(field.Get(Name)) + StringChars(field.Get(FieldValue))
  }

  function FieldChars(items: seq<Value>): nat {
    if items == [] then 0 else FieldChars(items[..|items| - 1]) + CharsOfField(items[|items| - 1])
  }

  function MemberChars(k: Key, v: Value): nat {
    match k
    case Title => StringChars(Some(v))
    case Description => StringChars(Some(v))
    case Footer => StringChars(v.Get(Text))
    case Author => StringChars(v.Get(Name))
    case Fields => if v.Arr? then FieldChars(v.items) else 0
    case _ => 0
  }

  function CharsAt(embed: map<Key, Value>, k: Key): nat {
    if k in embed then MemberChars(k, embed[k]) else 0
  }

  /** The characters of title, description, footer text, author name, field names and values. */
  function TextLength(embed: map<Key, Value>): nat {
    CharsAt(embed, Title) + CharsAt(embed, Description) + CharsAt(embed, Footer) + CharsAt(embed, Author)
    + CharsAt(embed, Fields)
  }

  /** The accepted members and nothing else, within the text budget. */
  function Assemble(es: seq<Entry>): Result<Value, ()> {
    if AnyBad(es) then Err(())
    else
      var embed := Members(es);
      if |embed| == 1 || TextLength(embed) > MAX_TOTAL_TEXT then Err(()) else Ok(Obj(embed))
  }

  /** What normalisation means. */
  function Normalize(parse: Parser, v: Value): Result<Value, ()> {
    if !Within(v, EMBED_KEYS) then Err(()) else Assemble(Entries(parse, v))
  }

  // ---- normalising twice ----

  lemma TextPartAgain(v: Option<Value>, maxChars: nat)
    requires TextPart(v, maxChars).Present?
    ensures TextPart(Some(TextPart(v, maxChars).value), maxChars) == TextPart(v, maxChars)
  {
    T.TrimIsTrimmed(v.value.text);
  }

  lemma UrlPartAgain(v: Option<Value>)
    requires UrlPart(v).Present?
    ensures UrlPart(Some(UrlPart(v).value)) == UrlPart(v)
  {
    T.TrimIsTrimmed(v.value.text);
  }

  function Seen(part: Part): Option<Value> {
    if part.Present? then Some(part.value) else None
  }

  lemma TextAgain(v: Option<Value>, maxChars: nat)
    ensures var part := TextPart(v, maxChars); !part.Bad? ==> TextPart(Seen(part), maxChars) == part
  {
    if TextPart(v, maxChars).Present? { TextPartAgain(v, maxChars); }
  }

  lemma UrlAgain(v: Option<Value>)
    ensures var part := UrlPart(v); !part.Bad? ==> UrlPart(Seen(part)) == part
  {
    if UrlPart(v).Present? { UrlPartAgain(v); }
  }

  lemma FooterAgain(v: Option<Value>)
    ensures var part := FooterPart(v); !part.Bad? ==> FooterPart(Seen(part)) == part
  {
    if FooterPart(v).Present? {
      TextAgain(v.value.Get(Text), 2048);
      UrlAgain(v.value.Get(IconUrl));
    }
  }

  lemma MediaAgain(v: Option<Value>)
    ensures var part := MediaPart(v); !part.Bad? ==> MediaPart(Seen(part)) == part
  {
    if MediaPart(v).Present? { UrlAgain(v.value.Get(Url)); }
  }

  lemma AuthorAgain(v: Option<Value>)
    ensures var part := AuthorPart(v); !part.Bad? ==> AuthorPart(Seen(part)) == part
  {
    if AuthorPart(v).Present? {
      TextAgain(v.value.Get(Name), 256);
      UrlAgain(v.value.Get(Url));
      UrlAgain(v.value.Get(IconUrl));
    }
  }

  lemma FieldAgain(v: Value)
    requires FieldPart(v).Present?
    ensures FieldPart(FieldPart(v).value) == FieldPart(v)
  {
    TextAgain(v.Get(Name), 256);
    TextAgain(v.Get(FieldValue), 1024);
  }

  lemma {:induction false} FieldListAgain(items: seq<Value>)
    requires FieldList(items).Some?
    ensures |FieldList(items).value| == |items|
    ensures FieldList(FieldList(items).value) == FieldList(items)
  {
    if items != [] {
      var init, last := items[..|items| - 1], items[|items| - 1];
      FieldListAgain(init);
      FieldAgain(last);
      var out := FieldList(items).value;
      assert out[..|out| - 1] == FieldList(init).value;
    }
  }

  lemma FieldsAgain(v: Option<Value>)
    ensures var part := FieldsPart(v); !part.Bad? ==> FieldsPart(Seen(part)) == part
  {
    if FieldsPart(v).Present? { FieldListAgain(v.value.items); }
  }

  /** The timestamp an embed carries, if it has one that parses, is in a UTC year of four digits. */
  predicate YearOk(parse: Parser, v: Option<Value>) {
    v.Some? && v.value.Str? && parse(T.Trim(v.value.text)).Some? ==> FourDigitYear(parse(T.Trim(v.value.text)).value)
  }

  lemma TimestampAgain(parse: Parser, v: Option<Value>)
    requires ParserOk(parse) && !TimestampPart(parse, v).Bad?
    ensures TimestampPart(parse, Seen(TimestampPart(parse, v))) == if YearOk(parse, v) then TimestampPart(parse, v) else Bad
  {
    if TimestampPart(parse, v).Present? {
      var t := parse(T.Trim(v.value.text)).value;
      RenderTrimmed(t);
      RenderReadBack(parse, t);
    }
  }

  lemma TypeAgain(v: Option<Value>)
    requires !TypePart(v).Bad?
    ensures TypePart(Seen(TypePart(v))) == TypePart(v)
  {
    T.PrintableEnds("rich");
  }

  ghost predicate DistinctKeys(es: seq<Entry>) {
    forall i, j :: 0 <= i < j < |es| ==> es[i].key != es[j].key
  }

  /** Reading the collected members back gives what each entry contributed. */
  lemma {:induction false} MembersGet(es: seq<Entry>)
    requires DistinctKeys(es)
    ensures forall i :: 0 <= i < |es| ==> Member(Members(es), es[i].key) == Seen(es[i].part)
    ensures forall k :: k in Members(es) ==> exists i :: 0 <= i < |es| && es[i].key == k
  {
    if es != [] {
      var init, last := es[..|es| - 1], es[|es| - 1];
      MembersGet(init);
      forall k | k in Members(es) ensures exists i :: 0 <= i < |es| && es[i].key == k {
        if k in Members(init) {
          var i :| 0 <= i < |init| && init[i].key == k;
          assert es[i].key == k;
        } else {
          assert es[|es| - 1].key == k;
        }
      }
      forall i | 0 <= i < |es| ensures Member(Members(es), es[i].key) == Seen(es[i].part) {
        if i < |init| {
          assert es[i] == init[i] && es[i].key != last.key;
        } else {
          assert forall j :: 0 <= j < |init| ==> init[j].key == es[j].key != last.key;
        }
      }
    }
  }

  lemma EntriesDistinct(parse: Parser, v: Value)
    ensures DistinctKeys(Entries(parse, v)) && |Entries(parse, v)| == 11
    ensures forall i :: 0 <= i < 11 ==> Entries(parse, v)[i].key in EMBED_KEYS
  {
  }

  lemma TextEntryAgain(parse: Parser, v: Value, w: Value, i: nat)
    requires i < 4 && !Entries(parse, v)[i].part.Bad?
    requires w.Get(Entries(parse, v)[i].key) == Seen(Entries(parse, v)[i].part)
    ensures Entries(parse, w)[i] == Entries(parse, v)[i]
  {
    if i == 0 { TextAgain(v.Get(Title), 256); }
    else if i == 1 { TypeAgain(v.Get(Type)); }
    else if i == 2 { TextAgain(v.Get(Description), 4096); }
    else { UrlAgain(v.Get(Url)); }
  }

  lemma ObjectEntryAgain(parse: Parser, v: Value, w: Value, i: nat)
    requires 5 <= i < 11 && !Entries(parse, v)[i].part.Bad?
    requires w.Get(Entries(parse, v)[i].key) == Seen(Entries(parse, v)[i].part)
    ensures Entries(parse, w)[i] == Entries(parse, v)[i]
  {
    if i == 6 { FooterAgain(v.Get(Footer)); }
    else if i == 7 { MediaAgain(v.Get(Image)); }
    else if i == 8 { MediaAgain(v.Get(Thumbnail)); }
    else if i == 9 { AuthorAgain(v.Get(Author)); }
    else if i == 10 { FieldsAgain(v.Get(Fields)); }
  }

  /** The entries of an accepted embed, read again: only the timestamp can turn bad. */
  lemma EntryAgain(parse: Parser, v: Value, w: Value, i: nat)
    requires ParserOk(parse) && i < |Entries(parse, v)| && !Entries(parse, v)[i].part.Bad?
    requires w.Get(Entries(parse, v)[i].key) == Seen(Entries(parse, v)[i].part)
    ensures |Entries(parse, w)| == |Entries(parse, v)|
    ensures Entries(parse, w)[i] ==
              if i == TIMESTAMP_ENTRY && !YearOk(parse, v.Get(Timestamp)) then Entry(Timestamp, Bad) else Entries(parse, v)[i]
  {
    if i < TIMESTAMP_ENTRY { TextEntryAgain(parse, v, w, i); }
    else if i > TIMESTAMP_ENTRY { ObjectEntryAgain(parse, v, w, i); }
    else { TimestampAgain(parse, v.Get(Timestamp)); }
  }

  lemma EntriesAgain(parse: Parser, v: Value)
    requires ParserOk(parse) && !AnyBad(Entries(parse, v))
    ensures var es := Entries(parse, v);
            var w := Obj(Members(es));
            && Within(w, EMBED_KEYS)
            && Entries(parse, w) == if YearOk(parse, v.Get(Timestamp)) then es else es[TIMESTAMP_ENTRY := Entry(Timestamp, Bad)]
  {
    var es := Entries(parse, v);
    var w := Obj(Members(es));
    EntriesDistinct(parse, v);
    MembersGet(es);
    forall i | 0 <= i < |es|
      ensures |Entries(parse, w)| == |es|
      ensures Entries(parse, w)[i] == if i == TIMESTAMP_ENTRY && !YearOk(parse, v.Get(Timestamp)) then Entry(Timestamp, Bad) else es[i]
    {
      assert w.Get(es[i].key) == Seen(es[i].part);
      EntryAgain(parse, v, w, i);
    }
  }

  /**
   Normalising an accepted embed again returns it unchanged if and only if it carries no
   timestamp or one whose UTC year has four digits; otherwise the second pass refuses it.
   */
  lemma NormalizeTwice(parse: Parser, v: Value)
    requires ParserOk(parse) && Normalize(parse, v).Ok?
    ensures Normalize(parse, Normalize(parse, v).value) == if YearOk(parse, v.Get(Timestamp)) then Normalize(parse, v) else Err(())
  {
    EntriesAgain(parse, v);
    var es := Entries(parse, v);
    if !YearOk(parse, v.Get(Timestamp)) {
      var es' := es[TIMESTAMP_ENTRY := Entry(Timestamp, Bad)];
      assert es'[TIMESTAMP_ENTRY].part.Bad?;
    }
  }

  lemma TwoKeys(m: map<Key, Value>, a: Key, b: Key)
    requires a in m && b in m && a != b
    ensures |m| >= 2
  {
    assert m.Keys == {a, b} + (m.Keys - {a, b});
  }

  /** An embed with nothing but a timestamp that parses is accepted. */
  lemma EdgeAccepted(parse: Parser, v: Value, t: Value)
    requires v == Obj(map[Timestamp := t]) && TimestampPart(parse, Some(t)).Present?
    ensures Normalize(parse, v).Ok?
  {
    assert v.Get(Timestamp) == Some(t) && v.Get(Type) == None;
    EntriesDistinct(parse, v);
    PresentEntries(parse, v);
    AbsentEntries(parse, v);
    OnlyTimestamp(Entries(parse, v));
  }

  lemma PresentEntries(parse: Parser, v: Value)
    requires TypePart(v.Get(Type)).Present? && TimestampPart(parse, v.Get(Timestamp)).Present?
    ensures var es := Entries(parse, v);
            && es[1].key == Type && es[1].part.Present?
            && es[TIMESTAMP_ENTRY].key == Timestamp && es[TIMESTAMP_ENTRY].part.Present?
  {
  }

  /** Members that are not there contribute nothing, the type excepted. */
  lemma AbsentEntries(parse: Parser, v: Value)
    requires v.Obj? && forall k :: k in v.fields ==> k == Timestamp
    ensures forall i :: 0 <= i < |Entries(parse, v)| && i != 1 && i != TIMESTAMP_ENTRY ==> Entries(parse, v)[i].part == Absent
  {
    assert forall k :: k != Timestamp ==> v.Get(k) == None;
  }

  lemma OnlyTimestamp(es: seq<Entry>)
    requires |es| == 11 && DistinctKeys(es)
    requires es[1].key == Type && es[1].part.Present? && es[TIMESTAMP_ENTRY].key == Timestamp && es[TIMESTAMP_ENTRY].part.Present?
    requires forall i :: 0 <= i < |es| && i != 1 && i != TIMESTAMP_ENTRY ==> es[i].part == Absent
    ensures Assemble(es).Ok?
  {
    MembersGet(es);
    assert Member(Members(es), es[1].key).Some? && Member(Members(es), es[TIMESTAMP_ENTRY].key).Some?;
    TwoKeys(Members(es), Type, Timestamp);
    MembersChars(es);
    SilentEntries(es);
  }

  /** Entries that carry no counted text. */
  lemma {:induction false} SilentEntries(es: seq<Entry>)
    requires forall i :: 0 <= i < |es| ==> es[i].part == Absent || es[i].key in {Type, Timestamp}
    ensures EntryChars(es) == 0
  {
    if es != [] { SilentEntries(es[..|es| - 1]); }
  }

  lemma RefusedAgain(parse: Parser, v: Value, text: string)
    requires ParserOk(parse) && v == Obj(map[Timestamp := Str(text)]) && T.Trim(text) == text
    requires parse(text).Some? && !FourDigitYear(parse(text).value)
    ensures Normalize(parse, v).Ok? && Normalize(parse, Normalize(parse, v).value).Err?
  {
    EdgeAccepted(parse, v, Str(text));
    NormalizeTwice(parse, v);
  }

  /** An accepted embed that a second normalisation refuses, for a timestamp text at either edge. */
  lemma RefusedAtTheEdge(text: string) returns (v: Value)
    requires text == BEFORE_YEAR_0_TEXT || text == AFTER_YEAR_9999_TEXT
    ensures ParserOk(EdgeParser) && v == Obj(map[Timestamp := Str(text)])
    ensures Normalize(EdgeParser, v).Ok? && Normalize(EdgeParser, Normalize(EdgeParser, v).value).Err?
  {
    v := Obj(map[Timestamp := Str(text)]);
    EdgeParserOk();
    EdgeTextsTrimmed();
    RefusedAgain(EdgeParser, v, text);
  }

  // ---- the running total ----

  function PartChars(k: Key, part: Part): nat {
    if part.Present? then MemberChars(k, part.value) else 0
  }

  function EntryChars(es: seq<Entry>): nat {
    if es == [] then 0
    else EntryChars(es[..|es| - 1]) + PartChars(es[|es| - 1].key, es[|es| - 1].part)
  }

  lemma PutChars(m: map<Key, Value>, k: Key, part: Part)
    requires k !in m
    ensures TextLength(Put(m, k, part)) == TextLength(m) + PartChars(k, part)
  {
  }

  /** Adding up the members one by one gives the text of the collected embed. */
  lemma {:induction false} MembersChars(es: seq<Entry>)
    requires DistinctKeys(es)
    ensures TextLength(Members(es)) == EntryChars(es)
  {
    if es != [] {
      var init, last := es[..|es| - 1], es[|es| - 1];
      MembersChars(init);
      MembersGet(init);
      assert forall j :: 0 <= j < |init| ==> init[j].key == es[j].key != last.key;
      PutChars(Members(init), last.key, last.part);
    }
  }

  lemma NextEntry(es: seq<Entry>, n: nat)
    requires n < |es|
    ensures Members(es[..n + 1]) == Put(Members(es[..n]), es[n].key, es[n].part)
    ensures EntryChars(es[..n + 1]) == EntryChars(es[..n]) + PartChars(es[n].key, es[n].part)
  {
    assert es[..n + 1][..n] == es[..n];
  }

  lemma FieldCharsSnoc(items: seq<Value>, v: Value)
    ensures FieldChars(items + [v]) == FieldChars(items) + CharsOfField(v)
  {
    assert (items + [v])[..|items|] == items;
  }

  /** A footer: its text is required and counted. */
  method NormalizeFooter(v: Option<Value>, totalText: nat) returns (part: Part, total: nat)
    ensures part == FooterPart(v)
    ensures total == totalText + PartChars(Footer, part) || part.Bad?
  {
    total := totalText;
    if v.None? || v.value.Null? {
      return Absent, total;
    }
    if !Within(v.value, FOOTER_KEYS) {
      return Bad, total;
    }
    var text := TextPart(v.value.Get(Text), 2048);
    if !text.Present? {
      return Bad, total;
    }
    var normalized := map[Text := text.value];
    total := total + |text.value.text|;
    var icon := UrlPart(v.value.Get(IconUrl));
    if icon.Bad? {
      return Bad, total;
    }
    if icon.Present? {
      normalized := normalized[IconUrl := icon.value];
    }
    return Present(Obj(normalized)), total;
  }

  /** An author: the name is required and counted, the two links are neither. */
  method NormalizeAuthor(v: Option<Value>, totalText: nat) returns (part: Part, total: nat)
    ensures part == AuthorPart(v)
    ensures total == totalText + PartChars(Author, part) || part.Bad?
  {
    total := totalText;
    if v.None? || v.value.Null? {
      return Absent, total;
    }
    if !Within(v.value, AUTHOR_KEYS) {
      return Bad, total;
    }
    var name := TextPart(v.value.Get(Name), 256);
    if !name.Present? {
      return Bad, total;
    }
    var normalized := map[Name := name.value];
    total := total + |name.value.text|;
    var url := UrlPart(v.value.Get(Url));
    if url.Bad? {
      return Bad, total;
    }
    if url.Present? {
      normalized := normalized[Url := url.value];
    }
    var icon := UrlPart(v.value.Get(IconUrl));
    if icon.Bad? {
      return Bad, total;
    }
    if icon.Present? {
      normalized := normalized[IconUrl := icon.value];
    }
    return Present(Obj(normalized)), total;
  }

  lemma {:induction false} FieldListBad(items: seq<Value>, i: nat)
    requires i < |items| && !FieldPart(items[i]).Present?
    ensures FieldList(items).None?
  {
    if i < |items| - 1 { FieldListBad(items[..|items| - 1], i); }
  }

  lemma FieldListSnoc(items: seq<Value>, i: nat, field: Value)
    requires i < |items| && FieldList(items[..i]).Some? && FieldPart(items[i]) == Present(field)
    ensures FieldList(items[..i + 1]) == Some(FieldList(items[..i]).value + [field])
  {
    assert items[..i + 1][..i] == items[..i];
  }

  /** One field: name and value are required, `inline` defaults to false. */
  method NormalizeField(v: Value, totalText: nat) returns (field: Part, total: nat)
    ensures field == FieldPart(v)
    ensures field.Present? ==> total == totalText + CharsOfField(field.value)
  {
    total := totalText;
    if !Within(v, FIELD_KEYS) {
      return Bad, total;
    }
    var name := TextPart(v.Get(Name), 256);
    if !name.Present? {
      return Bad, total;
    }
    var text := TextPart(v.Get(FieldValue), 1024);
    if !text.Present? {
      return Bad, total;
    }
    var inline_ := InlinePart(v.Get(Inline));
    if inline_.Bad? {
      return Bad, total;
    }
    total := total + |name.value.text| + |text.value.text|;
    var normalized := map[Name := name.value];
    normalized := normalized[FieldValue := text.value];
    normalized := normalized[Inline := inline_.value];
    return Present(Obj(normalized)), total;
  }

  /** One turn of the loop over the fields. */
  method NormalizeNext(items: seq<Value>, i: nat, before: seq<Value>, totalText: nat)
    returns (ok: bool, normalized: seq<Value>, total: nat)
    requires i < |items| && FieldList(items[..i]) == Some(before)
    ensures ok ==> FieldList(items[..i + 1]) == Some(normalized)
    ensures ok ==> total + FieldChars(before) == totalText + FieldChars(normalized)
    ensures !ok ==> FieldList(items).None?
  {
    var field;
    field, total := NormalizeField(items[i], totalText);
    normalized := before;
    ok := field.Present?;
    if ok {
      FieldListSnoc(items, i, field.value);
      FieldCharsSnoc(before, field.value);
      normalized := before + [field.value];
    } else {
      FieldListBad(items, i);
    }
  }

  /** The loop over the fields. */
  method NormalizeItems(items: seq<Value>, totalText: nat) returns (ok: bool, normalized: seq<Value>, total: nat)
    ensures ok ==> FieldList(items) == Some(normalized) && total == totalText + FieldChars(normalized)
    ensures !ok ==> FieldList(items).None?
  {
    ok, normalized, total := true, [], totalText;
    for i := 0 to |items|
      invariant FieldList(items[..i]) == Some(normalized)
      invariant total == totalText + FieldChars(normalized)
    {
      ok, normalized, total := NormalizeNext(items, i, normalized, total);
      if !ok {
        return;
      }
    }
    assert items[..|items|] == items;
    ok := true;
  }

  method NormalizeFields(v: Option<Value>, totalText: nat) returns (part: Part, total: nat)
    ensures part == FieldsPart(v)
    ensures total == totalText + PartChars(Fields, part) || part.Bad?
  {
    if v.None? || v.value.Null? {
      return Absent, totalText;
    }
    if !v.value.Arr? || |v.value.items| > MAX_FIELDS {
      return Bad, totalText;
    }
    var ok, normalized;
    ok, normalized, total := NormalizeItems(v.value.items, totalText);
    part := if ok then Present(Arr(normalized)) else Bad;
  }

  /** The draft after `n` members: what they contribute and the length of its text. */
  ghost predicate Progress(es: seq<Entry>, n: nat, normalized: map<Key, Value>, total: nat) {
    n <= |es| && normalized == Members(es[..n]) && total == EntryChars(es[..n])
  }

  /** The entries of an embed, one equation each. */
  ghost predicate AreEntries(parse: Parser, v: Value, es: seq<Entry>) {
    && |es| == 11
    && es[0] == Entry(Title, TextPart(v.Get(Title), 256))
    && es[1] == Entry(Type, TypePart(v.Get(Type)))
    && es[2] == Entry(Description, TextPart(v.Get(Description), 4096))
    && es[3] == Entry(Url, UrlPart(v.Get(Url)))
    && es[4] == Entry(Timestamp, TimestampPart(parse, v.Get(Timestamp)))
    && es[5] == Entry(Color, ColorPart(v.Get(Color)))
    && es[6] == Entry(Footer, FooterPart(v.Get(Footer)))
    && es[7] == Entry(Image, MediaPart(v.Get(Image)))
    && es[8] == Entry(Thumbnail, MediaPart(v.Get(Thumbnail)))
    && es[9] == Entry(Author, AuthorPart(v.Get(Author)))
    && es[10] == Entry(Fields, FieldsPart(v.Get(Fields)))
  }

  /** Puts one member into the draft, if it is present. */
  method AddMember(ghost es: seq<Entry>, ghost n: nat, before: map<Key, Value>, ghost beforeTotal: nat, key: Key, part: Part,
                   ghost total: nat) returns (normalized: map<Key, Value>)
    requires n < |es| && es[n] == Entry(key, part) && !part.Bad? && Progress(es, n, before, beforeTotal)
    requires total == beforeTotal + PartChars(key, part)
    ensures Progress(es, n + 1, normalized, total)
  {
    NextEntry(es, n);
    normalized := before;
    if part.Present? {
      normalized := normalized[key := part.value];
    }
  }

  /** A text member of the embed itself, which is counted. */
  method NormalizeText(v: Option<Value>, maxChars: nat, totalText: nat) returns (part: Part, total: nat)
    ensures part == TextPart(v, maxChars)
    ensures total == totalText + PartChars(Title, part) == totalText + PartChars(Description, part) || part.Bad?
  {
    part, total := TextPart(v, maxChars), totalText;
    if part.Present? {
      total := total + |part.value.text|;
    }
  }

  /** Title, type, description and url; a bad member stops the work. */
  method FillTexts(parse: Parser, v: Value, ghost es: seq<Entry>)
    returns (ok: bool, normalized: map<Key, Value>, total: nat)
    requires AreEntries(parse, v, es)
    ensures !ok ==> AnyBad(es)
    ensures ok ==> Progress(es, 4, normalized, total) && forall i :: 0 <= i < 4 ==> !es[i].part.Bad?
  {
    ok, normalized, total := false, map[], 0;
    ghost var before := total;
    var title;
    title, total := NormalizeText(v.Get(Title), 256, total);
    if title.Bad? {
      assert es[0].part.Bad?;
      return;
    }
    normalized := AddMember(es, 0, normalized, before, Title, title, total);

    var kind := TypePart(v.Get(Type));
    if kind.Bad? {
      assert es[1].part.Bad?;
      return;
    }
    normalized := AddMember(es, 1, normalized, total, Type, kind, total);

    before := total;
    var description;
    description, total := NormalizeText(v.Get(Description), 4096, total);
    if description.Bad? {
      assert es[2].part.Bad?;
      return;
    }
    normalized := AddMember(es, 2, normalized, before, Description, description, total);

    var url := UrlPart(v.Get(Url));
    if url.Bad? {
      assert es[3].part.Bad?;
      return;
    }
    normalized := AddMember(es, 3, normalized, total, Url, url, total);
    ok := true;
  }

  /** Timestamp, color, footer and image. */
  method FillDetails(parse: Parser, v: Value, ghost es: seq<Entry>, before: map<Key, Value>, beforeTotal: nat)
    returns (ok: bool, normalized: map<Key, Value>, total: nat)
    requires AreEntries(parse, v, es)
    requires Progress(es, 4, before, beforeTotal)
    ensures !ok ==> AnyBad(es)
    ensures ok ==> Progress(es, 8, normalized, total) && forall i :: 4 <= i < 8 ==> !es[i].part.Bad?
  {
    ok, normalized, total := false, before, beforeTotal;
    var timestamp := TimestampPart(parse, v.Get(Timestamp));
    if timestamp.Bad? {
      assert es[4].part.Bad?;
      return;
    }
    normalized := AddMember(es, 4, normalized, total, Timestamp, timestamp, total);

    var color := ColorPart(v.Get(Color));
    if color.Bad? {
      assert es[5].part.Bad?;
      return;
    }
    normalized := AddMember(es, 5, normalized, total, Color, color, total);

    var footer;
    footer, total := NormalizeFooter(v.Get(Footer), total);
    if footer.Bad? {
      assert es[6].part.Bad?;
      return;
    }
    normalized := AddMember(es, 6, normalized, beforeTotal, Footer, footer, total);

    var image := MediaPart(v.Get(Image));
    if image.Bad? {
      assert es[7].part.Bad?;
      return;
    }
    normalized := AddMember(es, 7, normalized, total, Image, image, total);
    ok := true;
  }

  /** Thumbnail, author and fields. */
  method FillLast(parse: Parser, v: Value, ghost es: seq<Entry>, before: map<Key, Value>, beforeTotal: nat)
    returns (ok: bool, normalized: map<Key, Value>, total: nat)
    requires AreEntries(parse, v, es)
    requires Progress(es, 8, before, beforeTotal)
    ensures !ok ==> AnyBad(es)
    ensures ok ==> Progress(es, 11, normalized, total) && forall i :: 8 <= i < 11 ==> !es[i].part.Bad?
  {
    ok, normalized, total := false, before, beforeTotal;
    var thumbnail := MediaPart(v.Get(Thumbnail));
    if thumbnail.Bad? {
      assert es[8].part.Bad?;
      return;
    }
    normalized := AddMember(es, 8, normalized, total, Thumbnail, thumbnail, total);

    var author;
    author, total := NormalizeAuthor(v.Get(Author), total);
    if author.Bad? {
      assert es[9].part.Bad?;
      return;
    }
    normalized := AddMember(es, 9, normalized, beforeTotal, Author, author, total);

    ghost var withAuthor := total;
    var fields;
    fields, total := NormalizeFields(v.Get(Fields), total);
    if fields.Bad? {
      assert es[10].part.Bad?;
      return;
    }
    normalized := AddMember(es, 10, normalized, withAuthor, Fields, fields, total);
    ok := true;
  }

  method NormalizeEmbed(parse: Parser, v: Value) returns (r: Result<Value, ()>)
    ensures r == Normalize(parse, v)
    ensures r.Ok? ==> r.value.Obj? && TextLength(r.value.fields) <= MAX_TOTAL_TEXT
  {
    if !Within(v, EMBED_KEYS) {
      return Err(());
    }
    ghost var es := Entries(parse, v);
    var ok, normalized, total := FillTexts(parse, v, es);
    if !ok {
      return Err(());
    }
    ok, normalized, total := FillDetails(parse, v, es, normalized, total);
    if !ok {
      return Err(());
    }
    ok, normalized, total := FillLast(parse, v, es, normalized, total);
    if !ok {
      return Err(());
    }
    assert es[..11] == es;
    EntriesDistinct(parse, v);
    MembersChars(es);
    if |normalized| == 1 || total > MAX_TOTAL_TEXT {
      return Err(());
    }
    return Ok(Obj(normalized));
  }
}
