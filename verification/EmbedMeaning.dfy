/**
 Embeds told from what is sent in: exactly which are accepted, and what each of their members
 becomes.
 */
module EmbedMeaning {
  import opened Outcomes
  import T = Text
  import opened Json
  import opened Embed
  import opened Moments
  import opened Timestamps

  // ---- what a member must be ----

  predicate Missing(v: Option<Value>) {
    v.None? || v.value.Null?
  }

  /** A string that is more than white space. */
  predicate Given(v: Option<Value>) {
    v.Some? && v.value.Str? && T.Trim(v.value.text) != ""
  }

  predicate TextOk(v: Option<Value>, maxChars: nat) {
    Missing(v) || (v.value.Str? && |T.Trim(v.value.text)| <= maxChars)
  }

  predicate LinkOk(v: Option<Value>) {
    Missing(v) || (v.value.Str? && (T.Trim(v.value.text) == "" || Link(T.Trim(v.value.text))))
  }

  predicate Link(s: string) {
    ("http://" <= s || "https://" <= s) && T.Utf8Len(s) <= 2048
  }

  predicate TypeOk(v: Option<Value>) {
    v.Some? ==> v.value.Str? && T.Trim(v.value.text) == "rich"
  }

  predicate TimestampOk(parse: Parser, v: Option<Value>) {
    Missing(v) || (v.value.Str? && parse(T.Trim(v.value.text)).Some?)
  }

  predicate ColorOk(v: Option<Value>) {
    Missing(v) || (v.value.Num? && v.value.number.PosInt? && v.value.number.n < 0x1_00_00_00)
  }

  predicate ObjectOf(v: Value, keys: set<Key>) {
    v.Obj? && v.fields.Keys <= keys
  }

  predicate FooterOk(v: Option<Value>) {
    Missing(v) ||
    (ObjectOf(v.value, {Text, IconUrl})
     && Given(v.value.Get(Text)) && TextOk(v.value.Get(Text), 2048) && LinkOk(v.value.Get(IconUrl)))
  }

  predicate MediaOk(v: Option<Value>) {
    Missing(v) || (ObjectOf(v.value, {Url}) && Given(v.value.Get(Url)) && LinkOk(v.value.Get(Url)))
  }

  predicate AuthorOk(v: Option<Value>) {
    Missing(v) ||
    (ObjectOf(v.value, {Name, Url, IconUrl})
     && Given(v.value.Get(Name)) && TextOk(v.value.Get(Name), 256)
     && LinkOk(v.value.Get(Url)) && LinkOk(v.value.Get(IconUrl)))
  }

  predicate FieldOk(v: Value) {
    && ObjectOf(v, {Name, FieldValue, Inline})
    && Given(v.Get(Name)) && TextOk(v.Get(Name), 256)
    && Given(v.Get(FieldValue)) && TextOk(v.Get(FieldValue), 1024)
    && (Missing(v.Get(Inline)) || v.Get(Inline).value.Bool?)
  }

  predicate FieldsOk(v: Option<Value>) {
    Missing(v) ||
    (v.value.Arr? && |v.value.items| <= 25 && forall i :: 0 <= i < |v.value.items| ==> FieldOk(v.value.items[i]))
  }

  /** The counted characters of a text that is sent in. */
  function Chars(v: Option<Value>): nat {
    if Given(v) then |T.Trim(v.value.text)| else 0
  }

  function CharsIn(v: Option<Value>, k: Key): nat {
    if v.Some? then Chars(v.value.Get(k)) else 0
  }

  function CharsOfFields(items: seq<Value>): nat {
    if items == [] then 0
    else
      var last := items[|items| - 1];
      CharsOfFields(items[..|items| - 1]) + Chars(last.Get(Name)) + Chars(last.Get(FieldValue))
  }

  function AllChars(v: Value): nat {
    Chars(v.Get(Title)) + Chars(v.Get(Description)) + CharsIn(v.Get(Footer), Text) + CharsIn(v.Get(Author), Name)
    + (if v.Get(Fields).Some? && v.Get(Fields).value.Arr? then CharsOfFields(v.Get(Fields).value.items) else 0)
  }

  /** Some member besides the type is kept. */
  predicate SomethingKept(v: Value) {
    || Given(v.Get(Title)) || Given(v.Get(Description)) || Given(v.Get(Url))
    || !Missing(v.Get(Timestamp)) || !Missing(v.Get(Color)) || !Missing(v.Get(Footer)) || !Missing(v.Get(Image))
    || !Missing(v.Get(Thumbnail)) || !Missing(v.Get(Author)) || !Missing(v.Get(Fields))
  }

  predicate MembersOk(parse: Parser, v: Value) {
    && TextOk(v.Get(Title), 256) && TypeOk(v.Get(Type)) && TextOk(v.Get(Description), 4096) && LinkOk(v.Get(Url))
    && TimestampOk(parse, v.Get(Timestamp)) && ColorOk(v.Get(Color)) && FooterOk(v.Get(Footer))
    && MediaOk(v.Get(Image)) && MediaOk(v.Get(Thumbnail)) && AuthorOk(v.Get(Author)) && FieldsOk(v.Get(Fields))
  }

  /** Known members only, each as it must be, one that is kept, and at most 6000 counted characters. */
  predicate Acceptable(parse: Parser, v: Value) {
    && ObjectOf(v, {Title, Type, Description, Url, Timestamp, Color, Footer, Image, Thumbnail, Author, Fields})
    && MembersOk(parse, v) && SomethingKept(v) && AllChars(v) <= 6000
  }

  // ---- what a member becomes ----

  /** A text or a link is left out if it is missing or blank, and otherwise comes out trimmed. */
  predicate TextBecomes(v: Option<Value>, r: Option<Value>) {
    if Given(v) then r == Some(Str(T.Trim(v.value.text))) else r == None
  }

  predicate TimestampBecomes(parse: Parser, v: Option<Value>, r: Option<Value>) {
    if Missing(v) then r == None
    else
      && v.value.Str? && parse(T.Trim(v.value.text)).Some?
      && r == Some(Str(MillisText(parse(T.Trim(v.value.text)).value)))
  }

  /** A color comes out as it is. */
  predicate ColorBecomes(v: Option<Value>, r: Option<Value>) {
    r == if Missing(v) then None else v
  }

  predicate FooterBecomes(v: Option<Value>, r: Option<Value>) {
    if Missing(v) then r == None
    else
      && r.Some? && ObjectOf(r.value, {Text, IconUrl})
      && TextBecomes(v.value.Get(Text), r.value.Get(Text)) && TextBecomes(v.value.Get(IconUrl), r.value.Get(IconUrl))
  }

  predicate MediaBecomes(v: Option<Value>, r: Option<Value>) {
    if Missing(v) then r == None
    else r.Some? && ObjectOf(r.value, {Url}) && TextBecomes(v.value.Get(Url), r.value.Get(Url))
  }

  predicate AuthorBecomes(v: Option<Value>, r: Option<Value>) {
    if Missing(v) then r == None
    else
      && r.Some? && ObjectOf(r.value, {Name, Url, IconUrl})
      && TextBecomes(v.value.Get(Name), r.value.Get(Name)) && TextBecomes(v.value.Get(Url), r.value.Get(Url))
      && TextBecomes(v.value.Get(IconUrl), r.value.Get(IconUrl))
  }

  /** A field comes out with both texts trimmed, and `inline` as given or false. */
  predicate FieldBecomes(v: Value, r: Value) {
    && ObjectOf(r, {Name, FieldValue, Inline})
    && TextBecomes(v.Get(Name), r.Get(Name)) && TextBecomes(v.Get(FieldValue), r.Get(FieldValue))
    && r.Get(Inline) == Some(Bool(v.Get(Inline) == Some(Bool(true))))
  }

  predicate FieldsBecome(v: Option<Value>, r: Option<Value>) {
    if Missing(v) then r == None
    else
      && v.value.Arr? && r.Some? && r.value.Arr? && |r.value.items| == |v.value.items|
      && forall i :: 0 <= i < |v.value.items| ==> FieldBecomes(v.value.items[i], r.value.items[i])
  }

  /** What an accepted embed becomes: each member as above, always of type rich, and no other member. */
  predicate Becomes(parse: Parser, v: Value, r: Value) {
    && ObjectOf(r, {Title, Type, Description, Url, Timestamp, Color, Footer, Image, Thumbnail, Author, Fields})
    && TextBecomes(v.Get(Title), r.Get(Title))
    && r.Get(Type) == Some(Str("rich"))
    && TextBecomes(v.Get(Description), r.Get(Description))
    && TextBecomes(v.Get(Url), r.Get(Url))
    && TimestampBecomes(parse, v.Get(Timestamp), r.Get(Timestamp))
    && ColorBecomes(v.Get(Color), r.Get(Color))
    && FooterBecomes(v.Get(Footer), r.Get(Footer))
    && MediaBecomes(v.Get(Image), r.Get(Image))
    && MediaBecomes(v.Get(Thumbnail), r.Get(Thumbnail))
    && AuthorBecomes(v.Get(Author), r.Get(Author))
    && FieldsBecome(v.Get(Fields), r.Get(Fields))
  }

  // ---- part by part ----

  /** A part is bad, present or absent as the member is not acceptable, kept or left out. */
  predicate Says(part: Part, ok: bool, kept: bool) {
    (part.Bad? <==> !ok) && (part.Present? <==> ok && kept)
  }

  lemma TextSays(v: Option<Value>, maxChars: nat)
    ensures var part := TextPart(v, maxChars);
            && Says(part, TextOk(v, maxChars), Given(v))
            && (!part.Bad? ==> TextBecomes(v, Seen(part)) && StringChars(Seen(part)) == Chars(v))
  {
  }

  lemma LinkSays(v: Option<Value>)
    ensures var part := UrlPart(v);
            Says(part, LinkOk(v), Given(v)) && (!part.Bad? ==> TextBecomes(v, Seen(part)))
  {
  }

  lemma FooterSays(v: Option<Value>)
    ensures var part := FooterPart(v);
            && Says(part, FooterOk(v), !Missing(v))
            && (!part.Bad? ==> FooterBecomes(v, Seen(part)) && PartChars(Footer, part) == CharsIn(v, Text))
  {
    if !Missing(v) {
      TextSays(v.value.Get(Text), 2048);
      LinkSays(v.value.Get(IconUrl));
    }
  }

  lemma MediaSays(v: Option<Value>)
    ensures var part := MediaPart(v);
            Says(part, MediaOk(v), !Missing(v)) && (!part.Bad? ==> MediaBecomes(v, Seen(part)))
  {
    if !Missing(v) { LinkSays(v.value.Get(Url)); }
  }

  lemma AuthorSays(v: Option<Value>)
    ensures var part := AuthorPart(v);
            && Says(part, AuthorOk(v), !Missing(v))
            && (!part.Bad? ==> AuthorBecomes(v, Seen(part)) && PartChars(Author, part) == CharsIn(v, Name))
  {
    if !Missing(v) {
      TextSays(v.value.Get(Name), 256);
      LinkSays(v.value.Get(Url));
      LinkSays(v.value.Get(IconUrl));
    }
  }

  lemma FieldSays(v: Value)
    ensures var part := FieldPart(v);
            && Says(part, FieldOk(v), true)
            && (part.Present? ==> FieldBecomes(v, part.value)
                                  && CharsOfField(part.value) == Chars(v.Get(Name)) + Chars(v.Get(FieldValue)))
  {
    TextSays(v.Get(Name), 256);
    TextSays(v.Get(FieldValue), 1024);
  }

  ghost predicate AllFieldsOk(items: seq<Value>) {
    forall i :: 0 <= i < |items| ==> FieldOk(items[i])
  }

  ghost predicate AllFieldsBecome(items: seq<Value>, r: seq<Value>) {
    |r| == |items| && forall i :: 0 <= i < |items| ==> FieldBecomes(items[i], r[i])
  }

  lemma FieldListLast(items: seq<Value>)
    requires items != []
    ensures var init, last := FieldList(items[..|items| - 1]), FieldPart(items[|items| - 1]);
            && (FieldList(items).Some? <==> init.Some? && last.Present?)
            && (init.Some? && last.Present? ==> FieldList(items) == Some(init.value + [last.value]))
  {
  }

  lemma AllOkLast(items: seq<Value>)
    requires items != []
    ensures AllFieldsOk(items) <==> AllFieldsOk(items[..|items| - 1]) && FieldOk(items[|items| - 1])
  {
  }

  lemma BecomeLast(items: seq<Value>, r: seq<Value>, last: Value)
    requires items != [] && AllFieldsBecome(items[..|items| - 1], r) && FieldBecomes(items[|items| - 1], last)
    ensures AllFieldsBecome(items, r + [last])
  {
  }

  ghost predicate ListSays(items: seq<Value>, r: Option<seq<Value>>) {
    && (r.Some? <==> AllFieldsOk(items))
    && (r.Some? ==> AllFieldsBecome(items, r.value) && FieldChars(r.value) == CharsOfFields(items))
  }

  /** One more field at the end. */
  lemma ListSaysMore(items: seq<Value>, init: Option<seq<Value>>, last: Part, r: Option<seq<Value>>)
    requires items != [] && ListSays(items[..|items| - 1], init) && last == FieldPart(items[|items| - 1])
    requires r.Some? <==> init.Some? && last.Present?
    requires init.Some? && last.Present? ==> r == Some(init.value + [last.value])
    ensures ListSays(items, r)
  {
    FieldSays(items[|items| - 1]);
    AllOkLast(items);
    if r.Some? {
      BecomeLast(items, init.value, last.value);
      FieldCharsSnoc(init.value, last.value);
    }
  }

  lemma {:induction false} FieldListSays(items: seq<Value>)
    ensures ListSays(items, FieldList(items))
  {
    if items != [] {
      var init := items[..|items| - 1];
      FieldListSays(init);
      FieldListLast(items);
      ListSaysMore(items, FieldList(init), FieldPart(items[|items| - 1]), FieldList(items));
    }
  }

  lemma FieldsSay(v: Option<Value>)
    ensures var part := FieldsPart(v);
            && Says(part, FieldsOk(v), !Missing(v))
            && (!part.Bad? ==>
                  && FieldsBecome(v, Seen(part))
                  && PartChars(Fields, part) == if v.Some? && v.value.Arr? then CharsOfFields(v.value.items) else 0)
  {
    if v.Some? && v.value.Arr? { FieldListSays(v.value.items); }
  }

  // ---- the whole embed ----

  lemma FirstSay(parse: Parser, v: Value, es: seq<Entry>)
    requires AreEntries(parse, v, es)
    ensures Says(es[0].part, TextOk(v.Get(Title), 256), Given(v.Get(Title)))
    ensures Says(es[1].part, TypeOk(v.Get(Type)), true) && (!es[1].part.Bad? ==> es[1].part == Present(Str("rich")))
    ensures Says(es[2].part, TextOk(v.Get(Description), 4096), Given(v.Get(Description)))
    ensures Says(es[3].part, LinkOk(v.Get(Url)), Given(v.Get(Url)))
    ensures Says(es[4].part, TimestampOk(parse, v.Get(Timestamp)), !Missing(v.Get(Timestamp)))
    ensures Says(es[5].part, ColorOk(v.Get(Color)), !Missing(v.Get(Color)))
  {
    TextSays(v.Get(Title), 256);
    TextSays(v.Get(Description), 4096);
    LinkSays(v.Get(Url));
  }

  lemma LastSay(parse: Parser, v: Value, es: seq<Entry>)
    requires AreEntries(parse, v, es)
    ensures Says(es[6].part, FooterOk(v.Get(Footer)), !Missing(v.Get(Footer)))
    ensures Says(es[7].part, MediaOk(v.Get(Image)), !Missing(v.Get(Image)))
    ensures Says(es[8].part, MediaOk(v.Get(Thumbnail)), !Missing(v.Get(Thumbnail)))
    ensures Says(es[9].part, AuthorOk(v.Get(Author)), !Missing(v.Get(Author)))
    ensures Says(es[10].part, FieldsOk(v.Get(Fields)), !Missing(v.Get(Fields)))
  {
    FooterSays(v.Get(Footer));
    MediaSays(v.Get(Image));
    MediaSays(v.Get(Thumbnail));
    AuthorSays(v.Get(Author));
    FieldsSay(v.Get(Fields));
  }

  /** No entry is bad exactly when all members are as they must be. */
  lemma BadExactly(parse: Parser, v: Value, es: seq<Entry>)
    requires AreEntries(parse, v, es)
    ensures AnyBad(es) <==> !MembersOk(parse, v)
  {
    FirstSay(parse, v, es);
    LastSay(parse, v, es);
    if !MembersOk(parse, v) {
      assert es[0].part.Bad? || es[1].part.Bad? || es[2].part.Bad? || es[3].part.Bad? || es[4].part.Bad? || es[5].part.Bad?
             || es[6].part.Bad? || es[7].part.Bad? || es[8].part.Bad? || es[9].part.Bad? || es[10].part.Bad?;
    }
  }

  /** The collected members, read by key. */
  ghost predicate Collected(es: seq<Entry>, r: map<Key, Value>) {
    && |es| == 11
    && Member(r, Title) == Seen(es[0].part) && Member(r, Type) == Seen(es[1].part)
    && Member(r, Description) == Seen(es[2].part) && Member(r, Url) == Seen(es[3].part)
    && Member(r, Timestamp) == Seen(es[4].part) && Member(r, Color) == Seen(es[5].part)
    && Member(r, Footer) == Seen(es[6].part) && Member(r, Image) == Seen(es[7].part)
    && Member(r, Thumbnail) == Seen(es[8].part) && Member(r, Author) == Seen(es[9].part)
    && Member(r, Fields) == Seen(es[10].part)
    && Within(Obj(r), EMBED_KEYS)
  }

  lemma KnownKeys(es: seq<Entry>, r: map<Key, Value>)
    requires forall i :: 0 <= i < |es| ==> es[i].key in EMBED_KEYS
    requires forall k :: k in r ==> exists i :: 0 <= i < |es| && es[i].key == k
    ensures Within(Obj(r), EMBED_KEYS)
  {
  }

  lemma ReadByKey(parse: Parser, v: Value, es: seq<Entry>, r: map<Key, Value>)
    requires AreEntries(parse, v, es) && Within(Obj(r), EMBED_KEYS)
    requires forall i :: 0 <= i < |es| ==> Member(r, es[i].key) == Seen(es[i].part)
    ensures Collected(es, r)
  {
    assert Member(r, es[0].key) == Seen(es[0].part) && Member(r, es[1].key) == Seen(es[1].part);
    assert Member(r, es[2].key) == Seen(es[2].part) && Member(r, es[3].key) == Seen(es[3].part);
    assert Member(r, es[4].key) == Seen(es[4].part) && Member(r, es[5].key) == Seen(es[5].part);
    assert Member(r, es[6].key) == Seen(es[6].part) && Member(r, es[7].key) == Seen(es[7].part);
    assert Member(r, es[8].key) == Seen(es[8].part) && Member(r, es[9].key) == Seen(es[9].part);
    assert Member(r, es[10].key) == Seen(es[10].part);
  }

  lemma EntriesCollected(parse: Parser, v: Value, es: seq<Entry>)
    requires AreEntries(parse, v, es) && DistinctKeys(es) && forall i :: 0 <= i < |es| ==> es[i].key in EMBED_KEYS
    ensures Collected(es, Members(es))
  {
    var r := Members(es);
    MembersGet(es);
    KnownKeys(es, r);
    ReadByKey(parse, v, es, r);
  }

  lemma TheEntries(parse: Parser, v: Value) returns (es: seq<Entry>)
    ensures es == Entries(parse, v) && AreEntries(parse, v, es) && DistinctKeys(es)
    ensures forall i :: 0 <= i < |es| ==> es[i].key in EMBED_KEYS
  {
    es := Entries(parse, v);
    EntriesDistinct(parse, v);
  }

  lemma OnlyType(r: map<Key, Value>)
    requires Type in r
    ensures |r| == 1 <==> r.Keys == {Type}
  {
    assert |r| == |r.Keys|;
    if |r| == 1 {
      forall k | k in r ensures k == Type {
        if k != Type { TwoKeys(r, k, Type); }
      }
    }
  }

  /** More than the type is collected exactly when something is kept. */
  lemma KeptExactly(parse: Parser, v: Value, es: seq<Entry>, r: map<Key, Value>)
    requires AreEntries(parse, v, es) && MembersOk(parse, v) && Collected(es, r)
    ensures |r| == 1 <==> !SomethingKept(v)
  {
    FirstSay(parse, v, es);
    LastSay(parse, v, es);
    OnlyType(r);
    if SomethingKept(v) {
      assert Title in r || Description in r || Url in r || Timestamp in r || Color in r || Footer in r || Image in r
             || Thumbnail in r || Author in r || Fields in r;
    } else {
      assert r.Keys == {Type};
    }
  }

  lemma CharsExactly(parse: Parser, v: Value, es: seq<Entry>, r: map<Key, Value>)
    requires AreEntries(parse, v, es) && MembersOk(parse, v) && Collected(es, r)
    ensures TextLength(r) == AllChars(v)
  {
    TextSays(v.Get(Title), 256);
    TextSays(v.Get(Description), 4096);
    FooterSays(v.Get(Footer));
    AuthorSays(v.Get(Author));
    FieldsSay(v.Get(Fields));
  }

  lemma KnownMembers(v: Value)
    ensures Within(v, EMBED_KEYS)
            <==> ObjectOf(v, {Title, Type, Description, Url, Timestamp, Color, Footer, Image, Thumbnail, Author, Fields})
  {
  }

  lemma CollectedBecomes(parse: Parser, v: Value, es: seq<Entry>, r: map<Key, Value>)
    requires AreEntries(parse, v, es) && MembersOk(parse, v) && Collected(es, r)
    ensures Becomes(parse, v, Obj(r))
  {
    KnownMembers(Obj(r));
    FirstSay(parse, v, es);
    TextSays(v.Get(Title), 256);
    TextSays(v.Get(Description), 4096);
    LinkSays(v.Get(Url));
    FooterSays(v.Get(Footer));
    MediaSays(v.Get(Image));
    MediaSays(v.Get(Thumbnail));
    AuthorSays(v.Get(Author));
    FieldsSay(v.Get(Fields));
  }

  /** Exactly which embeds are accepted. */
  lemma AcceptedIff(parse: Parser, v: Value)
    ensures Normalize(parse, v).Ok? <==> Acceptable(parse, v)
  {
    KnownMembers(v);
    var es := TheEntries(parse, v);
    BadExactly(parse, v, es);
    if MembersOk(parse, v) {
      EntriesCollected(parse, v, es);
      KeptExactly(parse, v, es, Members(es));
      CharsExactly(parse, v, es, Members(es));
    }
  }

  /** What an accepted embed becomes, member by member. */
  lemma AcceptedBecomes(parse: Parser, v: Value)
    requires Normalize(parse, v).Ok?
    ensures Becomes(parse, v, Normalize(parse, v).value)
  {
    var es := TheEntries(parse, v);
    BadExactly(parse, v, es);
    EntriesCollected(parse, v, es);
    CollectedBecomes(parse, v, es, Members(es));
  }
}
