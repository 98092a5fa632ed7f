/** The normal form of embeds, described by itself: exactly these embeds are left as they are. */
module EmbedForm {
  import opened Outcomes
  import T = Text
  import opened Json
  import opened Embed
  import opened Moments
  import opened Timestamps

  predicate GoodText(x: Value, maxChars: nat) {
    x.Str? && T.Trimmed(x.text) && 1 <= |x.text| <= maxChars
  }

  predicate GoodUrl(x: Value) {
    x.Str? && T.Trimmed(x.text) && x.text != "" && IsHttpUrl(x.text)
  }

  /** An optional member. */
  predicate Optional(v: Option<Value>, good: Value -> bool) {
    v.Some? ==> good(v.value)
  }

  predicate GoodFooter(x: Value) {
    && Within(x, FOOTER_KEYS)
    && Text in x.fields && GoodText(x.fields[Text], 2048)
    && Optional(x.Get(IconUrl), GoodUrl)
  }

  predicate GoodMedia(x: Value) {
    Within(x, MEDIA_KEYS) && Url in x.fields && GoodUrl(x.fields[Url])
  }

  predicate GoodAuthor(x: Value) {
    && Within(x, AUTHOR_KEYS)
    && Name in x.fields && GoodText(x.fields[Name], 256)
    && Optional(x.Get(Url), GoodUrl) && Optional(x.Get(IconUrl), GoodUrl)
  }

  predicate GoodField(x: Value) {
    && Within(x, FIELD_KEYS)
    && Name in x.fields && GoodText(x.fields[Name], 256)
    && FieldValue in x.fields && GoodText(x.fields[FieldValue], 1024)
    && Inline in x.fields && x.fields[Inline].Bool?
  }

  predicate GoodFields(x: Value) {
    x.Arr? && |x.items| <= MAX_FIELDS && forall i :: 0 <= i < |x.items| ==> GoodField(x.items[i])
  }

  /** A timestamp in the form the library renders. */
  predicate GoodTimestamp(parse: Parser, x: Value) {
    x.Str? && parse(T.Trim(x.text)).Some? && MillisText(parse(T.Trim(x.text)).value) == x.text
  }

  predicate GoodColor(x: Value) {
    x.Num? && x.number.PosInt? && x.number.n <= MAX_COLOR
  }

  /** What each member may hold. */
  predicate GoodMember(parse: Parser, k: Key, x: Value) {
    match k
    case Title => GoodText(x, 256)
    case Type => x == Str("rich")
    case Description => GoodText(x, 4096)
    case Url => GoodUrl(x)
    case Timestamp => GoodTimestamp(parse, x)
    case Color => GoodColor(x)
    case Footer => GoodFooter(x)
    case Image => GoodMedia(x)
    case Thumbnail => GoodMedia(x)
    case Author => GoodAuthor(x)
    case Fields => GoodFields(x)
    case _ => false
  }

  /** Known members only, each in its form, the type and at least one more, within the text budget. */
  predicate WellFormed(parse: Parser, v: Value) {
    && Within(v, EMBED_KEYS)
    && (forall k :: k in v.fields ==> GoodMember(parse, k, v.fields[k]))
    && Type in v.fields && |v.fields| >= 2
    && TextLength(v.fields) <= MAX_TOTAL_TEXT
  }

  // ---- member by member ----

  lemma TrimFixed(s: string)
    ensures T.Trim(s) == s <==> T.Trimmed(s)
  {
    T.TrimIsTrimmed(s);
  }

  lemma TextFixed(x: Value, maxChars: nat)
    ensures TextPart(Some(x), maxChars) == Present(x) <==> GoodText(x, maxChars)
  {
    if x.Str? { TrimFixed(x.text); }
  }

  lemma UrlFixed(x: Value)
    ensures UrlPart(Some(x)) == Present(x) <==> GoodUrl(x)
  {
    if x.Str? { TrimFixed(x.text); }
  }

  /** An optional link is left as it is. */
  lemma LinkFixed(v: Option<Value>)
    ensures (!UrlPart(v).Bad? && Seen(UrlPart(v)) == v) <==> Optional(v, GoodUrl)
  {
    if v.Some? { UrlFixed(v.value); }
  }

  lemma FooterFixed(x: Value)
    ensures FooterPart(Some(x)) == Present(x) <==> GoodFooter(x)
  {
    if Within(x, FOOTER_KEYS) {
      if Text in x.fields { TextFixed(x.fields[Text], 2048); }
      LinkFixed(x.Get(IconUrl));
      if GoodFooter(x) {
        assert Put(map[Text := x.fields[Text]], IconUrl, UrlPart(x.Get(IconUrl))) == x.fields;
      }
      if FooterPart(Some(x)) == Present(x) {
        assert x.fields == Put(map[Text := TextPart(x.Get(Text), 2048).value], IconUrl, UrlPart(x.Get(IconUrl)));
        assert x.Get(IconUrl) == Seen(UrlPart(x.Get(IconUrl)));
      }
    }
  }

  lemma MediaFixed(x: Value)
    ensures MediaPart(Some(x)) == Present(x) <==> GoodMedia(x)
  {
    if Within(x, MEDIA_KEYS) && Url in x.fields {
      UrlFixed(x.fields[Url]);
      if GoodMedia(x) { assert map[Url := x.fields[Url]] == x.fields; }
      if MediaPart(Some(x)) == Present(x) { assert x.fields == map[Url := UrlPart(x.Get(Url)).value]; }
    }
  }

  lemma AuthorFixed(x: Value)
    ensures AuthorPart(Some(x)) == Present(x) <==> GoodAuthor(x)
  {
    if Within(x, AUTHOR_KEYS) {
      var url, icon := UrlPart(x.Get(Url)), UrlPart(x.Get(IconUrl));
      if Name in x.fields { TextFixed(x.fields[Name], 256); }
      LinkFixed(x.Get(Url));
      LinkFixed(x.Get(IconUrl));
      if GoodAuthor(x) {
        assert Put(Put(map[Name := x.fields[Name]], Url, url), IconUrl, icon) == x.fields;
      }
      if AuthorPart(Some(x)) == Present(x) {
        assert x.fields == Put(Put(map[Name := TextPart(x.Get(Name), 256).value], Url, url), IconUrl, icon);
        assert x.Get(Url) == Seen(url) && x.Get(IconUrl) == Seen(icon);
      }
    }
  }

  lemma FieldFixed(x: Value)
    ensures FieldPart(x) == Present(x) <==> GoodField(x)
  {
    if Within(x, FIELD_KEYS) {
      if Name in x.fields { TextFixed(x.fields[Name], 256); }
      if FieldValue in x.fields { TextFixed(x.fields[FieldValue], 1024); }
      if GoodField(x) {
        assert map[Name := x.fields[Name], FieldValue := x.fields[FieldValue], Inline := x.fields[Inline]] == x.fields;
      }
      if FieldPart(x) == Present(x) {
        assert x.fields == map[Name := TextPart(x.Get(Name), 256).value, FieldValue := TextPart(x.Get(FieldValue), 1024).value,
                               Inline := InlinePart(x.Get(Inline)).value];
      }
    }
  }

  ghost predicate AllGood(items: seq<Value>) {
    forall i :: 0 <= i < |items| ==> GoodField(items[i])
  }

  lemma AllGoodLast(items: seq<Value>)
    requires items != []
    ensures AllGood(items) <==> AllGood(items[..|items| - 1]) && GoodField(items[|items| - 1])
  {
    var init := items[..|items| - 1];
    assert forall i :: 0 <= i < |init| ==> init[i] == items[i];
  }

  lemma SameEnds(a: seq<Value>, x: Value, b: seq<Value>, y: Value)
    requires |a| == |b|
    ensures a + [x] == b + [y] <==> a == b && x == y
  {
    if a + [x] == b + [y] {
      assert (a + [x])[..|a|] == a && (b + [y])[..|b|] == b;
      assert (a + [x])[|a|] == x && (b + [y])[|b|] == y;
    }
  }

  lemma {:induction false} FieldListFixed(items: seq<Value>)
    ensures FieldList(items) == Some(items) <==> AllGood(items)
    ensures FieldList(items).Some? ==> |FieldList(items).value| == |items|
  {
    if items != [] {
      var init, last := items[..|items| - 1], items[|items| - 1];
      FieldListFixed(init);
      FieldFixed(last);
      AllGoodLast(items);
      assert items == init + [last];
      if FieldList(items).Some? { SameEnds(FieldList(init).value, FieldPart(last).value, init, last); }
    }
  }

  lemma FieldsFixed(x: Value)
    ensures FieldsPart(Some(x)) == Present(x) <==> GoodFields(x)
  {
    if x.Arr? { FieldListFixed(x.items); }
  }

  lemma TypeFixed(x: Value)
    ensures TypePart(Some(x)) == Present(x) <==> x == Str("rich")
  {
    T.PrintableEnds("rich");
  }

  lemma TextEntryFixed(parse: Parser, v: Value, i: nat)
    requires i < 4 && v.Get(Entries(parse, v)[i].key).Some?
    ensures var e := Entries(parse, v)[i];
            e.part == Present(v.Get(e.key).value) <==> GoodMember(parse, e.key, v.Get(e.key).value)
  {
    var x := v.Get(Entries(parse, v)[i].key).value;
    if i == 0 { TextFixed(x, 256); }
    else if i == 1 { TypeFixed(x); }
    else if i == 2 { TextFixed(x, 4096); }
    else { UrlFixed(x); }
  }

  lemma TimestampFixed(parse: Parser, x: Value)
    ensures TimestampPart(parse, Some(x)) == Present(x) <==> GoodTimestamp(parse, x)
  {
  }

  lemma ColorFixed(x: Value)
    ensures ColorPart(Some(x)) == Present(x) <==> GoodColor(x)
  {
  }

  lemma DetailEntryFixed(parse: Parser, v: Value, i: nat)
    requires 4 <= i < 8 && v.Get(Entries(parse, v)[i].key).Some?
    ensures var e := Entries(parse, v)[i];
            e.part == Present(v.Get(e.key).value) <==> GoodMember(parse, e.key, v.Get(e.key).value)
  {
    var x := v.Get(Entries(parse, v)[i].key).value;
    if i == 4 { TimestampFixed(parse, x); }
    else if i == 5 { ColorFixed(x); }
    else if i == 6 { FooterFixed(x); }
    else { MediaFixed(x); }
  }

  lemma LastEntryFixed(parse: Parser, v: Value, i: nat)
    requires 8 <= i < 11 && v.Get(Entries(parse, v)[i].key).Some?
    ensures var e := Entries(parse, v)[i];
            e.part == Present(v.Get(e.key).value) <==> GoodMember(parse, e.key, v.Get(e.key).value)
  {
    var x := v.Get(Entries(parse, v)[i].key).value;
    if i == 8 { MediaFixed(x); } else if i == 9 { AuthorFixed(x); } else { FieldsFixed(x); }
  }

  /** A member that is there is left as it is exactly when it is in its form. */
  lemma EntryFixed(parse: Parser, v: Value, i: nat)
    requires i < |Entries(parse, v)| && v.Get(Entries(parse, v)[i].key).Some?
    ensures var e := Entries(parse, v)[i];
            e.part == Present(v.Get(e.key).value) <==> GoodMember(parse, e.key, v.Get(e.key).value)
  {
    if i < 4 { TextEntryFixed(parse, v, i); } else if i < 8 { DetailEntryFixed(parse, v, i); } else { LastEntryFixed(parse, v, i); }
  }

  /** A member that is not there contributes nothing, the type excepted. */
  lemma EntryMissing(parse: Parser, v: Value, i: nat)
    requires i < |Entries(parse, v)| && v.Get(Entries(parse, v)[i].key).None?
    ensures Entries(parse, v)[i].part == if Entries(parse, v)[i].key == Type then Present(Str("rich")) else Absent
  {
  }

  lemma KeyHasEntry(parse: Parser, v: Value, k: Key) returns (i: nat)
    requires k in EMBED_KEYS
    ensures i < |Entries(parse, v)| && Entries(parse, v)[i].key == k
  {
    match k
    case Title => i := 0;
    case Type => i := 1;
    case Description => i := 2;
    case Url => i := 3;
    case Timestamp => i := 4;
    case Color => i := 5;
    case Footer => i := 6;
    case Image => i := 7;
    case Thumbnail => i := 8;
    case Author => i := 9;
    case Fields => i := 10;
  }

  /** All members are left as they are. */
  ghost predicate AllFixed(v: Value, es: seq<Entry>) {
    forall i :: 0 <= i < |es| ==> !es[i].part.Bad? && Seen(es[i].part) == v.Get(es[i].key)
  }

  lemma FixedMembers(parse: Parser, v: Value)
    requires Within(v, EMBED_KEYS) && AllFixed(v, Entries(parse, v))
    ensures Members(Entries(parse, v)) == v.fields
  {
    var es := Entries(parse, v);
    EntriesDistinct(parse, v);
    MembersGet(es);
    var m := Members(es);
    forall k ensures Member(m, k) == Member(v.fields, k) {
      if k in EMBED_KEYS {
        var i := KeyHasEntry(parse, v, k);
        assert Member(m, es[i].key) == Seen(es[i].part) == v.Get(es[i].key);
      }
    }
    assert forall k :: k in m <==> k in v.fields by {
      forall k ensures k in m <==> k in v.fields { assert Member(m, k) == Member(v.fields, k); }
    }
    forall k | k in m ensures m[k] == v.fields[k] { assert Member(m, k) == Member(v.fields, k); }
  }

  lemma WellFormedIsFixed(parse: Parser, v: Value)
    requires WellFormed(parse, v)
    ensures Normalize(parse, v) == Ok(v)
  {
    var es := Entries(parse, v);
    EntriesDistinct(parse, v);
    forall i | 0 <= i < |es| ensures !es[i].part.Bad? && Seen(es[i].part) == v.Get(es[i].key) {
      if v.Get(es[i].key).Some? { EntryFixed(parse, v, i); } else { EntryMissing(parse, v, i); }
    }
    FixedMembers(parse, v);
  }

  /** Each member of an embed that is left as it is. */
  lemma FixedMember(parse: Parser, v: Value, k: Key)
    requires v.Obj? && Members(Entries(parse, v)) == v.fields && k in EMBED_KEYS
    ensures k in v.fields ==> GoodMember(parse, k, v.fields[k])
    ensures k == Type ==> k in v.fields
  {
    var es := Entries(parse, v);
    EntriesDistinct(parse, v);
    MembersGet(es);
    var i := KeyHasEntry(parse, v, k);
    assert Member(v.fields, es[i].key) == Seen(es[i].part);
    if k in v.fields { EntryFixed(parse, v, i); } else { EntryMissing(parse, v, i); }
  }

  lemma FixedIsWellFormed(parse: Parser, v: Value)
    requires Normalize(parse, v) == Ok(v)
    ensures WellFormed(parse, v)
  {
    forall k | k in EMBED_KEYS
      ensures (k in v.fields ==> GoodMember(parse, k, v.fields[k])) && (k == Type ==> k in v.fields)
    {
      FixedMember(parse, v, k);
    }
    assert Type in EMBED_KEYS;
    assert v.fields != map[];
  }

  /**
   The embeds that normalisation leaves as they are, and hence everything it returns that can
   be normalised again, are exactly the well-formed ones.
   */
  lemma FixedPoints(parse: Parser, v: Value)
    ensures Normalize(parse, v) == Ok(v) <==> WellFormed(parse, v)
  {
    if WellFormed(parse, v) {
      WellFormedIsFixed(parse, v);
    } else if Normalize(parse, v) == Ok(v) {
      FixedIsWellFormed(parse, v);
    }
  }

  /** Whatever is accepted, a timestamp outside the years of four digits excepted, comes out well-formed. */
  lemma AcceptedIsWellFormed(parse: Parser, v: Value)
    requires ParserOk(parse) && Normalize(parse, v).Ok? && YearOk(parse, v.Get(Timestamp))
    ensures WellFormed(parse, Normalize(parse, v).value)
  {
    NormalizeTwice(parse, v);
    FixedPoints(parse, Normalize(parse, v).value);
  }
}
