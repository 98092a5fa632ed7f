/**
 Mentions in message content: the scan for `<@...>` tokens, the policy that says which of
 them count, and the lists of mentioned users and roles that result.
 */
module Mentions {
  import opened Outcomes
  import opened Lists
  import opened Text
  import Json

  /** The UUID library: parsing undoes rendering, and rendered ids hold none of the markers. */
  datatype UuidCodec = UuidCodec(parse: string -> Option<nat>, render: nat -> string)

  ghost predicate CodecOk(u: UuidCodec) {
    forall id: nat :: u.parse(u.render(id)) == Some(id) && Plain(u.render(id))
  }

  predicate Plain(s: string) {
    '>' !in s && s != "" && s[0] != '!' && s[0] != '&'
  }

  function Unary(id: nat): string {
    seq(id + 1, _ => '1')
  }

  /** The assumptions can be met: ids written as that many ones. */
  lemma CodecExists()
    ensures CodecOk(UuidCodec(s => if s == "" then None else Some(|s| - 1), Unary))
  {
    forall id: nat ensures Plain(Unary(id)) && |Unary(id)| == id + 1 { }
  }

  datatype Kind = User | Role

  function TokenId(u: UuidCodec, kind: Kind, token: string): Option<nat> {
    match kind
    case User =>
      var bare := if "!" <= token then token[1..] else token;
      if "&" <= bare then None else u.parse(bare)
    case Role =>
      if "&" <= token then u.parse(token[1..]) else None
  }

  /**
   A token names a user by an id, with or without a `!` before it, that does not start with `&`; it
   names a role by an id after `&`.
   */
  lemma TokenExact(u: UuidCodec, token: string, id: nat)
    ensures TokenId(u, User, token) == Some(id) <==>
              exists t :: (token == "!" + t || (token == t && !("!" <= t))) && !("&" <= t) && u.parse(t) == Some(id)
    ensures TokenId(u, Role, token) == Some(id) <==> exists t :: token == "&" + t && u.parse(t) == Some(id)
  {
    if "!" <= token { assert token == "!" + token[1..]; }
    if "&" <= token { assert token == "&" + token[1..]; }
    forall t | token == "!" + t ensures token[1..] == t { }
    forall t | token == "&" + t ensures token[1..] == t { }
  }

  function IdOf(id: Option<nat>): seq<nat> {
    if id.Some? then [id.value] else []
  }

  // ---- the scan ----

  /** A text that holds no mention marker, followed by one marked token. */
  datatype Piece = Piece(text: string, token: string)

  predicate PieceOk(p: Piece) {
    !Contains(p.text, "<@") && '>' !in p.token
  }

  function Full(p: Piece): string {
    p.text + "<@" + p.token + ">"
  }

  function Join(pieces: seq<Piece>): string {
    if pieces == [] then "" else Full(pieces[0]) + Join(pieces[1..])
  }

  function Collect(u: UuidCodec, kind: Kind, pieces: seq<Piece>): seq<nat> {
    if pieces == [] then []
    else Collect(u, kind, pieces[..|pieces| - 1]) + IdOf(TokenId(u, kind, pieces[|pieces| - 1].token))
  }

  /** What is left when no further mention is complete: no marker, or no `>` after the first. */
  predicate TailOk(tail: string) {
    Find(tail, "<@").Some? ==> '>' !in tail[Find(tail, "<@").value + 2..]
  }

  /** A content split into its pieces and its tail. */
  ghost predicate SplitInto(content: string, pieces: seq<Piece>, tail: string) {
    && content == Join(pieces) + tail
    && (forall i :: 0 <= i < |pieces| ==> PieceOk(pieces[i]))
    && TailOk(tail)
  }

  lemma CollectSnoc(u: UuidCodec, kind: Kind, pieces: seq<Piece>, p: Piece)
    ensures Collect(u, kind, pieces + [p]) == Collect(u, kind, pieces) + IdOf(TokenId(u, kind, p.token))
  {
    assert (pieces + [p])[..|pieces|] == pieces;
  }

  lemma EndFound(token: string, rest: string)
    requires '>' !in token
    ensures Find(token + ">" + rest, ">") == Some(|token|)
  {
    var m := token + ">" + rest;
    assert m[|token|..] == ">" + rest;
    forall k | 0 <= k < |token| ensures !OccursAt(m, ">", k) {
      assert m[k..][0] == token[k];
    }
    FoundAt(m, ">", |token|);
  }

  /** Where the marker and its end are found in a piece followed by anything. */
  lemma PieceFound(p: Piece, rest: string)
    requires PieceOk(p)
    ensures var s := Full(p) + rest;
            && Find(s, "<@") == Some(|p.text|)
            && s[|p.text| + 2..] == p.token + ">" + rest
            && Find(s[|p.text| + 2..], ">") == Some(|p.token|)
  {
    var s := Full(p) + rest;
    var m := p.token + ">" + rest;
    assert s == p.text + ("<@" + m);
    assert s[|p.text|..] == "<@" + m;
    assert s[|p.text| + 2..] == m;
    forall k | 0 <= k < |p.text| ensures !OccursAt(s, "<@", k) {
      assert !OccursAt(p.text, "<@", k);
      if k + 1 < |p.text| {
        assert s[k..][0] == p.text[k..][0] && s[k..][1] == p.text[k..][1];
      } else {
        assert s[k..][1] == '<';
      }
    }
    FoundAt(s, "<@", |p.text|);
    EndFound(p.token, rest);
  }

  /** The text before the first marker is free of markers. */
  lemma BeforeMarker(s: string, start: nat)
    requires Find(s, "<@") == Some(start)
    ensures start + 2 <= |s| && s[start..start + 2] == "<@" && !Contains(s[..start], "<@")
  {
    forall k ensures !OccursAt(s[..start], "<@", k) {
      if OccursAt(s[..start], "<@", k) {
        assert s[..start][k..] <= s[k..];
        assert OccursAt(s, "<@", k);
      }
    }
  }

  lemma BeforeEnd(m: string, end: nat)
    requires Find(m, ">") == Some(end)
    ensures end < |m| && m[end] == '>' && '>' !in m[..end]
  {
    forall k | 0 <= k < end ensures m[k] != '>' {
      assert !OccursAt(m, ">", k);
    }
  }

  lemma NoEnd(m: string)
    requires Find(m, ">").None?
    ensures '>' !in m
  {
    forall k | 0 <= k < |m| ensures m[k] != '>' {
      assert !OccursAt(m, ">", k);
    }
  }

  lemma Regroup(a: string, b: string, c: string)
    ensures a + (b + c) == (a + b) + c
  {
  }

  /** One turn of the scan: the next piece and what is left after it. */
  lemma NextPiece(s: string, start: nat, end: nat)
    requires Find(s, "<@") == Some(start) && start + 2 <= |s| && Find(s[start + 2..], ">") == Some(end)
    ensures end < |s[start + 2..]|
    ensures var m := s[start + 2..];
            var p := Piece(s[..start], m[..end]);
            PieceOk(p) && s == Full(p) + m[end + 1..]
  {
    BeforeMarker(s, start);
    var m := s[start + 2..];
    BeforeEnd(m, end);
    assert s == s[..start] + "<@" + m && m == m[..end] + ">" + m[end + 1..];
  }

  /** The pieces of a content, from the left. */
  function Split(content: string): seq<Piece>
    decreases |content|
  {
    var start := Find(content, "<@");
    if start.None? then []
    else
      BeforeMarker(content, start.value);
      var mention := content[start.value + 2..];
      var end := Find(mention, ">");
      if end.None? then []
      else
        BeforeEnd(mention, end.value);
        [Piece(content[..start.value], mention[..end.value])] + Split(mention[end.value + 1..])
  }

  /** The ids of one kind that a content mentions, in order. */
  function Mentioned(u: UuidCodec, kind: Kind, content: string): seq<nat> {
    Collect(u, kind, Split(content))
  }

  /** The scan terminates on every content and returns the ids of its tokens in order. */
  method ExtractMentionIds(u: UuidCodec, kind: Kind, content: string) returns (ids: seq<nat>)
    ensures ids == Mentioned(u, kind, content)
  {
    ids := [];
    ghost var pieces: seq<Piece> := [];
    var remaining := content;
    while true
      invariant Split(content) == pieces + Split(remaining)
      invariant ids == Collect(u, kind, pieces)
      decreases |remaining|
    {
      var start := Find(remaining, "<@");
      if start.None? {
        break;
      }
      BeforeMarker(remaining, start.value);
      var mention := remaining[start.value + 2..];
      var end := Find(mention, ">");
      if end.None? {
        break;
      }
      BeforeEnd(mention, end.value);
      var token := mention[..end.value];
      var parsed := TokenId(u, kind, token);
      if parsed.Some? {
        ids := ids + [parsed.value];
      }
      ghost var p := Piece(remaining[..start.value], token);
      CollectSnoc(u, kind, pieces, p);
      remaining := mention[end.value + 1..];
      PiecesRegroup(pieces, [p], Split(remaining));
      pieces := pieces + [p];
    }
    assert Split(remaining) == [];
    assert pieces + [] == pieces;
  }

  lemma PiecesRegroup(a: seq<Piece>, b: seq<Piece>, c: seq<Piece>)
    ensures a + (b + c) == (a + b) + c
  {
  }

  /** Every content is its pieces, one after the other, and a tail without a complete mention. */
  lemma {:induction false} SplitSplits(content: string) returns (tail: string)
    ensures SplitInto(content, Split(content), tail)
    decreases |content|
  {
    var start := Find(content, "<@");
    tail := content;
    if start.Some? {
      BeforeMarker(content, start.value);
      var mention := content[start.value + 2..];
      var end := Find(mention, ">");
      if end.None? {
        NoEnd(mention);
        assert Join([]) + tail == content;
      } else {
        NextPiece(content, start.value, end.value);
        var p, rest := Piece(content[..start.value], mention[..end.value]), mention[end.value + 1..];
        tail := SplitSplits(rest);
        SplitHead(p, Split(rest), rest, tail);
      }
    } else {
      assert Join([]) + tail == content;
    }
  }

  lemma SplitHead(p: Piece, pieces: seq<Piece>, rest: string, tail: string)
    requires PieceOk(p) && SplitInto(rest, pieces, tail)
    ensures SplitInto(Full(p) + rest, [p] + pieces, tail)
  {
    assert ([p] + pieces)[1..] == pieces;
    Regroup(Full(p), Join(pieces), tail);
  }

  lemma HeadUnique(a: Piece, ra: string, b: Piece, rb: string)
    requires PieceOk(a) && PieceOk(b) && Full(a) + ra == Full(b) + rb
    ensures a == b && ra == rb
  {
    var s := Full(a) + ra;
    PieceFound(a, ra);
    PieceFound(b, rb);
    assert a.text == s[..|a.text|] && b.text == s[..|b.text|];
    var m := s[|a.text| + 2..];
    assert a.token == m[..|a.token|] && b.token == m[..|b.token|];
    assert ra == m[|a.token| + 1..] && rb == m[|b.token| + 1..];
  }

  /** A content splits in one way only, so the pieces above are the content's own. */
  lemma {:induction false} SplitUnique(content: string, a: seq<Piece>, s: string, b: seq<Piece>, t: string)
    requires SplitInto(content, a, s) && SplitInto(content, b, t)
    ensures a == b && s == t
    decreases |a|
  {
    if a == [] && b == [] {
      assert Join(a) + s == s && Join(b) + t == t;
    } else if a == [] {
      NotTail(b, t);
    } else if b == [] {
      NotTail(a, s);
    } else {
      var ra, rb := Join(a[1..]) + s, Join(b[1..]) + t;
      Regroup(Full(a[0]), Join(a[1..]), s);
      Regroup(Full(b[0]), Join(b[1..]), t);
      HeadUnique(a[0], ra, b[0], rb);
      SplitUnique(ra, a[1..], s, b[1..], t);
    }
  }

  /** A content that still starts with a complete piece is no tail. */
  lemma NotTail(pieces: seq<Piece>, tail: string)
    requires pieces != [] && PieceOk(pieces[0])
    ensures !TailOk(Join(pieces) + tail)
  {
    var rest := Join(pieces[1..]) + tail;
    var content := Join(pieces) + tail;
    Regroup(Full(pieces[0]), Join(pieces[1..]), tail);
    PieceFound(pieces[0], rest);
    assert content[|pieces[0].text| + 2..][|pieces[0].token|] == '>';
  }

  // ---- rendered mentions are read back ----

  datatype Mention = UserMention(id: nat) | NickMention(id: nat) | RoleMention(id: nat)

  function Token(u: UuidCodec, m: Mention): string {
    match m
    case UserMention(id) => u.render(id)
    case NickMention(id) => "!" + u.render(id)
    case RoleMention(id) => "&" + u.render(id)
  }

  /** Text with mentions in it: each mention comes after a text of its own. */
  datatype Span = Span(text: string, mention: Mention)

  function Render(u: UuidCodec, spans: seq<Span>, tail: string): string {
    if spans == [] then tail
    else spans[0].text + "<@" + Token(u, spans[0].mention) + ">" + Render(u, spans[1..], tail)
  }

  predicate OfKind(kind: Kind, m: Mention) {
    kind.Role? <==> m.RoleMention?
  }

  /** The mentioned ids of one kind, in order. */
  function MentionedIds(kind: Kind, spans: seq<Span>): seq<nat> {
    if spans == [] then []
    else MentionedIds(kind, spans[..|spans| - 1])
         + (if OfKind(kind, spans[|spans| - 1].mention) then [spans[|spans| - 1].mention.id] else [])
  }

  function Pieces(u: UuidCodec, spans: seq<Span>): (ps: seq<Piece>)
    ensures |ps| == |spans|
    ensures forall i :: 0 <= i < |ps| ==> ps[i] == Piece(spans[i].text, Token(u, spans[i].mention))
  {
    seq(|spans|, i requires 0 <= i < |spans| => Piece(spans[i].text, Token(u, spans[i].mention)))
  }

  lemma {:induction false} RenderIsJoin(u: UuidCodec, spans: seq<Span>, tail: string)
    ensures Render(u, spans, tail) == Join(Pieces(u, spans)) + tail
  {
    if spans != [] {
      RenderIsJoin(u, spans[1..], tail);
      assert Pieces(u, spans)[1..] == Pieces(u, spans[1..]);
    }
  }

  lemma TokenReadBack(u: UuidCodec, kind: Kind, m: Mention)
    requires CodecOk(u)
    ensures '>' !in Token(u, m)
    ensures TokenId(u, kind, Token(u, m)) == if OfKind(kind, m) then Some(m.id) else None
  {
    var r := u.render(m.id);
    assert u.parse(r) == Some(m.id) && Plain(r);
    assert ("!" + r)[1..] == r && ("&" + r)[1..] == r;
    assert !("!" <= r) && !("&" <= r);
  }

  lemma {:induction false} CollectRendered(u: UuidCodec, kind: Kind, spans: seq<Span>)
    requires CodecOk(u)
    ensures Collect(u, kind, Pieces(u, spans)) == MentionedIds(kind, spans)
  {
    if spans != [] {
      var init, m := spans[..|spans| - 1], spans[|spans| - 1].mention;
      CollectRendered(u, kind, init);
      assert Pieces(u, spans)[..|init|] == Pieces(u, init);
      TokenReadBack(u, kind, m);
    }
  }

  /**
   Parsing undoes rendering: from texts without a marker, interleaved with rendered mentions,
   exactly the ids of the kind asked for are read back, in order.
   */
  lemma RenderedReadBack(u: UuidCodec, kind: Kind, spans: seq<Span>, tail: string)
    requires CodecOk(u)
    requires forall i :: 0 <= i < |spans| ==> !Contains(spans[i].text, "<@")
    requires !Contains(tail, "<@")
    ensures Mentioned(u, kind, Render(u, spans, tail)) == MentionedIds(kind, spans)
  {
    var content := Render(u, spans, tail);
    RenderIsJoin(u, spans, tail);
    forall i | 0 <= i < |spans| ensures PieceOk(Pieces(u, spans)[i]) {
      TokenReadBack(u, kind, spans[i].mention);
    }
    var rest := SplitSplits(content);
    SplitUnique(content, Split(content), rest, Pieces(u, spans), tail);
    CollectRendered(u, kind, spans);
  }

  // ---- lists without repetition ----

  /** Each id where it first occurs. */
  function FirstOccurrences(ids: seq<nat>): seq<nat> {
    if ids == [] then []
    else
      var init, id := FirstOccurrences(ids[..|ids| - 1]), ids[|ids| - 1];
      if id in ids[..|ids| - 1] then init else init + [id]
  }

  /** `a` comes first in the list before `b` does. */
  ghost predicate Before(ids: seq<nat>, a: nat, b: nat) {
    exists i :: 0 <= i < |ids| && ids[i] == a && b !in ids[..i + 1]
  }

  lemma LastSplit(ids: seq<nat>)
    requires ids != []
    ensures ids == ids[..|ids| - 1] + [ids[|ids| - 1]]
  {
  }

  /** The same ids, each once, in the order in which they first occur. */
  lemma {:induction false} FirstOccurrencesMeaning(ids: seq<nat>)
    ensures Distinct(FirstOccurrences(ids))
    ensures forall x :: x in FirstOccurrences(ids) <==> x in ids
    ensures forall i, j :: 0 <= i < j < |FirstOccurrences(ids)| ==>
              Before(ids, FirstOccurrences(ids)[i], FirstOccurrences(ids)[j])
  {
    if ids != [] {
      var init, id := ids[..|ids| - 1], ids[|ids| - 1];
      LastSplit(ids);
      FirstOccurrencesMeaning(init);
      var d := FirstOccurrences(ids);
      forall i, j | 0 <= i < j < |d| ensures Before(ids, d[i], d[j]) {
        if j < |FirstOccurrences(init)| {
          var d' := FirstOccurrences(init);
          assert d'[i] == d[i] && d'[j] == d[j];
          assert Before(init, d'[i], d'[j]);
          var k :| 0 <= k < |init| && init[k] == d[i] && d[j] !in init[..k + 1];
          assert ids[..k + 1] == init[..k + 1] && ids[k] == d[i];
        } else {
          assert d[i] in init;
          var k :| 0 <= k < |init| && init[k] == d[i];
          assert ids[k] == d[i];
          assert ids[..k + 1] == init[..k + 1];
          var cut := init[..k + 1];
          forall x | x in cut ensures x != id { assert x in init; }
        }
      }
    }
  }

  lemma {:induction false} DistinctUnchanged(ids: seq<nat>)
    requires Distinct(ids)
    ensures FirstOccurrences(ids) == ids
  {
    if ids != [] {
      LastSplit(ids);
      DistinctUnchanged(ids[..|ids| - 1]);
    }
  }

  /** Removing repetitions twice removes nothing more. */
  lemma FirstOccurrencesIdempotent(ids: seq<nat>)
    ensures FirstOccurrences(FirstOccurrences(ids)) == FirstOccurrences(ids)
  {
    FirstOccurrencesMeaning(ids);
    DistinctUnchanged(FirstOccurrences(ids));
  }

  method NormalizeMentionIds(ids: seq<nat>) returns (r: seq<nat>)
    ensures r == FirstOccurrences(ids)
  {
    var seen: set<nat> := {};
    r := [];
    for i := 0 to |ids|
      invariant r == FirstOccurrences(ids[..i])
      invariant forall x :: x in seen <==> x in ids[..i]
    {
      assert ids[..i + 1][..i] == ids[..i];
      if ids[i] !in seen {
        r := r + [ids[i]];
        seen := seen + {ids[i]};
      }
      LastSplit(ids[..i + 1]);
    }
    assert ids[..|ids|] == ids;
  }

  // ---- which mentions count ----

  datatype Policy = Policy(
    parseUsers: bool,
    parseRoles: bool,
    parseEveryone: bool,
    explicitUserIds: set<nat>,
    explicitRoleIds: set<nat>
  ) {
    predicate AllowsUser(id: nat) { parseUsers || id in explicitUserIds }
    predicate AllowsRole(id: nat) { parseRoles || id in explicitRoleIds }
  }

  function UuidSet(u: UuidCodec, v: Option<Json.Value>): set<nat> {
    set s | s in Json.Strings(Json.Elements(v)) && u.parse(s).Some? :: u.parse(s).value
  }

  /** Without an `allowed_mentions` member everything counts; with one, only what it names. */
  function PolicyOf(u: UuidCodec, allowed: Option<Json.Value>): Policy {
    if allowed.None? then Policy(true, true, true, {}, {})
    else
      var parse := Json.Strings(Json.Elements(allowed.value.Get(Json.Parse)));
      Policy("users" in parse, "roles" in parse, "everyone" in parse,
             UuidSet(u, allowed.value.Get(Json.Users)), UuidSet(u, allowed.value.Get(Json.Roles)))
  }

  /** A list of JSON values that holds the string. */
  ghost predicate HoldsText(v: Option<Json.Value>, s: string) {
    v.Some? && v.value.Arr? && Json.Str(s) in v.value.items
  }

  /** The member of `allowed_mentions` with this name. */
  function AllowedList(allowed: Option<Json.Value>, key: Json.Key): Option<Json.Value> {
    if allowed.None? then None else allowed.value.Get(key)
  }

  /** Without `allowed_mentions`, or with a `parse` list that holds the word. */
  ghost predicate ParseHolds(allowed: Option<Json.Value>, word: string) {
    allowed.None? || HoldsText(AllowedList(allowed, Json.Parse), word)
  }

  /** A list under this name that holds a text which reads as the id. */
  ghost predicate HoldsId(u: UuidCodec, allowed: Option<Json.Value>, key: Json.Key, id: nat) {
    exists s :: HoldsText(AllowedList(allowed, key), s) && u.parse(s) == Some(id)
  }

  lemma StringsExactly(v: Option<Json.Value>, s: string)
    ensures s in Json.Strings(Json.Elements(v)) <==> HoldsText(v, s)
  {
  }

  lemma UuidSetExactly(u: UuidCodec, allowed: Option<Json.Value>, key: Json.Key, id: nat)
    ensures id in UuidSet(u, AllowedList(allowed, key)) <==> HoldsId(u, allowed, key, id)
  {
    forall s ensures s in Json.Strings(Json.Elements(AllowedList(allowed, key))) <==> HoldsText(AllowedList(allowed, key), s) {
      StringsExactly(AllowedList(allowed, key), s);
    }
  }

  /**
   Without `allowed_mentions` everything counts. With it, users count if `parse` holds "users" or
   their id is under `users`, roles if it holds "roles" or their id is under `roles`, and everyone
   if it holds "everyone".
   */
  lemma PolicyExact(u: UuidCodec, allowed: Option<Json.Value>, id: nat)
    ensures var p := PolicyOf(u, allowed);
            && (p.AllowsUser(id) <==> ParseHolds(allowed, "users") || HoldsId(u, allowed, Json.Users, id))
            && (p.AllowsRole(id) <==> ParseHolds(allowed, "roles") || HoldsId(u, allowed, Json.Roles, id))
            && (p.parseEveryone <==> ParseHolds(allowed, "everyone"))
  {
    if allowed.Some? {
      var parse := AllowedList(allowed, Json.Parse);
      StringsExactly(parse, "users");
      StringsExactly(parse, "roles");
      StringsExactly(parse, "everyone");
      UuidSetExactly(u, allowed, Json.Users, id);
      UuidSetExactly(u, allowed, Json.Roles, id);
    }
  }

  datatype Lookup = Found | Missing | Failed

  /** The answers of the services: membership of the space, the user behind an id, the space's roles. */
  datatype Directory = Directory(isMember: nat -> bool, userById: nat -> Lookup, rolesInSpace: Option<set<nat>>)

  datatype MentionIds = MentionIds(userIds: seq<nat>, roleIds: seq<nat>, everyone: bool)

  predicate UserCounts(d: Directory, p: Policy, id: nat) {
    p.AllowsUser(id) && d.isMember(id) && d.userById(id) == Found
  }

  /** The lookup of this id would fail the whole request. */
  predicate UserFails(d: Directory, p: Policy, id: nat) {
    p.AllowsUser(id) && d.isMember(id) && d.userById(id) == Failed
  }

  function CountingUsers(d: Directory, p: Policy, ids: seq<nat>): seq<nat> {
    if ids == [] then []
    else
      var init, id := CountingUsers(d, p, ids[..|ids| - 1]), ids[|ids| - 1];
      if UserCounts(d, p, id) then init + [id] else init
  }

  function CountingRoles(p: Policy, roles: set<nat>, ids: seq<nat>): seq<nat> {
    if ids == [] then []
    else
      var init, id := CountingRoles(p, roles, ids[..|ids| - 1]), ids[|ids| - 1];
      if p.AllowsRole(id) && id in roles then init + [id] else init
  }

  lemma {:induction false} CountingUsersMembers(d: Directory, p: Policy, ids: seq<nat>)
    ensures forall x :: x in CountingUsers(d, p, ids) <==> x in ids && UserCounts(d, p, x)
  {
    if ids != [] {
      LastSplit(ids);
      CountingUsersMembers(d, p, ids[..|ids| - 1]);
    }
  }

  lemma {:induction false} CountingRolesMembers(p: Policy, roles: set<nat>, ids: seq<nat>)
    ensures forall x :: x in CountingRoles(p, roles, ids) <==> x in ids && p.AllowsRole(x) && x in roles
  {
    if ids != [] {
      CountingRolesMembers(p, roles, ids[..|ids| - 1]);
      LastSplit(ids);
    }
  }

  function HasEveryone(content: string): bool {
    Contains(content, "@everyone") || Contains(content, "@here")
  }

  /** One of the two words stands somewhere in the content. */
  ghost predicate NamesEveryone(content: string) {
    exists k :: OccursAt(content, "@everyone", k) || OccursAt(content, "@here", k)
  }

  lemma EveryoneExactly(content: string)
    ensures HasEveryone(content) <==> NamesEveryone(content)
  {
  }

  /** A user the policy counts, who is a member of the space. */
  ghost predicate MemberAllowed(u: UuidCodec, d: Directory, allowed: Option<Json.Value>, id: nat) {
    (ParseHolds(allowed, "users") || HoldsId(u, allowed, Json.Users, id)) && d.isMember(id)
  }

  /**
   Who is mentioned: each once, the users and roles named in the content that the policy allows and
   that the services know, and everyone if the content says so and the policy allows it.
   */
  ghost predicate ResolvedExactly(u: UuidCodec, d: Directory, content: string, allowed: Option<Json.Value>, r: MentionIds) {
    && Distinct(r.userIds) && Distinct(r.roleIds) && d.rolesInSpace.Some?
    && (forall id :: id in r.userIds <==>
          id in Mentioned(u, User, content) && MemberAllowed(u, d, allowed, id) && d.userById(id).Found?)
    && (forall id :: id in r.roleIds <==>
          id in Mentioned(u, Role, content) && id in d.rolesInSpace.value
          && (ParseHolds(allowed, "roles") || HoldsId(u, allowed, Json.Roles, id)))
    && (r.everyone <==> NamesEveryone(content) && ParseHolds(allowed, "everyone"))
  }

  lemma UserMeans(u: UuidCodec, d: Directory, allowed: Option<Json.Value>, ids: seq<nat>, id: nat)
    ensures var p := PolicyOf(u, allowed);
            id in FirstOccurrences(CountingUsers(d, p, ids)) <==>
            id in ids && MemberAllowed(u, d, allowed, id) && d.userById(id).Found?
  {
    var p := PolicyOf(u, allowed);
    FirstOccurrencesMeaning(CountingUsers(d, p, ids));
    CountingUsersMembers(d, p, ids);
    PolicyExact(u, allowed, id);
  }

  lemma RoleMeans(u: UuidCodec, allowed: Option<Json.Value>, roles: set<nat>, ids: seq<nat>, id: nat)
    ensures var p := PolicyOf(u, allowed);
            id in FirstOccurrences(CountingRoles(p, roles, ids)) <==>
            id in ids && id in roles && (ParseHolds(allowed, "roles") || HoldsId(u, allowed, Json.Roles, id))
  {
    var p := PolicyOf(u, allowed);
    FirstOccurrencesMeaning(CountingRoles(p, roles, ids));
    CountingRolesMembers(p, roles, ids);
    PolicyExact(u, allowed, id);
  }

  lemma ResolvedMeans(u: UuidCodec, d: Directory, content: string, allowed: Option<Json.Value>, roles: set<nat>)
    requires d.rolesInSpace == Some(roles)
    ensures var p := PolicyOf(u, allowed);
            ResolvedExactly(u, d, content, allowed, MentionIds(
              FirstOccurrences(CountingUsers(d, p, Mentioned(u, User, content))),
              FirstOccurrences(CountingRoles(p, roles, Mentioned(u, Role, content))),
              HasEveryone(content) && p.parseEveryone))
  {
    var p, users, tokens := PolicyOf(u, allowed), Mentioned(u, User, content), Mentioned(u, Role, content);
    FirstOccurrencesMeaning(CountingUsers(d, p, users));
    FirstOccurrencesMeaning(CountingRoles(p, roles, tokens));
    forall id: nat { UserMeans(u, d, allowed, users, id); }
    forall id: nat { RoleMeans(u, allowed, roles, tokens, id); }
    EveryoneExactly(content);
    PolicyExact(u, allowed, 0);
  }

  lemma FailureMeans(u: UuidCodec, d: Directory, content: string, allowed: Option<Json.Value>)
    ensures (exists x :: x in Mentioned(u, User, content) && UserFails(d, PolicyOf(u, allowed), x)) <==>
            exists id :: id in Mentioned(u, User, content) && MemberAllowed(u, d, allowed, id) && d.userById(id).Failed?
  {
    forall id: nat ensures UserFails(d, PolicyOf(u, allowed), id) <==> MemberAllowed(u, d, allowed, id) && d.userById(id).Failed? {
      PolicyExact(u, allowed, id);
    }
  }

  /** One more id at the end of a list without repetitions. */
  lemma SnocOccurrence(ids: seq<nat>, id: nat)
    ensures FirstOccurrences(ids + [id]) ==
              if id in FirstOccurrences(ids) then FirstOccurrences(ids) else FirstOccurrences(ids) + [id]
  {
    assert (ids + [id])[..|ids|] == ids;
    FirstOccurrencesMeaning(ids);
  }

  method ResolveUsers(d: Directory, p: Policy, ids: seq<nat>) returns (r: Option<seq<nat>>)
    ensures r.None? <==> exists x :: x in ids && UserFails(d, p, x)
    ensures r.Some? ==> r.value == FirstOccurrences(CountingUsers(d, p, ids))
  {
    var users := [];
    for i := 0 to |ids|
      invariant users == FirstOccurrences(CountingUsers(d, p, ids[..i]))
      invariant forall x :: x in ids[..i] ==> !UserFails(d, p, x)
    {
      var id, before := ids[i], CountingUsers(d, p, ids[..i]);
      assert ids[..i + 1][..i] == ids[..i];
      LastSplit(ids[..i + 1]);
      SnocOccurrence(before, id);
      CountingUsersMembers(d, p, ids[..i]);
      FirstOccurrencesMeaning(before);
      if !p.AllowsUser(id) || id in users {
        continue;
      }
      if d.isMember(id) {
        match d.userById(id) {
          case Failed =>
            assert id in ids && UserFails(d, p, id);
            return None;
          case Found => users := users + [id];
          case Missing =>
        }
      }
    }
    assert ids[..|ids|] == ids;
    return Some(users);
  }

  method ResolveRoles(p: Policy, roles: set<nat>, ids: seq<nat>) returns (r: seq<nat>)
    ensures r == FirstOccurrences(CountingRoles(p, roles, ids))
  {
    r := [];
    for i := 0 to |ids|
      invariant r == FirstOccurrences(CountingRoles(p, roles, ids[..i]))
    {
      assert ids[..i + 1][..i] == ids[..i];
      SnocOccurrence(CountingRoles(p, roles, ids[..i]), ids[i]);
      if p.AllowsRole(ids[i]) && ids[i] in roles && ids[i] !in r {
        r := r + [ids[i]];
      }
    }
    assert ids[..|ids|] == ids;
  }

  /**
   The mentions of a message: of each kind, the first occurrences of the mentioned ids that
   the policy allows and that belong to the space. It fails exactly when the space's roles
   cannot be listed or an allowed member's user record cannot be read.
   */
  method ResolveAllowedMentions(u: UuidCodec, d: Directory, content: string, allowed: Option<Json.Value>)
    returns (r: Result<MentionIds, ()>)
    ensures var p, users := PolicyOf(u, allowed), Mentioned(u, User, content);
            r.Err? <==> (exists x :: x in users && UserFails(d, p, x)) || d.rolesInSpace.None?
    ensures var p, users, roles := PolicyOf(u, allowed), Mentioned(u, User, content), Mentioned(u, Role, content);
            r.Ok? ==>
              && r.value.userIds == FirstOccurrences(CountingUsers(d, p, users))
              && d.rolesInSpace.Some?
              && r.value.roleIds == FirstOccurrences(CountingRoles(p, d.rolesInSpace.value, roles))
              && r.value.everyone == (HasEveryone(content) && p.parseEveryone)
    ensures r.Ok? ==> ResolvedExactly(u, d, content, allowed, r.value)
    ensures r.Err? <==>
              || d.rolesInSpace.None?
              || exists id :: id in Mentioned(u, User, content) && MemberAllowed(u, d, allowed, id) && d.userById(id).Failed?
  {
    FailureMeans(u, d, content, allowed);
    var p := PolicyOf(u, allowed);
    var mentioned := ExtractMentionIds(u, User, content);
    var users := ResolveUsers(d, p, mentioned);
    if users.None? || d.rolesInSpace.None? {
      return Err(());
    }
    ResolvedMeans(u, d, content, allowed, d.rolesInSpace.value);
    var tokens := ExtractMentionIds(u, Role, content);
    var roles := ResolveRoles(p, d.rolesInSpace.value, tokens);
    return Ok(MentionIds(users.value, roles, HasEveryone(content) && p.parseEveryone));
  }
}
