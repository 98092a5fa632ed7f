/**
 The in-memory store behind the compatibility gateway: one record per session and, per
 session, the replay log of the dispatches that were queued for it.
 */
module GatewayStore {
  import opened Lists

  /** Session ids, client tokens and payload contents are compared and stored, never inspected. */
  type SessionId = nat
  type Payload = nat

  datatype Bot = Bot(applicationId: nat, organizationId: nat, botUserId: nat)

  datatype Session = Session(
    sessionId: SessionId,
    applicationId: nat,
    organizationId: nat,
    botUserId: nat,
    sequence: int,
    intents: bv64
  ) {
    predicate OwnedBy(bot: Bot) {
      && applicationId == bot.applicationId
      && organizationId == bot.organizationId
      && botUserId == bot.botUserId
    }
  }

  /**
   The dispatches the socket loop produces, one per forwarded realtime event type:
   message.created/updated/deleted, channel.created/updated/deleted, space.updated,
   space.deleted, space.bot.invited, space.member.added/removed, interaction.created.
   */
  datatype EventKind =
    | MessageCreate | MessageUpdate | MessageDelete
    | ChannelCreate | ChannelUpdate | ChannelDelete
    | GuildUpdate | GuildDelete | GuildCreate
    | GuildMemberAdd | GuildMemberRemove
    | InteractionCreate

  datatype ReplayEvent = ReplayEvent(sessionId: SessionId, sequence: int, kind: EventKind, payload: Payload)

  /** The session was created for this application, organization and bot user. */
  predicate Owns(bot: Bot, s: Session) {
    bot == Bot(s.applicationId, s.organizationId, s.botUserId)
  }

  datatype ResumeResult = Resumed(session: Session) | InvalidSequence | NotFound

  datatype Store = Store(sessions: map<SessionId, Session>, replay: map<SessionId, seq<ReplayEvent>>)

  function Max(a: int, b: int): int { if a >= b then a else b }

  function LogOf(st: Store, sid: SessionId): seq<ReplayEvent> {
    if sid in st.replay then st.replay[sid] else []
  }

  // ---- the replay log ----

  ghost predicate StrictlyIncreasing(log: seq<ReplayEvent>) {
    forall i, j :: 0 <= i < j < |log| ==> log[i].sequence < log[j].sequence
  }

  ghost predicate AllBelow(log: seq<ReplayEvent>, bound: int) {
    forall i :: 0 <= i < |log| ==> log[i].sequence < bound
  }

  /** Index of the first event with the given sequence number, or the length of the log. */
  function IndexOfSequence(log: seq<ReplayEvent>, n: int): (i: nat)
    ensures i <= |log|
    ensures i < |log| ==> log[i].sequence == n
    ensures forall k :: 0 <= k < i ==> log[k].sequence != n
  {
    if log == [] || log[0].sequence == n then 0 else 1 + IndexOfSequence(log[1..], n)
  }

  /** One step of a stable sort: the event goes after every event that does not exceed it. */
  function InsertBySequence(sorted: seq<ReplayEvent>, e: ReplayEvent): seq<ReplayEvent> {
    if sorted == [] || sorted[|sorted| - 1].sequence <= e.sequence then sorted + [e]
    else InsertBySequence(sorted[..|sorted| - 1], e) + [sorted[|sorted| - 1]]
  }

  function SortBySequence(log: seq<ReplayEvent>): seq<ReplayEvent> {
    if log == [] then []
    else InsertBySequence(SortBySequence(log[..|log| - 1]), log[|log| - 1])
  }

  function LogAppend(log: seq<ReplayEvent>, e: ReplayEvent): seq<ReplayEvent> {
    var i := IndexOfSequence(log, e.sequence);
    if i < |log| then log[i := e] else SortBySequence(log + [e])
  }

  /** The logged events above a sequence number, in log order. */
  function After(log: seq<ReplayEvent>, n: int): seq<ReplayEvent> {
    if log == [] then []
    else (if log[0].sequence > n then [log[0]] else []) + After(log[1..], n)
  }

  /** The logged events up to and including a sequence number, in log order. */
  function UpTo(log: seq<ReplayEvent>, n: int): seq<ReplayEvent> {
    if log == [] then []
    else (if log[0].sequence <= n then [log[0]] else []) + UpTo(log[1..], n)
  }

  /**
   At most `limit` logged events above `n`; all of them when there is room, and in an ordered
   log the ones left out are the highest.
   */
  ghost predicate FirstAfter(log: seq<ReplayEvent>, n: int, limit: nat, r: seq<ReplayEvent>) {
    && |r| <= limit
    && (forall e :: e in r ==> e in log && e.sequence > n)
    && (|r| < limit ==> forall e :: e in log && e.sequence > n ==> e in r)
    && (StrictlyIncreasing(log) ==>
          && StrictlyIncreasing(r)
          && forall e, x :: e in log && e.sequence > n && e !in r && x in r ==> x.sequence < e.sequence)
  }

  // ---- the store operations ----

  function CreateSession(st: Store, s: Session): Store {
    st.(sessions := st.sessions[s.sessionId := s])
  }

  function UpdateSequence(st: Store, sid: SessionId, n: int): Store {
    if sid in st.sessions
    then st.(sessions := st.sessions[sid := st.sessions[sid].(sequence := Max(st.sessions[sid].sequence, n))])
    else st
  }

  function ResumeSession(st: Store, sid: SessionId, bot: Bot, clientSequence: int): (Store, ResumeResult) {
    if sid !in st.sessions then (st, NotFound)
    else
      var s := st.sessions[sid];
      if !s.OwnedBy(bot) then (st, NotFound)
      else if clientSequence > s.sequence then (st, InvalidSequence)
      else
        var s' := s.(sequence := Max(s.sequence, clientSequence));
        (st.(sessions := st.sessions[sid := s']), Resumed(s'))
  }

  function AppendReplayEvent(st: Store, e: ReplayEvent): Store {
    st.(replay := st.replay[e.sessionId := LogAppend(LogOf(st, e.sessionId), e)])
  }

  function ListReplayEventsAfter(st: Store, sid: SessionId, n: int, limit: nat): seq<ReplayEvent> {
    Take(After(LogOf(st, sid), n), limit)
  }

  /** The store object; the mutexes become sequential method calls. */
  class MemoryGatewaySessionStore {
    var sessions: map<SessionId, Session>
    var replayEvents: map<SessionId, seq<ReplayEvent>>

    ghost function Contents(): Store
      reads this
    {
      Store(sessions, replayEvents)
    }

    constructor ()
      ensures Contents() == Store(map[], map[])
    {
      sessions, replayEvents := map[], map[];
    }

    method Create(s: Session)
      modifies this
      ensures Contents() == CreateSession(old(Contents()), s)
    {
      sessions := sessions[s.sessionId := s];
    }

    method Update(sid: SessionId, n: int)
      modifies this
      ensures Contents() == UpdateSequence(old(Contents()), sid, n)
      ensures sid !in old(sessions) ==> Contents() == old(Contents())
      ensures sid in old(sessions) ==>
                && replayEvents == old(replayEvents) && sid in sessions
                && sessions == old(sessions)[sid := old(sessions)[sid].(sequence := sessions[sid].sequence)]
                && sessions[sid].sequence >= n && sessions[sid].sequence >= old(sessions)[sid].sequence
                && sessions[sid].sequence in {n, old(sessions)[sid].sequence}
    {
      if sid in sessions {
        var s := sessions[sid];
        sessions := sessions[sid := s.(sequence := Max(s.sequence, n))];
      }
    }

    method Resume(sid: SessionId, bot: Bot, clientSequence: int) returns (r: ResumeResult)
      modifies this
      ensures (Contents(), r) == ResumeSession(old(Contents()), sid, bot, clientSequence)
      ensures Contents() == old(Contents())
      ensures r == NotFound <==> !(sid in sessions && Owns(bot, sessions[sid]))
      ensures r == InvalidSequence <==> sid in sessions && Owns(bot, sessions[sid]) && clientSequence > sessions[sid].sequence
      ensures r.Resumed? <==> sid in sessions && Owns(bot, sessions[sid]) && clientSequence <= sessions[sid].sequence
      ensures r.Resumed? ==> r.session == sessions[sid]
    {
      if sid !in sessions {
        return NotFound;
      }
      var s := sessions[sid];
      if !s.OwnedBy(bot) {
        return NotFound;
      }
      if clientSequence > s.sequence {
        return InvalidSequence;
      }
      s := s.(sequence := Max(s.sequence, clientSequence));
      sessions := sessions[sid := s];
      assert sessions == old(sessions);
      return Resumed(s);
    }

    method Append(e: ReplayEvent)
      modifies this
      ensures Contents() == AppendReplayEvent(old(Contents()), e)
    {
      var events := if e.sessionId in replayEvents then replayEvents[e.sessionId] else [];
      var i := 0;
      while i < |events| && events[i].sequence != e.sequence
        invariant 0 <= i <= |events|
        invariant forall k :: 0 <= k < i ==> events[k].sequence != e.sequence
      {
        i := i + 1;
      }
      assert i == IndexOfSequence(events, e.sequence);
      if i < |events| {
        events := events[i := e];
      } else {
        events := SortBySequence(events + [e]);
      }
      replayEvents := replayEvents[e.sessionId := events];
    }

    method ListAfter(sid: SessionId, n: int, limit: nat) returns (r: seq<ReplayEvent>)
      ensures r == ListReplayEventsAfter(Contents(), sid, n, limit)
      ensures FirstAfter(LogOf(Contents(), sid), n, limit, r)
    {
      r := [];
      var events := if sid in replayEvents then replayEvents[sid] else [];
      var i := 0;
      while i < |events| && |r| < limit
        invariant 0 <= i <= |events| && |r| <= limit && r == After(events[..i], n)
      {
        AfterPush(events[..i], events[i], n);
        assert events[..i + 1] == events[..i] + [events[i]];
        if events[i].sequence > n {
          r := r + [events[i]];
        }
        i := i + 1;
      }
      AfterConcat(events[..i], events[i..], n);
      assert events == events[..i] + events[i..];
      TakeIsFirst(events, n, limit);
    }
  }

  // ---- facts about the log ----

  lemma {:induction false} AfterConcat(a: seq<ReplayEvent>, b: seq<ReplayEvent>, n: int)
    ensures After(a + b, n) == After(a, n) + After(b, n)
  {
    if a == [] {
      assert a + b == b;
    } else {
      assert (a + b)[1..] == a[1..] + b;
      AfterConcat(a[1..], b, n);
    }
  }

  lemma AfterPush(log: seq<ReplayEvent>, e: ReplayEvent, n: int)
    ensures After(log + [e], n) == if e.sequence > n then After(log, n) + [e] else After(log, n)
  {
    AfterConcat(log, [e], n);
  }

  lemma {:induction false} AfterHas(log: seq<ReplayEvent>, n: int)
    ensures forall x :: x in After(log, n) <==> x in log && x.sequence > n
  {
    if log != [] {
      assert log == [log[0]] + log[1..];
      AfterHas(log[1..], n);
    }
  }

  lemma LeftOut(all: seq<ReplayEvent>, k: nat, e: ReplayEvent, x: ReplayEvent)
    requires k <= |all| && StrictlyIncreasing(all) && e in all && e !in all[..k] && x in all[..k]
    ensures x.sequence < e.sequence
  {
    assert forall h :: 0 <= h < k ==> all[..k][h] == all[h] && all[h] in all[..k];
    var i, j :| 0 <= i < |all| && all[i] == e && 0 <= j < k && all[..k][j] == x;
  }

  lemma TakeIsFirst(log: seq<ReplayEvent>, n: int, limit: nat)
    ensures FirstAfter(log, n, limit, Take(After(log, n), limit))
  {
    AfterHas(log, n);
    if StrictlyIncreasing(log) {
      AfterMembers(log, n);
      var all, taken := After(log, n), Take(After(log, n), limit);
      forall e, x | e in log && e.sequence > n && e !in taken && x in taken ensures x.sequence < e.sequence {
        assert e in all && taken == all[..|taken|];
        LeftOut(all, |taken|, e, x);
      }
    }
  }

  lemma {:induction false} InsertIntoSorted(s: seq<ReplayEvent>, e: ReplayEvent)
    requires StrictlyIncreasing(s)
    requires forall x :: x in s ==> x.sequence != e.sequence
    ensures StrictlyIncreasing(InsertBySequence(s, e))
    ensures forall x :: x in InsertBySequence(s, e) <==> x == e || x in s
  {
    if s != [] {
      var last := s[|s| - 1];
      assert last in s;
      if last.sequence > e.sequence {
        InsertIntoSorted(s[..|s| - 1], e);
        assert s == s[..|s| - 1] + [last];
        var r := InsertBySequence(s[..|s| - 1], e);
        forall i | 0 <= i < |r| ensures r[i].sequence < last.sequence {
          assert r[i] in r;
        }
      }
    }
  }

  lemma {:induction false} SortOfSorted(s: seq<ReplayEvent>)
    requires StrictlyIncreasing(s)
    ensures SortBySequence(s) == s
  {
    if s != [] {
      var init, last := s[..|s| - 1], s[|s| - 1];
      SortOfSorted(init);
      assert init != [] ==> s[|init| - 1].sequence < last.sequence;
      assert SortBySequence(s) == InsertBySequence(init, last) == init + [last];
    }
  }

  /** Appending keeps the log strictly ordered and replaces exactly the event with that number. */
  lemma AppendKeepsOrder(log: seq<ReplayEvent>, e: ReplayEvent)
    requires StrictlyIncreasing(log)
    ensures StrictlyIncreasing(LogAppend(log, e))
    ensures forall x :: x in LogAppend(log, e) <==> x == e || (x in log && x.sequence != e.sequence)
  {
    var i := IndexOfSequence(log, e.sequence);
    if i < |log| {
      var r := log[i := e];
      forall x ensures x in r <==> x == e || (x in log && x.sequence != e.sequence) {
        if x in log && x.sequence != e.sequence {
          var k :| 0 <= k < |log| && log[k] == x;
          assert r[k] == x;
        }
        assert r[i] == e;
      }
    } else {
      SortOfSorted(log);
      assert (log + [e])[..|log|] == log;
      InsertIntoSorted(log, e);
    }
  }

  /** Above the whole log, appending is a plain push: nothing is overwritten or moved. */
  lemma AppendAbove(log: seq<ReplayEvent>, e: ReplayEvent)
    requires StrictlyIncreasing(log) && AllBelow(log, e.sequence)
    ensures LogAppend(log, e) == log + [e]
  {
    SortOfSorted(log);
    assert (log + [e])[..|log|] == log;
  }

  lemma {:induction false} AfterMembers(log: seq<ReplayEvent>, n: int)
    requires StrictlyIncreasing(log)
    ensures StrictlyIncreasing(After(log, n))
    ensures forall x :: x in After(log, n) <==> x in log && x.sequence > n
  {
    AfterHas(log, n);
    if log != [] {
      AfterMembers(log[1..], n);
      var r := After(log[1..], n);
      forall i | 0 <= i < |r| ensures log[0].sequence < r[i].sequence {
        assert r[i] in r;
      }
    }
  }

  lemma {:induction false} UpToMembers(log: seq<ReplayEvent>, n: int)
    requires StrictlyIncreasing(log)
    ensures StrictlyIncreasing(UpTo(log, n))
    ensures forall x :: x in UpTo(log, n) <==> x in log && x.sequence <= n
  {
    if log != [] {
      assert log == [log[0]] + log[1..];
      UpToMembers(log[1..], n);
      var r := UpTo(log[1..], n);
      forall i | 0 <= i < |r| ensures log[0].sequence < r[i].sequence {
        assert r[i] in r;
      }
    }
  }

  lemma LastMember(s: seq<ReplayEvent>, z: ReplayEvent)
    requires s != [] && StrictlyIncreasing(s)
    ensures z in s <==> z in s[..|s| - 1] || z == s[|s| - 1]
    ensures z in s[..|s| - 1] ==> z.sequence < s[|s| - 1].sequence
  {
    assert s == s[..|s| - 1] + [s[|s| - 1]];
  }

  /** A strictly ordered log is determined by its events. */
  lemma {:induction false} SameEventsSameLog(a: seq<ReplayEvent>, b: seq<ReplayEvent>)
    requires StrictlyIncreasing(a) && StrictlyIncreasing(b)
    requires forall x :: x in a <==> x in b
    ensures a == b
  {
    if b != [] { assert b[0] in b; }
    if a != [] {
      var x := a[|a| - 1];
      assert x in b;
      var y := b[|b| - 1];
      LastMember(a, x);
      LastMember(a, y);
      LastMember(b, x);
      LastMember(b, y);
      assert x == y;
      var a', b' := a[..|a| - 1], b[..|b| - 1];
      forall z ensures z in a' <==> z in b' {
        LastMember(a, z);
        LastMember(b, z);
      }
      SameEventsSameLog(a', b');
      assert a == a' + [x] && b == b' + [x];
    }
  }
}
