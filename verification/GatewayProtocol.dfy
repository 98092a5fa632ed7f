/**
 The compatibility gateway as a state machine. A world holds the session store, any number
 of socket connections and, per session, what its client has received so far. Every store
 call and every socket send of the handlers is one step, so handlers of different
 connections interleave freely. The guard of `Resume` is the one hypothesis on the
 environment: a session is resumed only after its previous connection has ended.
 */
module GatewayProtocol {
  import opened Outcomes
  import opened Lists
  import opened GatewayStore

  const GATEWAY_REPLAY_LIMIT: nat := 100
  const CLOSE_AUTHENTICATION_FAILED: nat := 4004
  const CLOSE_ALREADY_AUTHENTICATED: nat := 4005
  const CLOSE_RATE_LIMITED: nat := 4008
  const CLOSE_INVALID_SHARD: nat := 4010
  const CLOSE_INVALID_INTENTS: nat := 4013
  const CLOSE_DISALLOWED_INTENTS: nat := 4014
  const INTENT_GUILDS: bv64 := 0x1
  const INTENT_GUILD_MEMBERS: bv64 := 0x2
  const INTENT_GUILD_PRESENCES: bv64 := 0x100
  const INTENT_GUILD_MESSAGES: bv64 := 0x200
  const INTENT_MESSAGE_CONTENT: bv64 := 0x8000
  const SUPPORTED_GATEWAY_INTENTS: bv64 := INTENT_GUILDS | INTENT_GUILD_MEMBERS | INTENT_GUILD_MESSAGES
  const DISALLOWED_GATEWAY_INTENTS: bv64 := INTENT_GUILD_PRESENCES | INTENT_MESSAGE_CONTENT
  const KNOWN_GATEWAY_INTENTS: bv64 := SUPPORTED_GATEWAY_INTENTS | DISALLOWED_GATEWAY_INTENTS

  // ---- checks made on client frames and realtime events ----

  predicate HasIntent(intents: bv64, required: bv64) {
    intents & required == required
  }

  predicate WithinSupported(intents: bv64) {
    intents & SUPPORTED_GATEWAY_INTENTS == intents
  }

  /** The intent that gates a dispatch kind; interactions are not gated. */
  function RequiredIntent(kind: EventKind): bv64 {
    match kind
    case MessageCreate | MessageUpdate | MessageDelete => INTENT_GUILD_MESSAGES
    case ChannelCreate | ChannelUpdate | ChannelDelete => INTENT_GUILDS
    case GuildUpdate | GuildDelete | GuildCreate => INTENT_GUILDS
    case GuildMemberAdd | GuildMemberRemove => INTENT_GUILD_MEMBERS
    case InteractionCreate => 0
  }

  /**
   What a client must have asked for to get a dispatch: bit 9 for messages, bit 0 for channels and
   guilds, bit 1 for members, nothing for interactions.
   */
  predicate AskedFor(intents: bv64, kind: EventKind) {
    && (kind.MessageCreate? || kind.MessageUpdate? || kind.MessageDelete? ==> intents & 0x200 != 0)
    && (kind.ChannelCreate? || kind.ChannelUpdate? || kind.ChannelDelete? ==> intents & 0x1 != 0)
    && (kind.GuildCreate? || kind.GuildUpdate? || kind.GuildDelete? ==> intents & 0x1 != 0)
    && (kind.GuildMemberAdd? || kind.GuildMemberRemove? ==> intents & 0x2 != 0)
  }

  lemma SingleBits(intents: bv64)
    ensures HasIntent(intents, 0x200) <==> intents & 0x200 != 0
    ensures HasIntent(intents, 0x1) <==> intents & 0x1 != 0
    ensures HasIntent(intents, 0x2) <==> intents & 0x2 != 0
    ensures HasIntent(intents, 0)
  {
  }

  /** The gate lets through exactly what was asked for. */
  lemma GateIsAsked(intents: bv64, kind: EventKind)
    ensures HasIntent(intents, RequiredIntent(kind)) <==> AskedFor(intents, kind)
  {
    SingleBits(intents);
  }

  /**
   A realtime event: the dispatch its type turns into (none for the types the gateway does
   not forward) and the answers of the visibility check and of the payload converter.
   */
  datatype RealtimeEvent = RealtimeEvent(kind: Option<EventKind>, receivable: bool, payload: Option<Payload>)

  predicate Forwarded(intents: bv64, event: RealtimeEvent) {
    && event.kind.Some?
    && HasIntent(intents, RequiredIntent(event.kind.value))
    && event.receivable
    && event.payload.Some?
  }

  datatype Shard = NoShard | NotAnArray | Parts(parts: seq<Option<nat>>)

  predicate IsInvalidShard(shard: Shard) {
    match shard
    case NoShard => false
    case NotAnArray => true
    case Parts(parts) =>
      |parts| != 2 || parts[0].None? || parts[1].None?
      || parts[1].value == 0 || parts[0].value >= parts[1].value
  }

  /** A decoded Identify payload, with the answers of the services it is checked against. */
  datatype IdentifyPayload = IdentifyPayload(
    intents: Option<bv64>,
    shard: Shard,
    bot: Option<Bot>,
    withinIdentifyLimit: bool,
    guildsListed: bool
  )

  datatype IdentifyOutcome = StayOpen | CloseWith(code: nat) | Accept(bot: Bot, intents: bv64)

  /** The checks of an Identify frame, in the order in which they are made. */
  function IdentifyOutcomeOf(identified: bool, payload: Option<IdentifyPayload>): (r: IdentifyOutcome)
    ensures r.Accept? ==> !identified && payload.Some? && WithinSupported(r.intents)
    ensures r.Accept? ==> payload.value.bot == Some(r.bot) && payload.value.withinIdentifyLimit
    ensures r.Accept? ==> r.intents == (if payload.value.intents.Some? then payload.value.intents.value else 0)
  {
    if identified then CloseWith(CLOSE_ALREADY_AUTHENTICATED)
    else if payload.None? then StayOpen
    else
      var p := payload.value;
      var intents := if p.intents.Some? then p.intents.value else 0;
      if intents & !KNOWN_GATEWAY_INTENTS != 0 then CloseWith(CLOSE_INVALID_INTENTS)
      else if intents & DISALLOWED_GATEWAY_INTENTS != 0 then CloseWith(CLOSE_DISALLOWED_INTENTS)
      else if IsInvalidShard(p.shard) then CloseWith(CLOSE_INVALID_SHARD)
      else if p.bot.None? then CloseWith(CLOSE_AUTHENTICATION_FAILED)
      else if !p.withinIdentifyLimit then CloseWith(CLOSE_RATE_LIMITED)
      else if !p.guildsListed then StayOpen
      else Accept(p.bot.value, intents)
  }

  function RequestedIntents(p: IdentifyPayload): bv64 {
    if p.intents.Some? then p.intents.value else 0
  }

  lemma KnownExactly(intents: bv64)
    ensures intents & !KNOWN_GATEWAY_INTENTS == 0 <==> intents & KNOWN_GATEWAY_INTENTS == intents
  {
  }

  lemma SupportedExactly(intents: bv64)
    ensures intents & !KNOWN_GATEWAY_INTENTS == 0 && intents & DISALLOWED_GATEWAY_INTENTS == 0 <==> WithinSupported(intents)
  {
  }

  lemma SupportedIsKnown(intents: bv64)
    ensures WithinSupported(intents) ==> intents & KNOWN_GATEWAY_INTENTS == intents
  {
  }

  /** The same outcome from what the checks mean: known and supported intents, in that order. */
  lemma IdentifyChecks(p: IdentifyPayload, known: bool, supported: bool)
    requires known == (RequestedIntents(p) & KNOWN_GATEWAY_INTENTS == RequestedIntents(p))
    requires supported == WithinSupported(RequestedIntents(p))
    ensures IdentifyOutcomeOf(false, Some(p)) ==
              if !known then CloseWith(CLOSE_INVALID_INTENTS)
              else if !supported then CloseWith(CLOSE_DISALLOWED_INTENTS)
              else if IsInvalidShard(p.shard) then CloseWith(CLOSE_INVALID_SHARD)
              else if p.bot.None? then CloseWith(CLOSE_AUTHENTICATION_FAILED)
              else if !p.withinIdentifyLimit then CloseWith(CLOSE_RATE_LIMITED)
              else if !p.guildsListed then StayOpen
              else Accept(p.bot.value, RequestedIntents(p))
    ensures supported ==> known
  {
    KnownExactly(RequestedIntents(p));
    SupportedExactly(RequestedIntents(p));
    SupportedIsKnown(RequestedIntents(p));
  }

  lemma Masks(intents: bv64)
    ensures intents & KNOWN_GATEWAY_INTENTS == intents <==> intents & 0x8303 == intents
    ensures WithinSupported(intents) <==> intents & 0x203 == intents
  {
  }

  /** No shard, or one of several: an index below a count. */
  ghost predicate ShardOk(shard: Shard) {
    shard.NoShard? || exists index: nat, count: nat :: shard == Parts([Some(index), Some(count)]) && index < count
  }

  lemma ShardExactly(shard: Shard)
    ensures IsInvalidShard(shard) <==> !ShardOk(shard)
  {
    if !IsInvalidShard(shard) && !shard.NoShard? {
      var index, count := shard.parts[0].value, shard.parts[1].value;
      assert shard.parts == [Some(index), Some(count)];
    }
  }

  /** Each answer to an Identify frame, for intents that are known and allowed or not, and the close codes. */
  ghost predicate Answered(r: IdentifyOutcome, p: IdentifyPayload, intents: bv64, known: bool, allowed: bool) {
    && (r == CloseWith(4013) <==> !known)
    && (r == CloseWith(4014) <==> known && !allowed)
    && (r == CloseWith(4010) <==> allowed && !ShardOk(p.shard))
    && (r == CloseWith(4004) <==> allowed && ShardOk(p.shard) && p.bot.None?)
    && (r == CloseWith(4008) <==> allowed && ShardOk(p.shard) && p.bot.Some? && !p.withinIdentifyLimit)
    && (r == StayOpen <==> allowed && ShardOk(p.shard) && p.bot.Some? && p.withinIdentifyLimit && !p.guildsListed)
    && (r.Accept? <==> allowed && ShardOk(p.shard) && p.bot.Some? && p.withinIdentifyLimit && p.guildsListed)
    && (r.Accept? ==> r == Accept(p.bot.value, intents))
  }

  lemma IdentifyAnswered(p: IdentifyPayload, known: bool, allowed: bool)
    requires known == (RequestedIntents(p) & KNOWN_GATEWAY_INTENTS == RequestedIntents(p))
    requires allowed == WithinSupported(RequestedIntents(p))
    ensures Answered(IdentifyOutcomeOf(false, Some(p)), p, RequestedIntents(p), known, allowed)
  {
    ShardExactly(p.shard);
    IdentifyChecks(p, known, allowed);
  }

  /**
   Which frames are accepted, which are ignored, and which close the connection with which code.
   The known intents are bits 0, 1, 8, 9 and 15; bits 0, 1 and 9 are allowed.
   */
  lemma IdentifyOutcomeExact(identified: bool, payload: Option<IdentifyPayload>)
    ensures IdentifyOutcomeOf(identified, payload) == CloseWith(4005) <==> identified
    ensures !identified && payload.None? ==> IdentifyOutcomeOf(identified, payload) == StayOpen
    ensures !identified && payload.Some? ==>
              var p := payload.value;
              var intents := if p.intents.Some? then p.intents.value else 0;
              Answered(IdentifyOutcomeOf(identified, payload), p, intents, intents & 0x8303 == intents, intents & 0x203 == intents)
  {
    if !identified && payload.Some? {
      Masks(RequestedIntents(payload.value));
      IdentifyAnswered(payload.value, RequestedIntents(payload.value) & 0x8303 == RequestedIntents(payload.value),
                       RequestedIntents(payload.value) & 0x203 == RequestedIntents(payload.value));
    }
  }

  datatype ResumePayload = ResumePayload(sessionId: SessionId, seqNo: Option<int>, bot: Option<Bot>)

  function ClientSequence(p: ResumePayload): int {
    if p.seqNo.Some? then p.seqNo.value else 0
  }

  /** The sequence number taken by RESUMED after the given events were replayed. */
  function ResumeSequence(session: Session, replayed: seq<ReplayEvent>): int {
    Max(session.sequence, if replayed == [] then session.sequence else replayed[|replayed| - 1].sequence) + 1
  }

  // ---- the world ----

  datatype Frame =
    | ReadyFrame(number: int, sessionId: SessionId)
    | ResumedFrame(number: int, sessionId: SessionId)
    | DispatchFrame(event: ReplayEvent)
  {
    function Sequence(): int {
      if DispatchFrame? then event.sequence else number
    }
  }

  /** Where a connection's handler stands between two store calls or sends. */
  datatype Phase =
    | Open
    | Readying
    | Listing(snapshot: Session, bot: Bot, clientSequence: int)
    | Replaying(snapshot: Session, bot: Bot, events: seq<ReplayEvent>, next: nat)
    | Resuming
    | Idle
    | Appended(pending: ReplayEvent)
    | SentLive
    | Closed

  datatype Conn = Conn(
    phase: Phase,
    identifiedBot: Option<Bot>,
    activeSessionId: Option<SessionId>,
    activeIntents: bv64,
    sequence: int,
    target: Option<SessionId>,     // the session this connection has been accepted for
    accepted: nat,              // how many Identify or Resume frames were accepted
    sent: seq<Frame>,           // dispatches the socket took
    delivered: nat,             // how many of them have reached the client
    skipped: seq<ReplayEvent>   // what the cut of its replay left out
  )

  /** What was asked for by the Identify that created a session. */
  datatype Origin = Origin(bot: Bot, intents: bv64)

  datatype World = World(
    store: Store,
    conns: map<nat, Conn>,
    current: map<SessionId, nat>,
    received: map<SessionId, seq<Frame>>,
    origins: map<SessionId, Origin>
  )

  const InitialWorld := World(Store(map[], map[]), map[], map[], map[], map[])
  const NewConn := Conn(Open, None, None, 0, 0, None, 0, [], 0, [])

  datatype Step =
    | Connect(c: nat)
    | Disconnect(c: nat)
    | Identify(c: nat, identify: Option<IdentifyPayload>, freshId: SessionId)
    | SendReady(c: nat, ok: bool)
    | Resume(c: nat, resume: Option<ResumePayload>)
    | ListReplay(c: nat)
    | SendReplay(c: nat, ok: bool)
    | FinishReplay(c: nat)
    | SendResumed(c: nat, ok: bool)
    | Live(c: nat, event: RealtimeEvent)
    | SendLive(c: nat, ok: bool)
    | UpdateLive(c: nat)
    | Deliver(c: nat)

  predicate Enabled(w: World, s: Step) {
    if s.Connect? then s.c !in w.conns
    else
      && s.c in w.conns
      && var conn := w.conns[s.c];
         match s
         case Connect(_) => false
         case Disconnect(_) => conn.phase.Open? || conn.phase.Idle?
         case Identify(_, _, freshId) =>
           (conn.phase.Open? || conn.phase.Idle?) && freshId !in w.store.sessions
         case SendReady(_, _) => conn.phase.Readying?
         case Resume(_, resume) =>
           && (conn.phase.Open? || conn.phase.Idle?)
           && (resume.Some? && resume.value.sessionId in w.current ==>
                 && w.current[resume.value.sessionId] in w.conns
                 && w.conns[w.current[resume.value.sessionId]].phase.Closed?)
         case ListReplay(_) => conn.phase.Listing?
         case SendReplay(_, _) => conn.phase.Replaying? && conn.phase.next < |conn.phase.events|
         case FinishReplay(_) => conn.phase.Replaying? && conn.phase.next == |conn.phase.events|
         case SendResumed(_, _) => conn.phase.Resuming? && conn.activeSessionId.Some?
         case Live(_, _) => conn.phase.Open? || conn.phase.Idle?
         case SendLive(_, _) => conn.phase.Appended?
         case UpdateLive(_) => conn.phase.SentLive?
         case Deliver(_) =>
           && conn.target.Some?
           && conn.target.value in w.current && w.current[conn.target.value] == s.c
           && conn.target.value in w.received
           && conn.delivered < |conn.sent|
  }

  function SetConn(w: World, c: nat, conn: Conn): World {
    w.(conns := w.conns[c := conn])
  }

  function Push(conn: Conn, f: Frame, next: Phase): Conn {
    conn.(sent := conn.sent + [f], phase := next)
  }

  function DoIdentify(w: World, c: nat, payload: Option<IdentifyPayload>, freshId: SessionId): World
    requires c in w.conns
  {
    var conn := w.conns[c];
    match IdentifyOutcomeOf(conn.identifiedBot.Some?, payload)
    case StayOpen => w
    case CloseWith(_) => SetConn(w, c, conn.(phase := Closed))
    case Accept(bot, intents) =>
      var n := conn.sequence + 1;
      var session := Session(freshId, bot.applicationId, bot.organizationId, bot.botUserId, n, intents);
      World(
        CreateSession(w.store, session),
        w.conns[c := conn.(phase := Readying, identifiedBot := Some(bot), activeSessionId := Some(freshId),
                           activeIntents := intents, sequence := n, target := Some(freshId),
                           accepted := conn.accepted + 1)],
        w.current[freshId := c],
        w.received[freshId := []],
        w.origins[freshId := Origin(bot, intents)])
  }

  function DoResume(w: World, c: nat, payload: Option<ResumePayload>): World
    requires c in w.conns
  {
    var conn := w.conns[c];
    if conn.identifiedBot.Some? then SetConn(w, c, conn.(phase := Closed))
    else if payload.None? then w
    else if payload.value.bot.None? then SetConn(w, c, conn.(phase := Closed))
    else
      var sid, bot, n := payload.value.sessionId, payload.value.bot.value, ClientSequence(payload.value);
      var (store', r) := ResumeSession(w.store, sid, bot, n);
      if r.Resumed? then
        w.(store := store',
           conns := w.conns[c := conn.(phase := Listing(r.session, bot, n), target := Some(sid),
                                       accepted := conn.accepted + 1)],
           current := w.current[sid := c])
      else SetConn(w, c, conn.(phase := Closed))
  }

  function DoFinishReplay(w: World, c: nat): World
    requires c in w.conns && w.conns[c].phase.Replaying?
  {
    var conn := w.conns[c];
    var session := conn.phase.snapshot;
    var n := ResumeSequence(session, conn.phase.events);
    SetConn(w, c, conn.(phase := Resuming, identifiedBot := Some(conn.phase.bot),
                        activeSessionId := Some(session.sessionId), activeIntents := session.intents,
                        sequence := n)).(store := UpdateSequence(w.store, session.sessionId, n))
  }

  function DoLive(w: World, c: nat, event: RealtimeEvent): World
    requires c in w.conns
  {
    var conn := w.conns[c];
    if conn.identifiedBot.None? || !Forwarded(conn.activeIntents, event) then w
    else
      var n := conn.sequence + 1;
      var sid := if conn.activeSessionId.Some? then conn.activeSessionId.value else 0;
      var e := LiveEvent(conn, sid, event);
      var w' := SetConn(w, c, conn.(sequence := n, phase := Appended(e)));
      if conn.activeSessionId.Some? then w'.(store := AppendReplayEvent(w.store, e)) else w'
  }

  function Apply(w: World, s: Step): World
    requires Enabled(w, s)
  {
    if s.Connect? then SetConn(w, s.c, NewConn)
    else
      var conn := w.conns[s.c];
      match s
      case Connect(_) => w
      case Disconnect(c) => SetConn(w, c, conn.(phase := Closed))
      case Identify(c, payload, freshId) => DoIdentify(w, c, payload, freshId)
      case SendReady(c, ok) =>
        if ok && conn.activeSessionId.Some?
        then SetConn(w, c, Push(conn, ReadyFrame(conn.sequence, conn.activeSessionId.value), Idle))
        else SetConn(w, c, conn.(phase := Closed))
      case Resume(c, payload) => DoResume(w, c, payload)
      case ListReplay(c) =>
        var p := conn.phase;
        var sid, n := p.snapshot.sessionId, p.clientSequence;
        var events := ListReplayEventsAfter(w.store, sid, n, GATEWAY_REPLAY_LIMIT);
        SetConn(w, c, conn.(phase := Replaying(p.snapshot, p.bot, events, 0),
                            skipped := Drop(After(LogOf(w.store, sid), n), GATEWAY_REPLAY_LIMIT)))
      case SendReplay(c, ok) =>
        var p := conn.phase;
        if ok then SetConn(w, c, Push(conn, DispatchFrame(p.events[p.next]), p.(next := p.next + 1)))
        else SetConn(w, c, conn.(phase := Closed))
      case FinishReplay(c) => DoFinishReplay(w, c)
      case SendResumed(c, ok) =>
        if ok then SetConn(w, c, Push(conn, ResumedFrame(conn.sequence, conn.activeSessionId.value), Idle))
        else SetConn(w, c, conn.(phase := Closed))
      case Live(c, event) => DoLive(w, c, event)
      case SendLive(c, ok) =>
        if ok then SetConn(w, c, Push(conn, DispatchFrame(conn.phase.pending), SentLive))
        else SetConn(w, c, conn.(phase := Closed))
      case UpdateLive(c) =>
        var w' := SetConn(w, c, conn.(phase := Idle));
        if conn.activeSessionId.Some?
        then w'.(store := UpdateSequence(w.store, conn.activeSessionId.value, conn.sequence)) else w'
      case Deliver(c) =>
        var sid := conn.target.value;
        SetConn(w, c, conn.(delivered := conn.delivered + 1))
          .(received := w.received[sid := w.received[sid] + [conn.sent[conn.delivered]]])
  }

  /** The world after a run from the initial world, if every step is enabled where it is taken. */
  ghost function Reach(steps: seq<Step>): Option<World> {
    if steps == [] then Some(InitialWorld)
    else
      var before := Reach(steps[..|steps| - 1]);
      if before.Some? && Enabled(before.value, steps[|steps| - 1])
      then Some(Apply(before.value, steps[|steps| - 1])) else None
  }

  // ---- the invariant ----

  ghost predicate FramesIncreasing(fs: seq<Frame>) {
    forall i, j :: 0 <= i < j < |fs| ==> fs[i].Sequence() < fs[j].Sequence()
  }

  ghost predicate FramesBelow(fs: seq<Frame>, bound: int) {
    forall i :: 0 <= i < |fs| ==> fs[i].Sequence() < bound
  }

  ghost predicate ConnOk(conn: Conn) {
    && conn.delivered <= |conn.sent|
    && FramesIncreasing(conn.sent)
    && conn.accepted == (if conn.target.Some? then 1 else 0)
    && (conn.target.None? ==> conn.sent == [] && conn.skipped == [] && (conn.phase.Open? || conn.phase.Closed?))
    && (conn.phase.Open? ==> conn.target.None? && conn.identifiedBot.None? && conn.sequence >= 0)
    && (conn.phase.Idle? ==> conn.identifiedBot.Some?)
    && (conn.activeSessionId.Some? ==> conn.activeSessionId == conn.target)
    && (conn.phase.Listing? || conn.phase.Replaying? ==> conn.target == Some(conn.phase.snapshot.sessionId))
  }

  /** The socket loop's variables agree with the stored session. */
  ghost predicate Active(s: Session, conn: Conn) {
    && conn.activeSessionId == Some(s.sessionId)
    && conn.activeIntents == s.intents
    && conn.identifiedBot.Some? && s.OwnedBy(conn.identifiedBot.value)
  }

  ghost predicate LogOk(sid: SessionId, o: Origin, log: seq<ReplayEvent>) {
    && StrictlyIncreasing(log)
    && forall i :: 0 <= i < |log| ==>
         log[i].sessionId == sid && log[i].sequence > 0 && HasIntent(o.intents, RequiredIntent(log[i].kind))
  }

  ghost predicate PhaseOk(s: Session, log: seq<ReplayEvent>, conn: Conn) {
    match conn.phase
    case Open => false
    case Readying => conn.sent == [] && log == [] && conn.sequence == s.sequence && Active(s, conn)
    case Listing(snapshot, bot, n) => snapshot == s && s.OwnedBy(bot) && conn.sent == []
    case Replaying(snapshot, bot, events, next) =>
      && snapshot == s && s.OwnedBy(bot)
      && next <= |events| && StrictlyIncreasing(events)
      && (forall i :: 0 <= i < |events| ==> events[i] in log)
      && |conn.sent| == next
      && (forall i :: 0 <= i < next ==> conn.sent[i] == DispatchFrame(events[i]))
    case Resuming =>
      Active(s, conn) && conn.sequence == s.sequence && AllBelow(log, s.sequence + 1) && FramesBelow(conn.sent, s.sequence)
    case Idle =>
      Active(s, conn) && conn.sequence == s.sequence && AllBelow(log, s.sequence + 1) && FramesBelow(conn.sent, s.sequence + 1)
    case Appended(e) =>
      && Active(s, conn) && conn.sequence == e.sequence == s.sequence + 1
      && log != [] && log[|log| - 1] == e && FramesBelow(conn.sent, conn.sequence)
    case SentLive => Active(s, conn) && conn.sequence == s.sequence + 1 && FramesBelow(conn.sent, conn.sequence + 1)
    case Closed => true
  }

  /** One session, its log and the connection that last took it over. */
  ghost predicate LineOk(sid: SessionId, s: Session, o: Origin, log: seq<ReplayEvent>, conn: Conn) {
    && s.sessionId == sid && s.sequence > 0
    && s.OwnedBy(o.bot) && s.intents == o.intents && WithinSupported(s.intents)
    && LogOk(sid, o, log)
    && AllBelow(log, s.sequence + 2)
    && conn.target == Some(sid)
    && PhaseOk(s, log, conn)
  }

  ghost predicate Anchored(w: World, c: nat)
    requires c in w.conns
  {
    var conn := w.conns[c];
    conn.target.Some? ==>
      && conn.target.value in w.store.sessions
      && (conn.phase.Closed? || (conn.target.value in w.current && w.current[conn.target.value] == c))
  }

  ghost predicate SessionOk(w: World, sid: SessionId)
    requires sid in w.store.sessions
  {
    && sid in w.current && w.current[sid] in w.conns && sid in w.origins && sid in w.received
    && LineOk(sid, w.store.sessions[sid], w.origins[sid], LogOf(w.store, sid), w.conns[w.current[sid]])
  }

  ghost predicate WorldOk(w: World) {
    && w.store.replay.Keys <= w.store.sessions.Keys
    && w.current.Keys <= w.store.sessions.Keys
    && (forall c :: c in w.conns ==> ConnOk(w.conns[c]) && Anchored(w, c))
    && (forall sid :: sid in w.store.sessions ==> SessionOk(w, sid))
  }

  // ---- preservation ----

  /** A step that touches one connection, accepted for one session, and that session only. */
  lemma Rebuild(w: World, w': World, c: nat, sid: SessionId)
    requires WorldOk(w)
    requires c in w'.conns && w'.conns == w.conns[c := w'.conns[c]]
    requires sid in w'.store.sessions && w'.store.sessions == w.store.sessions[sid := w'.store.sessions[sid]]
    requires w'.store.replay.Keys <= w'.store.sessions.Keys
    requires forall t :: t != sid ==> LogOf(w'.store, t) == LogOf(w.store, t)
    requires w'.current == w.current[sid := c]
    requires sid in w'.received && w'.received == w.received[sid := w'.received[sid]]
    requires sid in w'.origins && w'.origins == w.origins[sid := w'.origins[sid]]
    requires c in w.conns && (w.conns[c].target == None || w.conns[c].target == Some(sid))
    requires sid in w.current && w.current[sid] != c ==> w.conns[w.current[sid]].phase.Closed?
    requires ConnOk(w'.conns[c])
    requires LineOk(sid, w'.store.sessions[sid], w'.origins[sid], LogOf(w'.store, sid), w'.conns[c])
    ensures WorldOk(w')
  {
    forall t | t in w'.store.sessions ensures SessionOk(w', t) {
      if t != sid {
        assert SessionOk(w, t);
        assert w.conns[w.current[t]].target == Some(t);
      }
    }
    forall d | d in w'.conns ensures ConnOk(w'.conns[d]) && Anchored(w', d) {
      if d != c {
        assert ConnOk(w.conns[d]) && Anchored(w, d);
        assert w'.conns[d] == w.conns[d];
      }
    }
  }

  /** A step that touches one connection that has not been accepted for any session. */
  lemma RebuildLoose(w: World, c: nat, conn: Conn)
    requires WorldOk(w) && ConnOk(conn) && conn.target.None?
    requires c in w.conns ==> w.conns[c].target.None?
    ensures WorldOk(SetConn(w, c, conn))
  {
    var w' := SetConn(w, c, conn);
    forall t | t in w'.store.sessions ensures SessionOk(w', t) {
      assert SessionOk(w, t);
      assert w.conns[w.current[t]].target == Some(t);
    }
    forall d | d in w'.conns ensures ConnOk(w'.conns[d]) && Anchored(w', d) {
      if d != c { assert ConnOk(w.conns[d]) && Anchored(w, d); }
    }
  }

  /** The session a connection works on, with the facts the invariant gives about the pair. */
  lemma CurrentLine(w: World, c: nat) returns (sid: SessionId)
    requires WorldOk(w) && c in w.conns && !w.conns[c].phase.Open? && !w.conns[c].phase.Closed?
    ensures w.conns[c].target == Some(sid) && sid in w.store.sessions && SessionOk(w, sid) && w.current[sid] == c
  {
    assert ConnOk(w.conns[c]) && Anchored(w, c);
    sid := w.conns[c].target.value;
    assert SessionOk(w, sid);
  }

  /** The handler moves on without touching the store. */
  lemma RebuildConn(w: World, c: nat, sid: SessionId, conn: Conn)
    requires WorldOk(w) && c in w.conns && sid in w.store.sessions && w.conns[c].target == Some(sid)
    requires SessionOk(w, sid) && w.current[sid] == c
    requires ConnOk(conn)
    requires LineOk(sid, w.store.sessions[sid], w.origins[sid], LogOf(w.store, sid), conn)
    ensures WorldOk(SetConn(w, c, conn))
  {
    Rebuild(w, SetConn(w, c, conn), c, sid);
  }

  ghost predicate TouchesOnly(st: Store, st': Store, sid: SessionId) {
    && sid in st'.sessions && st'.sessions == st.sessions[sid := st'.sessions[sid]]
    && st'.replay.Keys <= st.replay.Keys + {sid}
    && forall t :: t != sid ==> LogOf(st', t) == LogOf(st, t)
  }

  /** The handler moves on and changes the store of its own session. */
  lemma RebuildLine(w: World, c: nat, sid: SessionId, st: Store, conn: Conn)
    requires WorldOk(w) && c in w.conns && sid in w.store.sessions && w.conns[c].target == Some(sid)
    requires SessionOk(w, sid) && w.current[sid] == c
    requires TouchesOnly(w.store, st, sid)
    requires ConnOk(conn)
    requires LineOk(sid, st.sessions[sid], w.origins[sid], LogOf(st, sid), conn)
    ensures WorldOk(SetConn(w, c, conn).(store := st))
  {
    Rebuild(w, SetConn(w, c, conn).(store := st), c, sid);
  }

  lemma UpdateTouches(st: Store, sid: SessionId, n: int)
    requires sid in st.sessions
    ensures TouchesOnly(st, UpdateSequence(st, sid, n), sid)
    ensures LogOf(UpdateSequence(st, sid, n), sid) == LogOf(st, sid)
  {
  }

  lemma AppendTouches(st: Store, e: ReplayEvent)
    requires e.sessionId in st.sessions
    ensures TouchesOnly(st, AppendReplayEvent(st, e), e.sessionId)
    ensures AppendReplayEvent(st, e).sessions == st.sessions
    ensures LogOf(AppendReplayEvent(st, e), e.sessionId) == LogAppend(LogOf(st, e.sessionId), e)
  {
  }

  lemma PushLine(sid: SessionId, s: Session, o: Origin, log: seq<ReplayEvent>, conn: Conn, f: Frame, next: Phase)
    requires ConnOk(conn) && LineOk(sid, s, o, log, conn)
    requires FramesBelow(conn.sent, f.Sequence()) && !next.Open?
    requires PhaseOk(s, log, Push(conn, f, next))
    ensures ConnOk(Push(conn, f, next)) && LineOk(sid, s, o, log, Push(conn, f, next))
  {
  }

  lemma CloseKeeps(w: World, c: nat)
    requires WorldOk(w) && c in w.conns && !w.conns[c].phase.Closed?
    ensures WorldOk(SetConn(w, c, w.conns[c].(phase := Closed)))
  {
    var conn := w.conns[c];
    assert ConnOk(conn) && Anchored(w, c);
    if conn.target.None? {
      RebuildLoose(w, c, conn.(phase := Closed));
    } else {
      var sid := CurrentLine(w, c);
      RebuildConn(w, c, sid, conn.(phase := Closed));
    }
  }

  lemma IdentifyKeeps(w: World, c: nat, payload: Option<IdentifyPayload>, freshId: SessionId)
    requires WorldOk(w) && Enabled(w, Identify(c, payload, freshId))
    ensures WorldOk(DoIdentify(w, c, payload, freshId))
  {
    var r := IdentifyOutcomeOf(w.conns[c].identifiedBot.Some?, payload);
    if r.Accept? {
      AcceptedIdentifyKeeps(w, c, payload, freshId);
    } else if r.CloseWith? {
      CloseKeeps(w, c);
    }
  }

  lemma IdentifyLine(conn: Conn, bot: Bot, intents: bv64, sid: SessionId)
    requires ConnOk(conn) && conn.phase.Open? && WithinSupported(intents)
    ensures var n := conn.sequence + 1;
            var conn' := conn.(phase := Readying, identifiedBot := Some(bot), activeSessionId := Some(sid),
                               activeIntents := intents, sequence := n, target := Some(sid), accepted := conn.accepted + 1);
            && ConnOk(conn')
            && LineOk(sid, Session(sid, bot.applicationId, bot.organizationId, bot.botUserId, n, intents),
                      Origin(bot, intents), [], conn')
  {
  }

  lemma AcceptedIdentifyKeeps(w: World, c: nat, payload: Option<IdentifyPayload>, freshId: SessionId)
    requires WorldOk(w) && Enabled(w, Identify(c, payload, freshId))
    requires IdentifyOutcomeOf(w.conns[c].identifiedBot.Some?, payload).Accept?
    ensures WorldOk(DoIdentify(w, c, payload, freshId))
  {
    var conn := w.conns[c];
    assert ConnOk(conn);
    var r := IdentifyOutcomeOf(conn.identifiedBot.Some?, payload);
    IdentifyLine(conn, r.bot, r.intents, freshId);
    var w' := DoIdentify(w, c, payload, freshId);
    assert LogOf(w'.store, freshId) == [];
    Rebuild(w, w', c, freshId);
  }

  predicate ResumeAccepted(w: World, c: nat, payload: Option<ResumePayload>)
    requires c in w.conns
  {
    && w.conns[c].identifiedBot.None? && payload.Some? && payload.value.bot.Some?
    && ResumeSession(w.store, payload.value.sessionId, payload.value.bot.value, ClientSequence(payload.value)).1.Resumed?
  }

  lemma RefusedResume(w: World, c: nat, payload: Option<ResumePayload>)
    requires c in w.conns && !ResumeAccepted(w, c, payload)
    ensures DoResume(w, c, payload) == w
            || DoResume(w, c, payload) == SetConn(w, c, w.conns[c].(phase := Closed))
  {
  }

  lemma ResumeKeeps(w: World, c: nat, payload: Option<ResumePayload>)
    requires WorldOk(w) && Enabled(w, Resume(c, payload))
    ensures WorldOk(DoResume(w, c, payload))
  {
    if ResumeAccepted(w, c, payload) {
      AcceptedResumeKeeps(w, c, payload.value);
    } else {
      RefusedResume(w, c, payload);
      CloseKeeps(w, c);
    }
  }

  lemma ResumeLine(sid: SessionId, s: Session, o: Origin, log: seq<ReplayEvent>, old_: Conn, conn: Conn, bot: Bot, n: int)
    requires LineOk(sid, s, o, log, old_) && ConnOk(conn) && conn.phase.Open? && s.OwnedBy(bot)
    ensures var conn' := conn.(phase := Listing(s, bot, n), target := Some(sid), accepted := conn.accepted + 1);
            ConnOk(conn') && LineOk(sid, s, o, log, conn')
  {
  }

  /** An accepted Resume leaves the store as it is and hands the session to this connection. */
  lemma AcceptedResume(w: World, c: nat, p: ResumePayload)
    requires WorldOk(w) && Enabled(w, Resume(c, Some(p))) && ResumeAccepted(w, c, Some(p))
    ensures ConnOk(w.conns[c]) && w.conns[c].phase.Open?
    ensures p.sessionId in w.store.sessions && SessionOk(w, p.sessionId)
    ensures w.conns[w.current[p.sessionId]].phase.Closed?
    ensures var sid, conn := p.sessionId, w.conns[c];
            && w.store.sessions[sid].OwnedBy(p.bot.value)
            && DoResume(w, c, Some(p)) ==
               w.(conns := w.conns[c := conn.(phase := Listing(w.store.sessions[sid], p.bot.value, ClientSequence(p)),
                                              target := Some(sid), accepted := conn.accepted + 1)],
                  current := w.current[sid := c])
  {
    var sid := p.sessionId;
    assert ConnOk(w.conns[c]) && SessionOk(w, sid);
    assert w.store.sessions[sid := w.store.sessions[sid]] == w.store.sessions;
  }

  lemma AcceptedResumeKeeps(w: World, c: nat, p: ResumePayload)
    requires WorldOk(w) && Enabled(w, Resume(c, Some(p))) && ResumeAccepted(w, c, Some(p))
    ensures WorldOk(DoResume(w, c, Some(p)))
  {
    AcceptedResume(w, c, p);
    var sid := p.sessionId;
    ResumeLine(sid, w.store.sessions[sid], w.origins[sid], LogOf(w.store, sid), w.conns[w.current[sid]], w.conns[c],
               p.bot.value, ClientSequence(p));
    Rebuild(w, DoResume(w, c, Some(p)), c, sid);
  }

  lemma ListedEvents(log: seq<ReplayEvent>, n: int, limit: nat)
    requires StrictlyIncreasing(log)
    ensures StrictlyIncreasing(Take(After(log, n), limit))
    ensures forall i :: 0 <= i < |Take(After(log, n), limit)| ==> Take(After(log, n), limit)[i] in log
  {
    AfterMembers(log, n);
    var all, events := After(log, n), Take(After(log, n), limit);
    forall i | 0 <= i < |events| ensures events[i] in log {
      assert events[i] == all[i] && all[i] in all;
    }
  }

  lemma ListKeeps(w: World, c: nat)
    requires WorldOk(w) && Enabled(w, ListReplay(c))
    ensures WorldOk(Apply(w, ListReplay(c)))
  {
    var sid := CurrentLine(w, c);
    var conn, log := w.conns[c], LogOf(w.store, sid);
    assert ConnOk(conn);
    ListedEvents(log, conn.phase.clientSequence, GATEWAY_REPLAY_LIMIT);
    var backlog := After(log, conn.phase.clientSequence);
    RebuildConn(w, c, sid, conn.(phase := Replaying(conn.phase.snapshot, conn.phase.bot, Take(backlog, GATEWAY_REPLAY_LIMIT), 0),
                                 skipped := Drop(backlog, GATEWAY_REPLAY_LIMIT)));
  }

  /** What the next successful send adds, for each phase that is about to send. */
  function NextFrame(conn: Conn): (Frame, Phase)
    requires conn.phase.Readying? || conn.phase.Resuming? ==> conn.activeSessionId.Some?
    requires conn.phase.Replaying? ==> conn.phase.next < |conn.phase.events|
    requires conn.phase.Readying? || conn.phase.Resuming? || conn.phase.Replaying? || conn.phase.Appended?
  {
    match conn.phase
    case Readying => (ReadyFrame(conn.sequence, conn.activeSessionId.value), Idle)
    case Resuming => (ResumedFrame(conn.sequence, conn.activeSessionId.value), Idle)
    case Replaying(_, _, events, next) => (DispatchFrame(events[next]), conn.phase.(next := next + 1))
    case Appended(e) => (DispatchFrame(e), SentLive)
  }

  lemma SendLine(sid: SessionId, s: Session, o: Origin, log: seq<ReplayEvent>, conn: Conn)
    requires ConnOk(conn) && LineOk(sid, s, o, log, conn)
    requires conn.phase.Readying? || conn.phase.Resuming? || conn.phase.Appended?
             || (conn.phase.Replaying? && conn.phase.next < |conn.phase.events|)
    ensures var (f, next) := NextFrame(conn);
            && FramesBelow(conn.sent, f.Sequence())
            && ConnOk(Push(conn, f, next)) && LineOk(sid, s, o, log, Push(conn, f, next))
  {
    var (f, next) := NextFrame(conn);
    assert FramesBelow(conn.sent, f.Sequence());
    PushLine(sid, s, o, log, conn, f, next);
  }

  lemma SendKeeps(w: World, c: nat, s: Step)
    requires WorldOk(w) && Enabled(w, s) && s.c == c
    requires s.SendReady? || s.SendReplay? || s.SendResumed? || s.SendLive?
    ensures WorldOk(Apply(w, s))
  {
    var sid := CurrentLine(w, c);
    var conn := w.conns[c];
    assert ConnOk(conn);
    if s.ok {
      SendLine(sid, w.store.sessions[sid], w.origins[sid], LogOf(w.store, sid), conn);
      var (f, next) := NextFrame(conn);
      assert Apply(w, s) == SetConn(w, c, Push(conn, f, next));
      RebuildConn(w, c, sid, Push(conn, f, next));
    } else {
      CloseKeeps(w, c);
    }
  }

  /** Taking the RESUMED number puts the stored sequence at or above every logged event. */
  lemma FinishLine(sid: SessionId, s: Session, o: Origin, log: seq<ReplayEvent>, conn: Conn)
    requires ConnOk(conn) && LineOk(sid, s, o, log, conn)
    requires conn.phase.Replaying? && conn.phase.next == |conn.phase.events|
    ensures var n := ResumeSequence(s, conn.phase.events);
            var conn' := conn.(phase := Resuming, identifiedBot := Some(conn.phase.bot), activeSessionId := Some(sid),
                               activeIntents := s.intents, sequence := n);
            && Max(s.sequence, n) == n
            && ConnOk(conn') && LineOk(sid, s.(sequence := n), o, log, conn')
  {
    var events := conn.phase.events;
    assert forall i :: 0 <= i < |events| ==> events[i].sequence <= events[|events| - 1].sequence;
  }

  lemma FinishShape(w: World, c: nat, sid: SessionId, s: Session)
    requires c in w.conns && w.conns[c].phase.Replaying? && w.conns[c].phase.snapshot == s && s.sessionId == sid
    requires sid in w.store.sessions && w.store.sessions[sid] == s
    ensures var conn, n := w.conns[c], ResumeSequence(s, w.conns[c].phase.events);
            DoFinishReplay(w, c) ==
              SetConn(w, c, conn.(phase := Resuming, identifiedBot := Some(conn.phase.bot), activeSessionId := Some(sid),
                                  activeIntents := s.intents, sequence := n)).(store := UpdateSequence(w.store, sid, n))
    ensures var n := ResumeSequence(s, w.conns[c].phase.events);
            UpdateSequence(w.store, sid, n).sessions[sid] == s.(sequence := n)
  {
  }

  lemma FinishAt(w: World, c: nat, sid: SessionId)
    requires WorldOk(w) && c in w.conns && w.conns[c].target == Some(sid) && sid in w.store.sessions
    requires SessionOk(w, sid) && w.current[sid] == c
    requires w.conns[c].phase.Replaying? && w.conns[c].phase.next == |w.conns[c].phase.events|
    ensures WorldOk(DoFinishReplay(w, c))
  {
    var conn, s := w.conns[c], w.store.sessions[sid];
    assert ConnOk(conn) && conn.phase.snapshot == s;
    FinishLine(sid, s, w.origins[sid], LogOf(w.store, sid), conn);
    FinishShape(w, c, sid, s);
    var n := ResumeSequence(s, conn.phase.events);
    UpdateTouches(w.store, sid, n);
    RebuildLine(w, c, sid, UpdateSequence(w.store, sid, n),
      conn.(phase := Resuming, identifiedBot := Some(conn.phase.bot), activeSessionId := Some(sid),
            activeIntents := s.intents, sequence := n));
  }

  lemma FinishKeeps(w: World, c: nat)
    requires WorldOk(w) && Enabled(w, FinishReplay(c))
    ensures WorldOk(DoFinishReplay(w, c))
  {
    var sid := CurrentLine(w, c);
    FinishAt(w, c, sid);
  }

  lemma PushLog(sid: SessionId, o: Origin, log: seq<ReplayEvent>, e: ReplayEvent)
    requires LogOk(sid, o, log) && AllBelow(log, e.sequence)
    requires e.sessionId == sid && e.sequence > 0 && HasIntent(o.intents, RequiredIntent(e.kind))
    ensures LogOk(sid, o, log + [e]) && AllBelow(log + [e], e.sequence + 1)
  {
  }

  lemma AppendLine(sid: SessionId, s: Session, o: Origin, log: seq<ReplayEvent>, conn: Conn, e: ReplayEvent)
    requires ConnOk(conn) && LineOk(sid, s, o, log, conn) && conn.phase.Idle?
    requires e.sessionId == sid && e.sequence == conn.sequence + 1 && HasIntent(conn.activeIntents, RequiredIntent(e.kind))
    ensures LogAppend(log, e) == log + [e]
    ensures ConnOk(conn.(sequence := e.sequence, phase := Appended(e)))
    ensures LineOk(sid, s, o, log + [e], conn.(sequence := e.sequence, phase := Appended(e)))
  {
    AppendAbove(log, e);
    PushLog(sid, o, log, e);
  }

  lemma LiveKeeps(w: World, c: nat, event: RealtimeEvent)
    requires WorldOk(w) && Enabled(w, Live(c, event))
    ensures WorldOk(DoLive(w, c, event))
  {
    assert ConnOk(w.conns[c]);
    if w.conns[c].phase.Idle? && Forwarded(w.conns[c].activeIntents, event) {
      ForwardedLiveKeeps(w, c, event);
    }
  }

  /** What a forwarded realtime event does: the next number, one log entry, one pending send. */
  function LiveEvent(conn: Conn, sid: SessionId, event: RealtimeEvent): ReplayEvent
    requires Forwarded(conn.activeIntents, event)
  {
    ReplayEvent(sid, conn.sequence + 1, event.kind.value, event.payload.value)
  }

  lemma LiveShape(w: World, c: nat, sid: SessionId, event: RealtimeEvent)
    requires c in w.conns && w.conns[c].identifiedBot.Some? && w.conns[c].activeSessionId == Some(sid)
    requires Forwarded(w.conns[c].activeIntents, event)
    ensures var e := LiveEvent(w.conns[c], sid, event);
            DoLive(w, c, event) == SetConn(w, c, w.conns[c].(sequence := e.sequence, phase := Appended(e)))
                                     .(store := AppendReplayEvent(w.store, e))
  {
  }

  lemma ForwardedLiveKeeps(w: World, c: nat, event: RealtimeEvent)
    requires WorldOk(w) && Enabled(w, Live(c, event))
    requires w.conns[c].phase.Idle? && Forwarded(w.conns[c].activeIntents, event)
    ensures WorldOk(DoLive(w, c, event))
  {
    var sid := CurrentLine(w, c);
    assert Active(w.store.sessions[sid], w.conns[c]);
    LiveShape(w, c, sid, event);
    AppendKeeps(w, c, sid, LiveEvent(w.conns[c], sid, event));
  }

  lemma AppendKeeps(w: World, c: nat, sid: SessionId, e: ReplayEvent)
    requires WorldOk(w) && c in w.conns && sid in w.store.sessions && w.conns[c].target == Some(sid)
    requires SessionOk(w, sid) && w.current[sid] == c && w.conns[c].phase.Idle?
    requires e.sessionId == sid && e.sequence == w.conns[c].sequence + 1
    requires HasIntent(w.conns[c].activeIntents, RequiredIntent(e.kind))
    ensures WorldOk(SetConn(w, c, w.conns[c].(sequence := e.sequence, phase := Appended(e)))
                      .(store := AppendReplayEvent(w.store, e)))
  {
    var conn := w.conns[c];
    assert ConnOk(conn);
    var conn' := conn.(sequence := e.sequence, phase := Appended(e));
    AppendLine(sid, w.store.sessions[sid], w.origins[sid], LogOf(w.store, sid), conn, e);
    AppendTouches(w.store, e);
    var st := AppendReplayEvent(w.store, e);
    assert LogOf(st, sid) == LogOf(w.store, sid) + [e];
    RebuildLine(w, c, sid, st, conn');
  }

  lemma UpdateShape(w: World, c: nat, sid: SessionId)
    requires c in w.conns && w.conns[c].phase.SentLive? && w.conns[c].activeSessionId == Some(sid)
    ensures Apply(w, UpdateLive(c)) ==
              SetConn(w, c, w.conns[c].(phase := Idle)).(store := UpdateSequence(w.store, sid, w.conns[c].sequence))
  {
  }

  lemma UpdateSessionLine(sid: SessionId, s: Session, o: Origin, log: seq<ReplayEvent>, conn: Conn)
    requires ConnOk(conn) && LineOk(sid, s, o, log, conn) && conn.phase.SentLive?
    ensures Max(s.sequence, conn.sequence) == conn.sequence
    ensures ConnOk(conn.(phase := Idle)) && LineOk(sid, s.(sequence := conn.sequence), o, log, conn.(phase := Idle))
  {
  }

  lemma UpdateAt(w: World, c: nat, sid: SessionId)
    requires WorldOk(w) && c in w.conns && w.conns[c].target == Some(sid) && sid in w.store.sessions
    requires SessionOk(w, sid) && w.current[sid] == c && w.conns[c].phase.SentLive?
    ensures WorldOk(SetConn(w, c, w.conns[c].(phase := Idle)).(store := UpdateSequence(w.store, sid, w.conns[c].sequence)))
  {
    var conn := w.conns[c];
    assert ConnOk(conn);
    UpdateSessionLine(sid, w.store.sessions[sid], w.origins[sid], LogOf(w.store, sid), conn);
    UpdateTouches(w.store, sid, conn.sequence);
    RebuildLine(w, c, sid, UpdateSequence(w.store, sid, conn.sequence), conn.(phase := Idle));
  }

  lemma UpdateKeeps(w: World, c: nat)
    requires WorldOk(w) && Enabled(w, UpdateLive(c))
    ensures WorldOk(Apply(w, UpdateLive(c)))
  {
    var sid := CurrentLine(w, c);
    assert Active(w.store.sessions[sid], w.conns[c]);
    UpdateShape(w, c, sid);
    UpdateAt(w, c, sid);
  }

  lemma DeliverLine(sid: SessionId, s: Session, o: Origin, log: seq<ReplayEvent>, conn: Conn)
    requires ConnOk(conn) && LineOk(sid, s, o, log, conn) && conn.delivered < |conn.sent|
    ensures ConnOk(conn.(delivered := conn.delivered + 1))
    ensures LineOk(sid, s, o, log, conn.(delivered := conn.delivered + 1))
  {
  }

  lemma RebuildReceived(w: World, c: nat, sid: SessionId, conn: Conn, fs: seq<Frame>)
    requires WorldOk(w) && c in w.conns && sid in w.store.sessions && w.conns[c].target == Some(sid)
    requires SessionOk(w, sid) && w.current[sid] == c
    requires ConnOk(conn)
    requires LineOk(sid, w.store.sessions[sid], w.origins[sid], LogOf(w.store, sid), conn)
    ensures WorldOk(SetConn(w, c, conn).(received := w.received[sid := fs]))
  {
    Rebuild(w, SetConn(w, c, conn).(received := w.received[sid := fs]), c, sid);
  }

  lemma DeliverShape(w: World, c: nat)
    requires Enabled(w, Deliver(c))
    ensures c in w.conns && w.conns[c].target.Some?
    ensures var conn, sid := w.conns[c], w.conns[c].target.value;
            && sid in w.current && w.current[sid] == c && sid in w.received && conn.delivered < |conn.sent|
            && Apply(w, Deliver(c)) == SetConn(w, c, conn.(delivered := conn.delivered + 1))
                                         .(received := w.received[sid := w.received[sid] + [conn.sent[conn.delivered]]])
  {
  }

  lemma DeliverTo(w: World, c: nat, sid: SessionId)
    requires WorldOk(w) && c in w.conns && w.conns[c].target == Some(sid) && sid in w.current && w.current[sid] == c
    requires sid in w.received && w.conns[c].delivered < |w.conns[c].sent|
    ensures WorldOk(SetConn(w, c, w.conns[c].(delivered := w.conns[c].delivered + 1))
                      .(received := w.received[sid := w.received[sid] + [w.conns[c].sent[w.conns[c].delivered]]]))
  {
    var conn := w.conns[c];
    assert ConnOk(conn) && Anchored(w, c) && sid in w.store.sessions;
    assert SessionOk(w, sid);
    var conn', fs := conn.(delivered := conn.delivered + 1), w.received[sid] + [conn.sent[conn.delivered]];
    DeliverLine(sid, w.store.sessions[sid], w.origins[sid], LogOf(w.store, sid), conn);
    RebuildReceived(w, c, sid, conn', fs);
  }

  lemma DeliverKeeps(w: World, c: nat)
    requires WorldOk(w) && Enabled(w, Deliver(c))
    ensures WorldOk(Apply(w, Deliver(c)))
  {
    DeliverShape(w, c);
    DeliverTo(w, c, w.conns[c].target.value);
  }

  lemma StepKeeps(w: World, s: Step)
    requires WorldOk(w) && Enabled(w, s)
    ensures WorldOk(Apply(w, s))
  {
    match s
    case Connect(c) => RebuildLoose(w, c, NewConn);
    case Disconnect(c) => CloseKeeps(w, c);
    case Identify(c, payload, freshId) => IdentifyKeeps(w, c, payload, freshId);
    case Resume(c, payload) => ResumeKeeps(w, c, payload);
    case ListReplay(c) => ListKeeps(w, c);
    case FinishReplay(c) => FinishKeeps(w, c);
    case Live(c, event) => LiveKeeps(w, c, event);
    case UpdateLive(c) => UpdateKeeps(w, c);
    case Deliver(c) => DeliverKeeps(w, c);
    case _ => SendKeeps(w, s.c, s);
  }

  /** The invariant holds in every reachable world. */
  lemma {:induction false} RunKeeps(steps: seq<Step>)
    requires Reach(steps).Some?
    ensures WorldOk(Reach(steps).value)
  {
    if steps != [] {
      RunKeeps(steps[..|steps| - 1]);
      StepKeeps(Reach(steps[..|steps| - 1]).value, steps[|steps| - 1]);
    }
  }
}
