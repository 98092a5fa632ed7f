/**
 What each client frame and each realtime event does on the gateway machine: exactly who is let
 in, what is logged and sent, and under which numbers.
 */
module GatewayDispatch {
  import opened Outcomes
  import opened GatewayStore
  import opened GatewayProtocol
  import opened GatewayReplay
  import opened GatewayLimit

  // ---- the numbers on a connection ----

  /** From the first READY or RESUMED on, every frame has the next number. */
  ghost predicate Consecutive(fs: seq<Frame>) {
    forall k, i :: 0 <= k <= i && i + 1 < |fs| && !fs[k].DispatchFrame? ==> fs[i + 1].Sequence() == fs[i].Sequence() + 1
  }

  /** READY comes first, under the number 1. */
  ghost predicate ReadyFirst(fs: seq<Frame>) {
    forall i :: 0 <= i < |fs| && fs[i].ReadyFrame? ==> i == 0 && fs[i].number == 1
  }

  ghost predicate OnlyReplayed(fs: seq<Frame>) {
    forall i :: 0 <= i < |fs| ==> fs[i].DispatchFrame?
  }

  ghost predicate EndsAt(fs: seq<Frame>, n: int) {
    fs != [] && fs[|fs| - 1].Sequence() == n
  }

  ghost predicate Numbered(conn: Conn) {
    && Consecutive(conn.sent) && ReadyFirst(conn.sent)
    && match conn.phase
       case Open => conn.sent == [] && conn.sequence == 0
       case Listing(_, _, _) => conn.sent == []
       case Readying => conn.sent == [] && conn.sequence == 1
       case Replaying(_, _, _, _) => OnlyReplayed(conn.sent)
       case Resuming => OnlyReplayed(conn.sent)
       case Idle => EndsAt(conn.sent, conn.sequence)
       case SentLive => EndsAt(conn.sent, conn.sequence)
       case Appended(e) => EndsAt(conn.sent, conn.sequence - 1) && e.sequence == conn.sequence
       case Closed => true
  }

  lemma PushNumbered(fs: seq<Frame>, f: Frame)
    requires Consecutive(fs) && ReadyFirst(fs)
    requires OnlyReplayed(fs) || EndsAt(fs, f.Sequence() - 1)
    requires f.ReadyFrame? ==> fs == [] && f.number == 1
    ensures Consecutive(fs + [f]) && ReadyFirst(fs + [f]) && EndsAt(fs + [f], f.Sequence())
  {
  }

  /** A send: one more frame, or the end of the connection. */
  lemma NumberedSend(w: World, s: Step)
    requires Enabled(w, s) && !s.Connect? && Numbered(w.conns[s.c])
    requires s.SendReady? || s.SendReplay? || s.SendResumed? || s.SendLive?
    ensures s.c in Apply(w, s).conns && Numbered(Apply(w, s).conns[s.c])
  {
    var conn := w.conns[s.c];
    if s.ok && (s.SendReady? ==> conn.activeSessionId.Some?) {
      var (f, next) := NextFrame(conn);
      assert Apply(w, s) == SetConn(w, s.c, Push(conn, f, next));
      PushNumbered(conn.sent, f);
    }
  }

  lemma NumberedIdentify(w: World, c: nat, payload: Option<IdentifyPayload>, freshId: SessionId)
    requires c in w.conns && (w.conns[c].phase.Open? || w.conns[c].identifiedBot.Some?) && Numbered(w.conns[c])
    ensures c in DoIdentify(w, c, payload, freshId).conns && Numbered(DoIdentify(w, c, payload, freshId).conns[c])
  {
  }

  lemma NumberedResume(w: World, c: nat, payload: Option<ResumePayload>)
    requires c in w.conns && (w.conns[c].phase.Open? || w.conns[c].identifiedBot.Some?) && Numbered(w.conns[c])
    ensures c in DoResume(w, c, payload).conns && Numbered(DoResume(w, c, payload).conns[c])
  {
  }

  lemma LiveMoves(w: World, c: nat, event: RealtimeEvent)
    requires c in w.conns && w.conns[c].identifiedBot.Some? && Forwarded(w.conns[c].activeIntents, event)
    ensures var conn := w.conns[c];
            var e := LiveEvent(conn, if conn.activeSessionId.Some? then conn.activeSessionId.value else 0, event);
            DoLive(w, c, event).conns == w.conns[c := conn.(sequence := conn.sequence + 1, phase := Appended(e))]
  {
  }

  lemma NumberedLive(w: World, c: nat, event: RealtimeEvent)
    requires c in w.conns && (w.conns[c].phase.Idle? || w.conns[c].identifiedBot.None?) && Numbered(w.conns[c])
    ensures c in DoLive(w, c, event).conns && Numbered(DoLive(w, c, event).conns[c])
  {
    if w.conns[c].identifiedBot.None? || !Forwarded(w.conns[c].activeIntents, event) {
      LiveWithoutBot(w, c, event);
    } else {
      LiveMoves(w, c, event);
    }
  }

  lemma NumberedStep(w: World, s: Step)
    requires Enabled(w, s) && (s.c in w.conns ==> ConnOk(w.conns[s.c]) && Numbered(w.conns[s.c]))
    ensures s.c in Apply(w, s).conns && Numbered(Apply(w, s).conns[s.c])
  {
    match s
    case SendReady(_, _) => NumberedSend(w, s);
    case SendReplay(_, _) => NumberedSend(w, s);
    case SendResumed(_, _) => NumberedSend(w, s);
    case SendLive(_, _) => NumberedSend(w, s);
    case Identify(c, payload, freshId) => NumberedIdentify(w, c, payload, freshId);
    case Resume(c, payload) => NumberedResume(w, c, payload);
    case Live(c, event) => NumberedLive(w, c, event);
    case _ =>
  }

  ghost predicate AllNumbered(w: World) {
    forall c :: c in w.conns ==> Numbered(w.conns[c])
  }

  lemma {:induction false} RunNumbers(steps: seq<Step>)
    requires Reach(steps).Some?
    ensures AllNumbered(Reach(steps).value)
  {
    if steps != [] {
      var init, s := steps[..|steps| - 1], steps[|steps| - 1];
      RunNumbers(init);
      RunKeeps(init);
      NumberedStep(Reach(init).value, s);
      StepScope(Reach(init).value, s);
    }
  }

  /**
   On every connection READY is the first frame and numbered 1, and from READY or RESUMED on
   every frame has the number after that of the frame before it.
   */
  lemma ConnectionNumbersConsecutive(steps: seq<Step>, c: nat)
    requires Reach(steps).Some? && c in Reach(steps).value.conns
    ensures var sent := Reach(steps).value.conns[c].sent;
            && (forall i :: 0 <= i < |sent| && sent[i].ReadyFrame? ==> i == 0 && sent[i].number == 1)
            && (forall k, i :: 0 <= k <= i && i + 1 < |sent| && !sent[k].DispatchFrame? ==>
                  sent[i + 1].Sequence() == sent[i].Sequence() + 1)
  {
    RunNumbers(steps);
  }

  // ---- what was asked for ----

  /** The step is the Identify that creates the session, with the bot and the intents of its origin. */
  ghost predicate Creates(s: Step, sid: SessionId, o: Origin) {
    && s.Identify? && s.freshId == sid && s.identify.Some? && s.identify.value.bot == Some(o.bot)
    && o.intents == (if s.identify.value.intents.Some? then s.identify.value.intents.value else 0)
  }

  ghost predicate Created(steps: seq<Step>, sid: SessionId, o: Origin) {
    exists k :: 0 <= k < |steps| && Creates(steps[k], sid, o)
  }

  lemma CreatedBefore(steps: seq<Step>, s: Step, sid: SessionId, o: Origin)
    requires Created(steps, sid, o)
    ensures Created(steps + [s], sid, o)
  {
    var k :| 0 <= k < |steps| && Creates(steps[k], sid, o);
    assert (steps + [s])[k] == steps[k];
  }

  lemma CreatedNow(steps: seq<Step>, s: Step, sid: SessionId, o: Origin)
    requires Creates(s, sid, o)
    ensures Created(steps + [s], sid, o)
  {
    assert (steps + [s])[|steps|] == s;
  }

  lemma IdentifyCreates(w: World, c: nat, payload: Option<IdentifyPayload>, freshId: SessionId, sid: SessionId)
    requires c in w.conns && sid in DoIdentify(w, c, payload, freshId).origins
    ensures var o := DoIdentify(w, c, payload, freshId).origins[sid];
            (sid in w.origins && w.origins[sid] == o) || Creates(Identify(c, payload, freshId), sid, o)
  {
  }

  lemma ResumeKeepsOrigins(w: World, c: nat, payload: Option<ResumePayload>)
    requires c in w.conns
    ensures DoResume(w, c, payload).origins == w.origins
  {
  }

  lemma LiveKeepsOrigins(w: World, c: nat, event: RealtimeEvent)
    requires c in w.conns
    ensures DoLive(w, c, event).origins == w.origins
  {
  }

  lemma OriginAfter(w: World, s: Step, sid: SessionId)
    requires Enabled(w, s) && sid in Apply(w, s).origins
    ensures var o := Apply(w, s).origins[sid]; (sid in w.origins && w.origins[sid] == o) || Creates(s, sid, o)
  {
    match s
    case Identify(c, payload, freshId) => IdentifyCreates(w, c, payload, freshId, sid);
    case Resume(c, payload) => ResumeKeepsOrigins(w, c, payload);
    case Live(c, event) => LiveKeepsOrigins(w, c, event);
    case _ =>
  }

  /** The origin that a session carries through the run is what its own Identify asked for. */
  lemma {:induction false} OriginsAsked(steps: seq<Step>, sid: SessionId)
    requires Reach(steps).Some? && sid in Reach(steps).value.origins
    ensures Created(steps, sid, Reach(steps).value.origins[sid])
  {
    if steps != [] {
      var init, s := steps[..|steps| - 1], steps[|steps| - 1];
      var w := Reach(init).value;
      var o := Reach(steps).value.origins[sid];
      assert init + [s] == steps;
      OriginAfter(w, s, sid);
      if Creates(s, sid, o) {
        CreatedNow(init, s, sid, o);
      } else {
        OriginsAsked(init, sid);
        CreatedBefore(init, s, sid, o);
      }
    }
  }

  // ---- exactly who is let in ----

  lemma SameOwnerIs(s: Session, bot: Bot)
    ensures s.OwnedBy(bot) <==> Owns(bot, s)
  {
  }

  /** The Resume names a session of its bot, and a number that the session has reached. */
  ghost predicate MayResume(w: World, c: nat, payload: Option<ResumePayload>)
    requires c in w.conns
  {
    && w.conns[c].phase.Open? && payload.Some? && payload.value.bot.Some?
    && var p := payload.value;
       && p.sessionId in w.store.sessions && Owns(p.bot.value, w.store.sessions[p.sessionId])
       && (if p.seqNo.Some? then p.seqNo.value else 0) <= w.store.sessions[p.sessionId].sequence
  }

  lemma AcceptedExactly(w: World, c: nat, payload: Option<ResumePayload>)
    requires c in w.conns && (w.conns[c].phase.Open? <==> w.conns[c].identifiedBot.None?)
    ensures MayResume(w, c, payload) <==> ResumeAccepted(w, c, payload)
  {
    if payload.Some? && payload.value.bot.Some? && payload.value.sessionId in w.store.sessions {
      SameOwnerIs(w.store.sessions[payload.value.sessionId], payload.value.bot.value);
    }
  }

  lemma RefusedExactly(w: World, c: nat, payload: Option<ResumePayload>)
    requires c in w.conns && !ResumeAccepted(w, c, payload)
    ensures DoResume(w, c, payload) ==
              if w.conns[c].identifiedBot.None? && payload.None? then w else SetConn(w, c, w.conns[c].(phase := Closed))
  {
  }

  lemma OpenOrIdle(steps: seq<Step>, c: nat)
    requires Reach(steps).Some? && c in Reach(steps).value.conns
    ensures var conn := Reach(steps).value.conns[c];
            && (conn.phase.Open? ==> conn.identifiedBot.None? && conn.sequence == 0)
            && (conn.phase.Idle? ==> conn.identifiedBot.Some?)
  {
    RunKeeps(steps);
    RunNumbers(steps);
    assert ConnOk(Reach(steps).value.conns[c]);
  }

  /**
   In every reached world: a Resume takes over the session exactly on a connection that is not
   identified, with a token of the session's own bot and a number not above the stored one. An
   unreadable one on such a connection changes nothing, and every other closes the connection.
   */
  lemma ResumeExactly(steps: seq<Step>, c: nat, payload: Option<ResumePayload>)
    requires Reach(steps).Some? && Enabled(Reach(steps).value, Resume(c, payload))
    ensures var w, run := Reach(steps).value, Reach(steps + [Resume(c, payload)]);
            && run.Some?
            && if MayResume(w, c, payload) then
                 var sid := payload.value.sessionId;
                 && run.value.store == w.store && c in run.value.conns && run.value.conns[c].phase.Listing?
                 && run.value.conns[c].phase.snapshot == w.store.sessions[sid]
                 && run.value.conns[c].target == Some(sid) && run.value.current == w.current[sid := c]
               else if w.conns[c].phase.Open? && payload.None? then run.value == w
               else run.value == SetConn(w, c, w.conns[c].(phase := Closed))
  {
    var w := Reach(steps).value;
    OpenOrIdle(steps, c);
    RunKeeps(steps);
    ReachSnoc(steps, Resume(c, payload));
    AcceptedExactly(w, c, payload);
    if ResumeAccepted(w, c, payload) {
      AcceptedResume(w, c, payload.value);
    } else {
      RefusedExactly(w, c, payload);
    }
  }

  /** Every check of an Identify but the guild listing is passed. */
  ghost predicate PassesChecks(p: IdentifyPayload) {
    && (if p.intents.Some? then p.intents.value else 0) & 0x203 == (if p.intents.Some? then p.intents.value else 0)
    && ShardOk(p.shard) && p.bot.Some? && p.withinIdentifyLimit
  }

  lemma ChecksExactly(p: IdentifyPayload)
    ensures IdentifyOutcomeOf(false, Some(p)).Accept? <==> PassesChecks(p) && p.guildsListed
    ensures IdentifyOutcomeOf(false, Some(p)).StayOpen? <==> PassesChecks(p) && !p.guildsListed
  {
    IdentifyOutcomeExact(false, Some(p));
  }

  /** The session that an accepted Identify creates, and the connection after it. */
  ghost predicate Identified(w: World, w': World, c: nat, p: IdentifyPayload, freshId: SessionId)
    requires c in w.conns && p.bot.Some?
  {
    var bot, intents := p.bot.value, if p.intents.Some? then p.intents.value else 0;
    && w'.store == w.store.(sessions := w.store.sessions[freshId :=
         Session(freshId, bot.applicationId, bot.organizationId, bot.botUserId, 1, intents)])
    && w'.conns == w.conns[c := w.conns[c].(phase := Readying, identifiedBot := Some(bot), activeSessionId := Some(freshId),
         activeIntents := intents, sequence := 1, target := Some(freshId), accepted := w.conns[c].accepted + 1)]
  }

  lemma IdentifyOpen(w: World, c: nat, payload: Option<IdentifyPayload>, freshId: SessionId)
    requires c in w.conns && w.conns[c].identifiedBot.None? && w.conns[c].sequence == 0
    ensures var w' := DoIdentify(w, c, payload, freshId);
            if payload.None? || (PassesChecks(payload.value) && !payload.value.guildsListed) then w' == w
            else if PassesChecks(payload.value) then Identified(w, w', c, payload.value, freshId)
            else w' == SetConn(w, c, w.conns[c].(phase := Closed))
  {
    if payload.Some? {
      ChecksExactly(payload.value);
      IdentifyOutcomeExact(false, payload);
    }
  }

  /**
   In every reached world: on a connection that is not identified, an Identify that passes every
   check creates its session under number 1; an unreadable one, and one whose guilds cannot be
   listed, changes nothing; every other, and any on an identified connection, closes it.
   */
  lemma IdentifyExactly(steps: seq<Step>, c: nat, payload: Option<IdentifyPayload>, freshId: SessionId)
    requires Reach(steps).Some? && Enabled(Reach(steps).value, Identify(c, payload, freshId))
    ensures var w, run := Reach(steps).value, Reach(steps + [Identify(c, payload, freshId)]);
            && run.Some?
            && if w.conns[c].phase.Open? && (payload.None? || (PassesChecks(payload.value) && !payload.value.guildsListed))
               then run.value == w
               else if w.conns[c].phase.Open? && PassesChecks(payload.value)
               then Identified(w, run.value, c, payload.value, freshId)
               else run.value == SetConn(w, c, w.conns[c].(phase := Closed))
  {
    var w := Reach(steps).value;
    OpenOrIdle(steps, c);
    ReachSnoc(steps, Identify(c, payload, freshId));
    if w.conns[c].phase.Open? {
      IdentifyOpen(w, c, payload, freshId);
    } else {
      IdentifyOutcomeExact(true, payload);
    }
  }

  // ---- which events are forwarded ----

  lemma ForwardedMeans(intents: bv64, event: RealtimeEvent)
    ensures Forwarded(intents, event)
            <==> event.kind.Some? && AskedFor(intents, event.kind.value) && event.receivable && event.payload.Some?
  {
    if event.kind.Some? { GateIsAsked(intents, event.kind.value); }
  }

  /** What an idle connection is, in a reached world. */
  lemma IdleConn(steps: seq<Step>, c: nat) returns (sid: SessionId)
    requires Reach(steps).Some? && c in Reach(steps).value.conns && Reach(steps).value.conns[c].phase.Idle?
    ensures var w := Reach(steps).value;
            var conn := w.conns[c];
            && conn.target == Some(sid) && conn.activeSessionId == Some(sid) && conn.identifiedBot.Some?
            && sid in w.origins && conn.activeIntents == w.origins[sid].intents
            && EndsAt(conn.sent, conn.sequence)
            && StrictlyIncreasing(LogOf(w.store, sid)) && AllBelow(LogOf(w.store, sid), conn.sequence + 1)
  {
    RunKeeps(steps);
    RunNumbers(steps);
    assert ConnOk(Reach(steps).value.conns[c]);
    sid := CurrentLine(Reach(steps).value, c);
  }

  /** The event is of a kind the session's Identify asked for, may be received and has a payload. */
  ghost predicate Wanted(w: World, c: nat, event: RealtimeEvent)
    requires c in w.conns
  {
    var conn := w.conns[c];
    && conn.phase.Idle? && conn.sent != [] && conn.target.Some? && conn.target.value in w.origins
    && event.kind.Some? && AskedFor(w.origins[conn.target.value].intents, event.kind.value)
    && event.receivable && event.payload.Some?
  }

  /** The event under the number after that of the last frame. */
  function NextEvent(conn: Conn, event: RealtimeEvent): ReplayEvent
    requires conn.sent != [] && conn.target.Some? && event.kind.Some? && event.payload.Some?
  {
    ReplayEvent(conn.target.value, conn.sent[|conn.sent| - 1].Sequence() + 1, event.kind.value, event.payload.value)
  }

  lemma WantedIsForwarded(steps: seq<Step>, c: nat, event: RealtimeEvent)
    requires Reach(steps).Some? && c in Reach(steps).value.conns && Reach(steps).value.conns[c].phase.Idle?
    ensures var w := Reach(steps).value; Wanted(w, c, event) <==> Forwarded(w.conns[c].activeIntents, event)
  {
    var sid := IdleConn(steps, c);
    ForwardedMeans(Reach(steps).value.conns[c].activeIntents, event);
  }

  lemma ForwardedLive(w: World, c: nat, sid: SessionId, event: RealtimeEvent, e: ReplayEvent)
    requires c in w.conns && w.conns[c].phase.Idle? && w.conns[c].identifiedBot.Some? && w.conns[c].activeSessionId == Some(sid)
    requires Forwarded(w.conns[c].activeIntents, event)
    requires e == ReplayEvent(sid, w.conns[c].sequence + 1, event.kind.value, event.payload.value)
    requires StrictlyIncreasing(LogOf(w.store, sid)) && AllBelow(LogOf(w.store, sid), e.sequence)
    ensures Enabled(w, Live(c, event))
    ensures var w1 := Apply(w, Live(c, event));
            && LogOf(w1.store, sid) == LogOf(w.store, sid) + [e]
            && Enabled(w1, SendLive(c, true)) && c in Apply(w1, SendLive(c, true)).conns
            && Apply(w1, SendLive(c, true)).conns[c].sent == w.conns[c].sent + [DispatchFrame(e)]
  {
    LiveShape(w, c, sid, event);
    AppendAbove(LogOf(w.store, sid), e);
  }

  /** A wanted event is logged, and then sent. */
  lemma WantedIsSent(steps: seq<Step>, c: nat, event: RealtimeEvent)
    requires Reach(steps).Some? && c in Reach(steps).value.conns && Wanted(Reach(steps).value, c, event)
    ensures var w := Reach(steps).value;
            var conn, e := w.conns[c], NextEvent(w.conns[c], event);
            var logged, sent := Reach(steps + [Live(c, event)]), Reach(steps + [Live(c, event)] + [SendLive(c, true)]);
            && logged.Some? && LogOf(logged.value.store, conn.target.value) == LogOf(w.store, conn.target.value) + [e]
            && sent.Some? && c in sent.value.conns && sent.value.conns[c].sent == conn.sent + [DispatchFrame(e)]
  {
    var w := Reach(steps).value;
    var sid := IdleConn(steps, c);
    WantedIsForwarded(steps, c, event);
    ForwardedLive(w, c, sid, event, NextEvent(w.conns[c], event));
    ReachSnoc(steps, Live(c, event));
    ReachSnoc(steps + [Live(c, event)], SendLive(c, true));
  }

  /** Any other event changes nothing. */
  lemma OtherIsIgnored(steps: seq<Step>, c: nat, event: RealtimeEvent)
    requires Reach(steps).Some? && Enabled(Reach(steps).value, Live(c, event)) && !Wanted(Reach(steps).value, c, event)
    ensures Reach(steps + [Live(c, event)]) == Reach(steps)
  {
    var w := Reach(steps).value;
    RunKeeps(steps);
    assert ConnOk(w.conns[c]);
    if w.conns[c].phase.Idle? { WantedIsForwarded(steps, c, event); }
    LiveWithoutBot(w, c, event);
    ReachSnoc(steps, Live(c, event));
  }

  /**
   In every reached world, exactly which realtime events are forwarded on a connection: on one
   that is idle after READY or RESUMED, the events of a kind that the Identify of its session
   asked for, that its bot may receive and that have a payload. Such an event is logged, and
   sent under the number after that of the last frame; any other event changes nothing.
   */
  lemma ForwardedExactly(steps: seq<Step>, c: nat, event: RealtimeEvent)
    requires Reach(steps).Some? && Enabled(Reach(steps).value, Live(c, event))
    ensures var w := Reach(steps).value;
            var logged, sent := Reach(steps + [Live(c, event)]), Reach(steps + [Live(c, event)] + [SendLive(c, true)]);
            && (w.conns[c].phase.Idle? ==>
                  && w.conns[c].sent != [] && w.conns[c].target.Some? && w.conns[c].target.value in w.origins)
            && if Wanted(w, c, event) then
              var conn, e := w.conns[c], NextEvent(w.conns[c], event);
              && logged.Some? && LogOf(logged.value.store, conn.target.value) == LogOf(w.store, conn.target.value) + [e]
              && sent.Some? && c in sent.value.conns && sent.value.conns[c].sent == conn.sent + [DispatchFrame(e)]
            else logged == Some(w)
  {
    if Reach(steps).value.conns[c].phase.Idle? { var _ := IdleConn(steps, c); }
    if Wanted(Reach(steps).value, c, event) { WantedIsSent(steps, c, event); } else { OtherIsIgnored(steps, c, event); }
  }
}
