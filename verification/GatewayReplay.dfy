/**
 What holds on every run of the gateway machine, whatever clients report: ordered numbers on
 each connection, a replay log that is never overwritten, and intents that survive resumes.
 */
module GatewayReplay {
  import opened Outcomes
  import opened GatewayStore
  import opened GatewayProtocol

  // ---- the log and the numbers on a connection ----

  lemma ResumeKeepsReplay(st: Store, sid: SessionId, bot: Bot, n: int)
    ensures ResumeSession(st, sid, bot, n).0.replay == st.replay
  {
  }

  lemma OtherStepsKeepLog(w: World, s: Step)
    requires Enabled(w, s) && !s.Live?
    ensures Apply(w, s).store.replay == w.store.replay
  {
    if s.Resume? {
      if ResumeAccepted(w, s.c, s.resume) {
        var p := s.resume.value;
        ResumeKeepsReplay(w.store, p.sessionId, p.bot.value, ClientSequence(p));
      } else {
        RefusedResume(w, s.c, s.resume);
      }
    }
  }

  lemma LiveWithoutBot(w: World, c: nat, event: RealtimeEvent)
    requires c in w.conns && (w.conns[c].identifiedBot.None? || !Forwarded(w.conns[c].activeIntents, event))
    ensures DoLive(w, c, event) == w
  {
  }

  /** A forwarded event is pushed on its own session's log and on no other. */
  lemma LiveAppends(w: World, c: nat, event: RealtimeEvent) returns (sid: SessionId, e: ReplayEvent)
    requires WorldOk(w) && Enabled(w, Live(c, event))
    requires w.conns[c].phase.Idle? && Forwarded(w.conns[c].activeIntents, event)
    ensures LogOf(DoLive(w, c, event).store, sid) == LogOf(w.store, sid) + [e]
    ensures forall t :: t != sid ==> LogOf(DoLive(w, c, event).store, t) == LogOf(w.store, t)
  {
    sid := CurrentLine(w, c);
    assert ConnOk(w.conns[c]) && Active(w.store.sessions[sid], w.conns[c]);
    LiveShape(w, c, sid, event);
    e := LiveEvent(w.conns[c], sid, event);
    AppendLine(sid, w.store.sessions[sid], w.origins[sid], LogOf(w.store, sid), w.conns[c], e);
    AppendTouches(w.store, e);
  }

  /** Every step leaves every session's log as it is or adds events at its end. */
  lemma LogOnlyGrows(w: World, s: Step, sid: SessionId)
    requires WorldOk(w) && Enabled(w, s)
    ensures LogOf(w.store, sid) <= LogOf(Apply(w, s).store, sid)
  {
    if !s.Live? {
      OtherStepsKeepLog(w, s);
    } else if w.conns[s.c].identifiedBot.None? || !Forwarded(w.conns[s.c].activeIntents, s.event) {
      LiveWithoutBot(w, s.c, s.event);
    } else {
      assert ConnOk(w.conns[s.c]);
      var t, e := LiveAppends(w, s.c, s.event);
    }
  }

  /**
   In every run the log is at most one ahead of the stored sequence, and no append ever
   replaces or moves an entry, whatever sequence numbers clients report.
   */
  lemma LogNeverOverwritten(steps: seq<Step>, s: Step, sid: SessionId)
    requires Reach(steps).Some? && Enabled(Reach(steps).value, s)
    ensures var w := Reach(steps).value;
            && (forall e :: e in LogOf(w.store, sid) ==>
                 sid in w.store.sessions && e.sequence <= w.store.sessions[sid].sequence + 1)
            && LogOf(w.store, sid) <= LogOf(Apply(w, s).store, sid)
  {
    RunKeeps(steps);
    var w := Reach(steps).value;
    if sid in w.store.sessions { assert SessionOk(w, sid); }
    LogOnlyGrows(w, s, sid);
  }

  /**
   On every connection the dispatch numbers strictly increase, nothing is dispatched before
   an Identify or Resume was accepted, and at most one of them ever is.
   */
  lemma ConnectionNumbersIncrease(steps: seq<Step>, c: nat)
    requires Reach(steps).Some? && c in Reach(steps).value.conns
    ensures var conn := Reach(steps).value.conns[c];
            && (forall i, j :: 0 <= i < j < |conn.sent| ==> conn.sent[i].Sequence() < conn.sent[j].Sequence())
            && (conn.sent != [] ==> conn.accepted == 1)
            && conn.accepted <= 1
  {
    RunKeeps(steps);
    assert ConnOk(Reach(steps).value.conns[c]);
  }

  // ---- intents and ownership ----

  ghost predicate FramesLogged(log: seq<ReplayEvent>, fs: seq<Frame>) {
    forall i :: 0 <= i < |fs| && fs[i].DispatchFrame? ==> fs[i].event in log
  }

  predicate SameOwner(a: Bot, b: Bot) {
    a.applicationId == b.applicationId && a.organizationId == b.organizationId && a.botUserId == b.botUserId
  }

  ghost predicate ConnLogged(w: World, c: nat)
    requires c in w.conns
  {
    var conn := w.conns[c];
    conn.target.Some? ==>
      && FramesLogged(LogOf(w.store, conn.target.value), conn.sent)
      && conn.target.value in w.origins
      && (conn.identifiedBot.Some? ==> SameOwner(conn.identifiedBot.value, w.origins[conn.target.value].bot))
  }

  ghost predicate AllLogged(w: World) {
    forall c :: c in w.conns ==> ConnLogged(w, c)
  }

  /** Only one connection changes, and origins are written once. */
  ghost predicate Scoped(w: World, w': World, c: nat) {
    && (forall d :: d in w.conns && d != c ==> d in w'.conns && w'.conns[d] == w.conns[d])
    && (forall d :: d in w'.conns ==> d == c || d in w.conns)
    && (forall sid :: sid in w.store.sessions && sid in w.origins ==> (sid in w'.origins && w'.origins[sid] == w.origins[sid]))
  }

  lemma IdentifyScope(w: World, c: nat, payload: Option<IdentifyPayload>, freshId: SessionId)
    requires c in w.conns && freshId !in w.store.sessions
    ensures Scoped(w, DoIdentify(w, c, payload, freshId), c)
  {
  }

  lemma ResumeScope(w: World, c: nat, payload: Option<ResumePayload>)
    requires c in w.conns
    ensures Scoped(w, DoResume(w, c, payload), c)
  {
    if !ResumeAccepted(w, c, payload) { RefusedResume(w, c, payload); }
  }

  lemma LiveScope(w: World, c: nat, event: RealtimeEvent)
    requires c in w.conns
    ensures Scoped(w, DoLive(w, c, event), c)
  {
  }

  lemma StepScope(w: World, s: Step)
    requires Enabled(w, s)
    ensures Scoped(w, Apply(w, s), s.c)
  {
    match s
    case Identify(c, payload, freshId) => IdentifyScope(w, c, payload, freshId);
    case Resume(c, payload) => ResumeScope(w, c, payload);
    case Live(c, event) => LiveScope(w, c, event);
    case _ =>
  }

  predicate AboutToSend(conn: Conn, f: Frame) {
    f.DispatchFrame? ==>
      || (conn.phase.Appended? && f.event == conn.phase.pending)
      || (conn.phase.Replaying? && f.event in conn.phase.events)
  }

  /** What a step does to the connection that takes it. */
  lemma OwnStep(w: World, s: Step)
    requires Enabled(w, s) && !s.Connect?
    ensures s.c in Apply(w, s).conns
    ensures var conn, conn' := w.conns[s.c], Apply(w, s).conns[s.c];
            && (conn'.sent == conn.sent || (exists f :: conn'.sent == conn.sent + [f] && AboutToSend(conn, f)))
            && (conn'.identifiedBot == conn.identifiedBot || conn'.phase.Readying? || conn'.phase.Resuming?)
            && (conn'.target == conn.target || conn.identifiedBot.None?)
  {
    var conn, conn' := w.conns[s.c], Apply(w, s).conns[s.c];
    if conn'.sent != conn.sent {
      assert conn'.sent == conn.sent + [conn'.sent[|conn.sent|]];
    }
  }

  lemma GrownLog(log: seq<ReplayEvent>, log': seq<ReplayEvent>, fs: seq<Frame>)
    requires log <= log' && FramesLogged(log, fs)
    ensures FramesLogged(log', fs)
  {
    forall i | 0 <= i < |fs| && fs[i].DispatchFrame? ensures fs[i].event in log' {
      var k :| 0 <= k < |log| && log[k] == fs[i].event;
      assert log'[k] == fs[i].event;
    }
  }

  /** Whatever a connection is about to send is in its session's log. */
  lemma SendableIsLogged(w: World, c: nat)
    requires WorldOk(w) && c in w.conns
    ensures w.conns[c].phase.Appended? ==>
              w.conns[c].target.Some? && w.conns[c].phase.pending in LogOf(w.store, w.conns[c].target.value)
    ensures w.conns[c].phase.Replaying? ==>
              && w.conns[c].target.Some?
              && (forall e :: e in w.conns[c].phase.events ==> e in LogOf(w.store, w.conns[c].target.value))
  {
    if w.conns[c].phase.Appended? || w.conns[c].phase.Replaying? {
      var sid := CurrentLine(w, c);
    }
  }

  lemma OwnFramesLogged(w: World, s: Step)
    requires WorldOk(w) && Enabled(w, s) && !s.Connect? && ConnLogged(w, s.c)
    ensures s.c in Apply(w, s).conns
    ensures Apply(w, s).conns[s.c].target.Some? ==>
              FramesLogged(LogOf(Apply(w, s).store, Apply(w, s).conns[s.c].target.value), Apply(w, s).conns[s.c].sent)
  {
    OwnStep(w, s);
    SendableIsLogged(w, s.c);
    var conn, conn' := w.conns[s.c], Apply(w, s).conns[s.c];
    assert ConnOk(conn);
    if conn'.target.Some? {
      var sid := conn'.target.value;
      LogOnlyGrows(w, s, sid);
      assert FramesLogged(LogOf(w.store, sid), conn'.sent);
      GrownLog(LogOf(w.store, sid), LogOf(Apply(w, s).store, sid), conn'.sent);
    }
  }

  /** Whoever is identified on a connection owns the session the connection is about. */
  ghost predicate OwnerKnown(w: World, c: nat)
    requires c in w.conns && w.conns[c].target.Some?
  {
    var conn := w.conns[c];
    && conn.target.value in w.origins
    && (conn.identifiedBot.Some? ==> SameOwner(conn.identifiedBot.value, w.origins[conn.target.value].bot))
  }

  lemma OwnerOfLine(w: World, c: nat)
    requires WorldOk(w) && c in w.conns && (w.conns[c].phase.Readying? || w.conns[c].phase.Resuming?)
    requires w.conns[c].target.Some?
    ensures OwnerKnown(w, c)
  {
    var sid := CurrentLine(w, c);
  }

  lemma OwnerStays(w: World, w': World, c: nat)
    requires WorldOk(w) && WorldOk(w') && c in w.conns && ConnLogged(w, c) && c in w'.conns && w'.conns[c].target.Some?
    requires w'.conns[c].identifiedBot == w.conns[c].identifiedBot
    requires w'.conns[c].target == w.conns[c].target || w.conns[c].identifiedBot.None?
    requires forall sid :: sid in w.store.sessions && sid in w.origins ==> sid in w'.origins && w'.origins[sid] == w.origins[sid]
    ensures OwnerKnown(w', c)
  {
    assert Anchored(w', c) && Anchored(w, c) && SessionOk(w', w'.conns[c].target.value);
  }

  lemma OwnOwner(w: World, s: Step)
    requires WorldOk(w) && Enabled(w, s) && !s.Connect? && ConnLogged(w, s.c) && WorldOk(Apply(w, s))
    requires s.c in Apply(w, s).conns && Apply(w, s).conns[s.c].target.Some?
    ensures OwnerKnown(Apply(w, s), s.c)
  {
    OwnStep(w, s);
    StepScope(w, s);
    var w' := Apply(w, s);
    if w'.conns[s.c].phase.Readying? || w'.conns[s.c].phase.Resuming? {
      OwnerOfLine(w', s.c);
    } else {
      OwnerStays(w, w', s.c);
    }
  }

  lemma StepLogs(w: World, s: Step)
    requires WorldOk(w) && AllLogged(w) && Enabled(w, s)
    ensures AllLogged(Apply(w, s))
  {
    var w' := Apply(w, s);
    StepKeeps(w, s);
    StepScope(w, s);
    forall d | d in w'.conns ensures ConnLogged(w', d) {
      if d != s.c {
        assert Anchored(w, d) && ConnLogged(w, d);
        if w.conns[d].target.Some? {
          var sid := w.conns[d].target.value;
          LogOnlyGrows(w, s, sid);
          GrownLog(LogOf(w.store, sid), LogOf(w'.store, sid), w.conns[d].sent);
        }
      } else if !s.Connect? {
        OwnFramesLogged(w, s);
        if w'.conns[d].target.Some? { OwnOwner(w, s); }
      }
    }
  }

  lemma {:induction false} RunLogs(steps: seq<Step>)
    requires Reach(steps).Some?
    ensures WorldOk(Reach(steps).value) && AllLogged(Reach(steps).value)
  {
    RunKeeps(steps);
    if steps != [] {
      RunLogs(steps[..|steps| - 1]);
      StepLogs(Reach(steps[..|steps| - 1]).value, steps[|steps| - 1]);
    }
  }

  /**
   Across any chain of resumes a session keeps the intents of the Identify that created it,
   within the supported mask, and everything dispatched for it, live or replayed, on any
   connection, was asked for there, by the same application, organization and bot user.
   */
  lemma IntentsSurviveResumes(steps: seq<Step>, c: nat)
    requires Reach(steps).Some? && c in Reach(steps).value.conns && Reach(steps).value.conns[c].target.Some?
    ensures var w := Reach(steps).value;
            var conn, sid := w.conns[c], w.conns[c].target.value;
            && sid in w.origins && sid in w.store.sessions
            && w.store.sessions[sid].intents == w.origins[sid].intents
            && WithinSupported(w.origins[sid].intents)
            && w.store.sessions[sid].OwnedBy(w.origins[sid].bot)
            && (conn.identifiedBot.Some? ==> w.store.sessions[sid].OwnedBy(conn.identifiedBot.value))
            && (forall i :: 0 <= i < |conn.sent| && conn.sent[i].DispatchFrame? ==>
                  AskedFor(w.origins[sid].intents, conn.sent[i].event.kind))
  {
    RunLogs(steps);
    var w := Reach(steps).value;
    var conn, sid := w.conns[c], w.conns[c].target.value;
    assert ConnOk(conn) && Anchored(w, c) && ConnLogged(w, c) && SessionOk(w, sid);
    forall i | 0 <= i < |conn.sent| && conn.sent[i].DispatchFrame?
      ensures AskedFor(w.origins[sid].intents, conn.sent[i].event.kind)
    {
      GateIsAsked(w.origins[sid].intents, conn.sent[i].event.kind);
    }
  }
}
