/**
 The handlers of one gateway socket as the object they are: the variables of the socket
 loop, updated in place, over the shared session store. Each handler computes an outcome, and
 in any world of the machine in `GatewayProtocol` the corresponding steps, taken one after the
 other, lead to that outcome.
 */
module GatewaySocket {
  import opened Outcomes
  import opened GatewayStore
  import opened GatewayProtocol
  import opened GatewayLimit

  // ---- what the handlers compute ----

  /** The variables of the socket loop and the dispatches the socket took. */
  datatype Sock = Sock(
    identifiedBot: Option<Bot>,
    activeSessionId: Option<SessionId>,
    activeIntents: bv64,
    sequence: int,
    sent: seq<Frame>
  )

  /** The store and the socket after a handler, and whether the connection stays open. */
  datatype Outcome = Outcome(store: Store, sock: Sock, keep: bool)

  /** `budget` is the number of sends that succeed before the peer is gone. */
  function Identified(st: Store, v: Sock, budget: nat, payload: Option<IdentifyPayload>, freshId: SessionId): Outcome {
    match IdentifyOutcomeOf(v.identifiedBot.Some?, payload)
    case StayOpen => Outcome(st, v, true)
    case CloseWith(_) => Outcome(st, v, false)
    case Accept(bot, intents) =>
      var n := v.sequence + 1;
      var session := Session(freshId, bot.applicationId, bot.organizationId, bot.botUserId, n, intents);
      var sent := if budget > 0 then v.sent + [ReadyFrame(n, freshId)] else v.sent;
      Outcome(CreateSession(st, session), Sock(Some(bot), Some(freshId), intents, n, sent), budget > 0)
  }

  /** The replay, cut at the limit, then RESUMED under a fresh number; the first failed send ends it. */
  function Replayed(st: Store, v: Sock, budget: nat, s: Session, bot: Bot, n: int): Outcome {
    var events := ListReplayEventsAfter(st, s.sessionId, n, GATEWAY_REPLAY_LIMIT);
    if budget < |events| then Outcome(st, v.(sent := v.sent + Frames(events[..budget])), false)
    else
      var m, sent := ResumeSequence(s, events), v.sent + Frames(events);
      Outcome(UpdateSequence(st, s.sessionId, m),
              Sock(Some(bot), Some(s.sessionId), s.intents, m,
                   if budget > |events| then sent + [ResumedFrame(m, s.sessionId)] else sent),
              budget > |events|)
  }

  function ResumedBy(st: Store, v: Sock, budget: nat, payload: Option<ResumePayload>): Outcome {
    if v.identifiedBot.Some? then Outcome(st, v, false)
    else if payload.None? then Outcome(st, v, true)
    else if payload.value.bot.None? then Outcome(st, v, false)
    else
      var p := payload.value;
      var (st', r) := ResumeSession(st, p.sessionId, p.bot.value, ClientSequence(p));
      if r.Resumed? then Replayed(st', v, budget, r.session, p.bot.value, ClientSequence(p)) else Outcome(st', v, false)
  }

  /** The dispatch that a live event turns into; without a session its session id is not used. */
  function NextEvent(v: Sock, kind: EventKind, payload: Payload): ReplayEvent {
    ReplayEvent(if v.activeSessionId.Some? then v.activeSessionId.value else 0, v.sequence + 1, kind, payload)
  }

  /**
   Log, send, then move the stored sequence; a failed send skips the last step. Without a
   session the frame is sent and nothing is logged.
   */
  function Dispatched(st: Store, v: Sock, budget: nat, kind: EventKind, payload: Payload): Outcome {
    var e := NextEvent(v, kind, payload);
    var logged := if v.activeSessionId.Some? then AppendReplayEvent(st, e) else st;
    var v' := v.(sequence := e.sequence, sent := if budget > 0 then v.sent + [DispatchFrame(e)] else v.sent);
    if budget > 0 && v.activeSessionId.Some?
    then Outcome(UpdateSequence(logged, v.activeSessionId.value, e.sequence), v', true)
    else Outcome(logged, v', budget > 0)
  }

  // ---- the handlers ----

  class Socket {
    var identifiedBot: Option<Bot>
    var activeSessionId: Option<SessionId>
    var activeIntents: bv64
    var sequence: int
    var sent: seq<Frame>
    var budget: nat

    ghost function View(): Sock
      reads this
    {
      Sock(identifiedBot, activeSessionId, activeIntents, sequence, sent)
    }

    constructor (budget: nat)
      ensures View() == Sock(None, None, 0, 0, []) && this.budget == budget
    {
      identifiedBot, activeSessionId, activeIntents, sequence := None, None, 0, 0;
      sent, this.budget := [], budget;
    }

    method SendDispatch(f: Frame) returns (ok: bool)
      modifies this`sent, this`budget
      ensures ok == (old(budget) > 0)
      ensures sent == (if ok then old(sent) + [f] else old(sent))
      ensures budget == (if ok then old(budget) - 1 else 0)
    {
      ok := budget > 0;
      if ok {
        sent, budget := sent + [f], budget - 1;
      }
    }

    /** Returns whether the connection stays open. */
    method IdentifyBot(store: MemoryGatewaySessionStore, payload: Option<IdentifyPayload>, freshId: SessionId)
      returns (keep: bool)
      modifies this, store
      ensures Outcome(store.Contents(), View(), keep)
              == Identified(old(store.Contents()), old(View()), old(budget), payload, freshId)
    {
      match IdentifyOutcomeOf(identifiedBot.Some?, payload)
      case StayOpen => keep := true;
      case CloseWith(_) => keep := false;
      case Accept(bot, intents) =>
        sequence := sequence + 1;
        store.Create(Session(freshId, bot.applicationId, bot.organizationId, bot.botUserId, sequence, intents));
        identifiedBot, activeSessionId, activeIntents := Some(bot), Some(freshId), intents;
        keep := SendDispatch(ReadyFrame(sequence, freshId));
    }

    /** Sends events in order until one send fails. */
    method SendEvents(events: seq<ReplayEvent>) returns (ok: bool)
      modifies this`sent, this`budget
      ensures ok == (old(budget) >= |events|)
      ensures ok ==> sent == old(sent) + Frames(events) && budget == old(budget) - |events|
      ensures !ok ==> sent == old(sent) + Frames(events[..old(budget)])
    {
      var i := 0;
      while i < |events|
        invariant 0 <= i <= |events| && i <= old(budget) && budget == old(budget) - i
        invariant sent == old(sent) + Frames(events[..i])
      {
        ok := SendDispatch(DispatchFrame(events[i]));
        if !ok {
          return false;
        }
        assert Frames(events[..i + 1]) == Frames(events[..i]) + [DispatchFrame(events[i])];
        i := i + 1;
      }
      assert events[..|events|] == events;
      return true;
    }

    method ResumeBot(store: MemoryGatewaySessionStore, payload: Option<ResumePayload>) returns (keep: bool)
      modifies this, store
      ensures Outcome(store.Contents(), View(), keep) == ResumedBy(old(store.Contents()), old(View()), old(budget), payload)
    {
      if identifiedBot.Some? {
        return false;
      }
      if payload.None? {
        return true;
      }
      var p := payload.value;
      if p.bot.None? {
        return false;
      }
      var r := store.Resume(p.sessionId, p.bot.value, ClientSequence(p));
      if !r.Resumed? {
        return false;
      }
      keep := Replay(store, r.session, p.bot.value, ClientSequence(p));
    }

    /** What follows an accepted Resume. */
    method Replay(store: MemoryGatewaySessionStore, session: Session, bot: Bot, clientSequence: int) returns (keep: bool)
      modifies this, store
      ensures Outcome(store.Contents(), View(), keep)
              == Replayed(old(store.Contents()), old(View()), old(budget), session, bot, clientSequence)
    {
      var events := store.ListAfter(session.sessionId, clientSequence, GATEWAY_REPLAY_LIMIT);
      var ok := SendEvents(events);
      if !ok {
        return false;
      }
      sequence := ResumeSequence(session, events);
      store.Update(session.sessionId, sequence);
      identifiedBot, activeSessionId, activeIntents := Some(bot), Some(session.sessionId), session.intents;
      keep := SendDispatch(ResumedFrame(sequence, session.sessionId));
    }

    method SendSessionDispatch(store: MemoryGatewaySessionStore, kind: EventKind, payload: Payload) returns (ok: bool)
      modifies this, store
      ensures Outcome(store.Contents(), View(), ok) == Dispatched(old(store.Contents()), old(View()), old(budget), kind, payload)
    {
      sequence := sequence + 1;
      var e := ReplayEvent(if activeSessionId.Some? then activeSessionId.value else 0, sequence, kind, payload);
      if activeSessionId.Some? {
        store.Append(e);
      }
      ok := SendDispatch(DispatchFrame(e));
      if ok && activeSessionId.Some? {
        store.Update(activeSessionId.value, sequence);
      }
    }
  }

  // ---- the same as steps of the machine ----

  /** The world after some steps in a row, if each is enabled where it is taken. */
  ghost function Play(w: World, steps: seq<Step>): Option<World> {
    if steps == [] then Some(w)
    else
      var before := Play(w, steps[..|steps| - 1]);
      if before.Some? && Enabled(before.value, steps[|steps| - 1])
      then Some(Apply(before.value, steps[|steps| - 1])) else None
  }

  lemma PlayOne(w: World, steps: seq<Step>, s: Step, x: World)
    requires Play(w, steps) == Some(x) && Enabled(x, s)
    ensures Play(w, steps + [s]) == Some(Apply(x, s))
  {
    assert (steps + [s])[..|steps|] == steps;
  }

  lemma PlayFirst(w: World, a: Step)
    requires Enabled(w, a)
    ensures Play(w, [a]) == Some(Apply(w, a))
  {
    PlayOne(w, [], a, w);
    assert [] + [a] == [a];
  }

  lemma PlayTwo(w: World, a: Step, b: Step)
    requires Enabled(w, a) && Enabled(Apply(w, a), b)
    ensures Play(w, [a, b]) == Some(Apply(Apply(w, a), b))
  {
    PlayFirst(w, a);
    PlayOne(w, [a], b, Apply(w, a));
    assert [a] + [b] == [a, b];
  }

  ghost predicate Matches(conn: Conn, v: Sock) {
    && conn.identifiedBot == v.identifiedBot && conn.activeSessionId == v.activeSessionId
    && conn.activeIntents == v.activeIntents && conn.sequence == v.sequence && conn.sent == v.sent
  }

  /** The run ends in the given outcome: the store, the variables, the frames, and open or closed. */
  ghost predicate EndsIn(run: Option<World>, c: nat, out: Outcome) {
    && run.Some? && c in run.value.conns
    && run.value.store == out.store && Matches(run.value.conns[c], out.sock)
    && (out.keep ==> run.value.conns[c].phase.Open? || run.value.conns[c].phase.Idle?)
    && (!out.keep ==> run.value.conns[c].phase.Closed?)
  }

  /** The handler's connection before it starts. */
  ghost predicate StartsFrom(w: World, c: nat, st: Store, v: Sock) {
    && c in w.conns && w.store == st && Matches(w.conns[c], v)
    && (w.conns[c].phase.Open? || w.conns[c].phase.Idle?)
  }

  function IdentifySteps(c: nat, v: Sock, budget: nat, payload: Option<IdentifyPayload>, freshId: SessionId): seq<Step> {
    if IdentifyOutcomeOf(v.identifiedBot.Some?, payload).Accept?
    then [Identify(c, payload, freshId), SendReady(c, budget > 0)]
    else [Identify(c, payload, freshId)]
  }

  lemma RefusedIdentifySteps(w: World, c: nat, st: Store, v: Sock, budget: nat, payload: Option<IdentifyPayload>, freshId: SessionId)
    requires StartsFrom(w, c, st, v) && !IdentifyOutcomeOf(v.identifiedBot.Some?, payload).Accept?
    ensures EndsIn(Some(DoIdentify(w, c, payload, freshId)), c, Identified(st, v, budget, payload, freshId))
  {
  }

  lemma AcceptedIdentifySteps(w: World, c: nat, st: Store, v: Sock, budget: nat, payload: Option<IdentifyPayload>, freshId: SessionId)
    requires StartsFrom(w, c, st, v) && IdentifyOutcomeOf(v.identifiedBot.Some?, payload).Accept?
    ensures var w' := DoIdentify(w, c, payload, freshId);
            && Enabled(w', SendReady(c, budget > 0))
            && EndsIn(Some(Apply(w', SendReady(c, budget > 0))), c, Identified(st, v, budget, payload, freshId))
  {
  }

  lemma IdentifyIsSteps(w: World, c: nat, st: Store, v: Sock, budget: nat, payload: Option<IdentifyPayload>, freshId: SessionId)
    requires StartsFrom(w, c, st, v) && freshId !in st.sessions
    ensures EndsIn(Play(w, IdentifySteps(c, v, budget, payload, freshId)), c, Identified(st, v, budget, payload, freshId))
  {
    if IdentifyOutcomeOf(v.identifiedBot.Some?, payload).Accept? {
      AcceptedIdentifySteps(w, c, st, v, budget, payload, freshId);
      PlayTwo(w, Identify(c, payload, freshId), SendReady(c, budget > 0));
    } else {
      RefusedIdentifySteps(w, c, st, v, budget, payload, freshId);
      PlayFirst(w, Identify(c, payload, freshId));
    }
  }

  function DispatchSteps(c: nat, budget: nat, event: RealtimeEvent): seq<Step> {
    if budget > 0 then [Live(c, event), SendLive(c, true)] + [UpdateLive(c)] else [Live(c, event), SendLive(c, false)]
  }

  function LiveConn(conn: Conn, e: ReplayEvent): Conn {
    conn.(sequence := e.sequence, phase := Appended(e))
  }

  lemma LiveLogged(w: World, c: nat, st: Store, v: Sock, event: RealtimeEvent)
    requires StartsFrom(w, c, st, v) && v.identifiedBot.Some? && Forwarded(v.activeIntents, event)
    ensures var e := NextEvent(v, event.kind.value, event.payload.value);
            DoLive(w, c, event) ==
            SetConn(w, c, LiveConn(w.conns[c], e)).(store := if v.activeSessionId.Some? then AppendReplayEvent(st, e) else st)
  {
  }

  lemma LiveSent(w: World, c: nat, e: ReplayEvent, ok: bool)
    requires c in w.conns && w.conns[c].phase == Appended(e)
    ensures Enabled(w, SendLive(c, ok))
    ensures var conn := w.conns[c];
            Apply(w, SendLive(c, ok)) ==
            SetConn(w, c, if ok then Push(conn, DispatchFrame(e), SentLive) else conn.(phase := Closed))
  {
  }

  /** A forwarded realtime event. */
  lemma DispatchIsSteps(w: World, c: nat, st: Store, v: Sock, budget: nat, event: RealtimeEvent)
    requires StartsFrom(w, c, st, v) && v.identifiedBot.Some? && Forwarded(v.activeIntents, event)
    ensures EndsIn(Play(w, DispatchSteps(c, budget, event)), c, Dispatched(st, v, budget, event.kind.value, event.payload.value))
  {
    LiveLogged(w, c, st, v, event);
    LiveSent(DoLive(w, c, event), c, NextEvent(v, event.kind.value, event.payload.value), budget > 0);
    PlayTwo(w, Live(c, event), SendLive(c, budget > 0));
    if budget > 0 {
      PlayOne(w, [Live(c, event), SendLive(c, true)], UpdateLive(c), Apply(Apply(w, Live(c, event)), SendLive(c, true)));
    }
  }

  // ---- resuming ----

  lemma PlaySendsOne(w: World, steps: seq<Step>, c: nat, x: World, m: nat)
    requires c in x.conns && x.conns[c].phase.Replaying? && 0 < m <= |x.conns[c].phase.events|
    requires Play(w, steps + Sends(c, m - 1)) == Some(Progress(x, c, m - 1))
    ensures Play(w, steps + Sends(c, m)) == Some(Progress(x, c, m))
  {
    ProgressStep(x, c, m - 1);
    PlayOne(w, steps + Sends(c, m - 1), SendReplay(c, true), Progress(x, c, m - 1));
    SendsStep(steps, c, m);
  }

  lemma {:induction false} PlaySends(w: World, steps: seq<Step>, c: nat, x: World, m: nat)
    requires Play(w, steps) == Some(x) && c in x.conns && x.conns[c].phase.Replaying?
    requires x.conns[c].phase.next == 0 && m <= |x.conns[c].phase.events|
    ensures Play(w, steps + Sends(c, m)) == Some(Progress(x, c, m))
  {
    if m == 0 {
      assert steps + Sends(c, 0) == steps;
      ProgressStart(x, c);
    } else {
      PlaySends(w, steps, c, x, m - 1);
      PlaySendsOne(w, steps, c, x, m);
    }
  }

  /** A connection about to replay, and what it will do. */
  ghost predicate AboutToReplay(x: World, c: nat, st: Store, v: Sock, s: Session, bot: Bot, n: int) {
    && c in x.conns && x.store == st && Matches(x.conns[c], v)
    && x.conns[c].phase == Replaying(s, bot, ListReplayEventsAfter(st, s.sessionId, n, GATEWAY_REPLAY_LIMIT), 0)
  }

  lemma ReplayFails(x: World, c: nat, st: Store, v: Sock, s: Session, bot: Bot, n: int, budget: nat)
    requires AboutToReplay(x, c, st, v, s, bot, n) && budget < |x.conns[c].phase.events|
    ensures Enabled(Progress(x, c, budget), SendReplay(c, false))
    ensures EndsIn(Some(Apply(Progress(x, c, budget), SendReplay(c, false))), c, Replayed(st, v, budget, s, bot, n))
  {
  }

  lemma ReplayEnds(x: World, c: nat, st: Store, v: Sock, s: Session, bot: Bot, n: int, budget: nat)
    requires AboutToReplay(x, c, st, v, s, bot, n) && budget >= |x.conns[c].phase.events|
    ensures var y := Progress(x, c, |x.conns[c].phase.events|);
            && Enabled(y, FinishReplay(c)) && Apply(y, FinishReplay(c)) == DoFinishReplay(y, c)
            && Enabled(DoFinishReplay(y, c), SendResumed(c, budget > |x.conns[c].phase.events|))
            && EndsIn(Some(Apply(DoFinishReplay(y, c), SendResumed(c, budget > |x.conns[c].phase.events|))), c,
                      Replayed(st, v, budget, s, bot, n))
  {
    var events := x.conns[c].phase.events;
    assert events[..|events|] == events;
  }

  function ReplaySteps(c: nat, count: nat, budget: nat): seq<Step> {
    if budget < count then Sends(c, budget) + [SendReplay(c, false)]
    else Sends(c, count) + [FinishReplay(c)] + [SendResumed(c, budget > count)]
  }

  /** Every send goes through until one fails. */
  lemma BrokenReplayIsSteps(w: World, steps: seq<Step>, x: World, c: nat, st: Store, v: Sock, s: Session, bot: Bot, n: int, budget: nat)
    requires Play(w, steps) == Some(x) && AboutToReplay(x, c, st, v, s, bot, n) && budget < |x.conns[c].phase.events|
    ensures EndsIn(Play(w, steps + Sends(c, budget) + [SendReplay(c, false)]), c, Replayed(st, v, budget, s, bot, n))
  {
    PlaySends(w, steps, c, x, budget);
    ReplayFails(x, c, st, v, s, bot, n, budget);
    PlayOne(w, steps + Sends(c, budget), SendReplay(c, false), Progress(x, c, budget));
  }

  /** Every event is sent, and then RESUMED is sent or fails. */
  lemma FullReplayIsSteps(w: World, steps: seq<Step>, x: World, c: nat, st: Store, v: Sock, s: Session, bot: Bot, n: int, budget: nat)
    requires Play(w, steps) == Some(x) && AboutToReplay(x, c, st, v, s, bot, n) && budget >= |x.conns[c].phase.events|
    ensures var count := |x.conns[c].phase.events|;
            EndsIn(Play(w, steps + Sends(c, count) + [FinishReplay(c)] + [SendResumed(c, budget > count)]), c,
                   Replayed(st, v, budget, s, bot, n))
  {
    var count := |x.conns[c].phase.events|;
    PlaySends(w, steps, c, x, count);
    ReplayEnds(x, c, st, v, s, bot, n, budget);
    var y, ok := Progress(x, c, count), budget > count;
    PlayOne(w, steps + Sends(c, count), FinishReplay(c), y);
    PlayOne(w, steps + Sends(c, count) + [FinishReplay(c)], SendResumed(c, ok), DoFinishReplay(y, c));
  }

  lemma ReplayStepsRegroup(steps: seq<Step>, c: nat, count: nat, budget: nat)
    ensures steps + ReplaySteps(c, count, budget) ==
              if budget < count then steps + Sends(c, budget) + [SendReplay(c, false)]
              else steps + Sends(c, count) + [FinishReplay(c)] + [SendResumed(c, budget > count)]
  {
  }

  lemma ReplayIsSteps(w: World, steps: seq<Step>, x: World, c: nat, st: Store, v: Sock, s: Session, bot: Bot, n: int, budget: nat)
    requires Play(w, steps) == Some(x) && AboutToReplay(x, c, st, v, s, bot, n)
    ensures EndsIn(Play(w, steps + ReplaySteps(c, |x.conns[c].phase.events|, budget)), c, Replayed(st, v, budget, s, bot, n))
  {
    var count := |x.conns[c].phase.events|;
    ReplayStepsRegroup(steps, c, count, budget);
    if budget < count {
      BrokenReplayIsSteps(w, steps, x, c, st, v, s, bot, n, budget);
    } else {
      FullReplayIsSteps(w, steps, x, c, st, v, s, bot, n, budget);
    }
  }

  function HandlerSteps(st: Store, c: nat, v: Sock, budget: nat, payload: Option<ResumePayload>): seq<Step> {
    if v.identifiedBot.None? && payload.Some? && payload.value.bot.Some? then
      var p := payload.value;
      var (st', r) := ResumeSession(st, p.sessionId, p.bot.value, ClientSequence(p));
      if r.Resumed? then
        [Resume(c, payload), ListReplay(c)]
        + ReplaySteps(c, |ListReplayEventsAfter(st', r.session.sessionId, ClientSequence(p), GATEWAY_REPLAY_LIMIT)|, budget)
      else [Resume(c, payload)]
    else [Resume(c, payload)]
  }

  lemma RefusedResumeSteps(w: World, c: nat, st: Store, v: Sock, budget: nat, payload: Option<ResumePayload>)
    requires StartsFrom(w, c, st, v) && Enabled(w, Resume(c, payload)) && !ResumeAccepted(w, c, payload)
    ensures EndsIn(Some(DoResume(w, c, payload)), c, ResumedBy(st, v, budget, payload))
    ensures HandlerSteps(st, c, v, budget, payload) == [Resume(c, payload)]
  {
  }

  lemma ResumeListed(w: World, c: nat, st: Store, v: Sock, p: ResumePayload)
    requires StartsFrom(w, c, st, v) && Enabled(w, Resume(c, Some(p))) && ResumeAccepted(w, c, Some(p))
    ensures var w' := DoResume(w, c, Some(p));
            var (st', r) := ResumeSession(st, p.sessionId, p.bot.value, ClientSequence(p));
            && Enabled(w', ListReplay(c)) && r.Resumed?
            && AboutToReplay(Apply(w', ListReplay(c)), c, st', v, r.session, p.bot.value, ClientSequence(p))
  {
  }

  /** A Resume frame on a session whose previous connection has ended, whatever send fails. */
  lemma ResumeIsSteps(w: World, c: nat, st: Store, v: Sock, budget: nat, payload: Option<ResumePayload>)
    requires StartsFrom(w, c, st, v) && Enabled(w, Resume(c, payload))
    ensures EndsIn(Play(w, HandlerSteps(st, c, v, budget, payload)), c, ResumedBy(st, v, budget, payload))
  {
    if ResumeAccepted(w, c, payload) {
      var p := payload.value;
      var (st', r) := ResumeSession(st, p.sessionId, p.bot.value, ClientSequence(p));
      ResumeListed(w, c, st, v, p);
      PlayTwo(w, Resume(c, payload), ListReplay(c));
      var x := Apply(DoResume(w, c, payload), ListReplay(c));
      ReplayIsSteps(w, [Resume(c, payload), ListReplay(c)], x, c, st', v, r.session, p.bot.value, ClientSequence(p), budget);
    } else {
      RefusedResumeSteps(w, c, st, v, budget, payload);
      PlayFirst(w, Resume(c, payload));
    }
  }
}
