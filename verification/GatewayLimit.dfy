/**
 The replay limit, exactly: a resume that goes through completely leaves its client without
 a gap if and only if there was none before it and at most `GATEWAY_REPLAY_LIMIT` events were
 logged above the number the client reported.
 */
module GatewayLimit {
  import opened Outcomes
  import opened Lists
  import opened GatewayStore
  import opened GatewayProtocol
  import opened GatewayCompleteness

  function Frames(events: seq<ReplayEvent>): (fs: seq<Frame>)
    ensures |fs| == |events|
    ensures forall i :: 0 <= i < |fs| ==> fs[i] == DispatchFrame(events[i])
  {
    seq(|events|, i requires 0 <= i < |events| => DispatchFrame(events[i]))
  }

  /** Everything a resume sends when no send fails. */
  function ResumeFrames(s: Session, log: seq<ReplayEvent>, n: int): seq<Frame> {
    var events := Take(After(log, n), GATEWAY_REPLAY_LIMIT);
    Frames(events) + [ResumedFrame(ResumeSequence(s, events), s.sessionId)]
  }

  /** A session at rest between two connections, with what its client has received. */
  ghost predicate AtRest(s: Session, log: seq<ReplayEvent>, received: seq<Frame>) {
    && s.sequence > 0 && StrictlyIncreasing(log) && AllBelow(log, s.sequence + 2)
    && (forall i :: 0 <= i < |log| ==> log[i].sequence > 0)
    && FramesOk(log, received) && LastSequence(received) <= s.sequence
  }

  lemma ReplayedFacts(s: Session, log: seq<ReplayEvent>, n: int)
    requires StrictlyIncreasing(log)
    ensures var events := Take(After(log, n), GATEWAY_REPLAY_LIMIT);
            && StrictlyIncreasing(events)
            && (forall e :: e in events ==> e in log && n < e.sequence < ResumeSequence(s, events))
  {
    AfterMembers(log, n);
    ListedEvents(log, n, GATEWAY_REPLAY_LIMIT);
    var events := Take(After(log, n), GATEWAY_REPLAY_LIMIT);
    forall e | e in events ensures e in log && n < e.sequence < ResumeSequence(s, events) {
      var i :| 0 <= i < |events| && events[i] == e;
      assert e == After(log, n)[i] && e in After(log, n);
      assert e.sequence <= events[|events| - 1].sequence;
    }
  }

  /** Which frame stands where. */
  lemma FrameIndex(received: seq<Frame>, events: seq<ReplayEvent>, last: Frame, k: nat)
    requires k < |received| + |events| + 1
    ensures var f := (received + (Frames(events) + [last]))[k];
            && (k < |received| ==> f == received[k])
            && (|received| <= k < |received| + |events| ==> f == DispatchFrame(events[k - |received|]) && f.event in events)
            && (k == |received| + |events| ==> f == last)
  {
  }

  lemma UpToLast(fs: seq<Frame>, k: nat)
    requires FramesIncreasing(fs) && k < |fs|
    ensures fs[k].Sequence() <= LastSequence(fs)
  {
  }

  lemma FrameAt(s: Session, log: seq<ReplayEvent>, received: seq<Frame>, k: nat)
    requires AtRest(s, log, received)
    requires k < |received + ResumeFrames(s, log, LastSequence(received))|
    ensures var n := LastSequence(received);
            var events := Take(After(log, n), GATEWAY_REPLAY_LIMIT);
            var f := (received + ResumeFrames(s, log, n))[k];
            && StrictlyIncreasing(events)
            && (forall e :: e in events ==> e in log && n < e.sequence < ResumeSequence(s, events))
            && (k < |received| ==> f == received[k] && f.Sequence() <= n)
            && (|received| <= k < |received| + |events| ==> f == DispatchFrame(events[k - |received|]) && f.event in events)
            && (k == |received| + |events| ==> f.ResumedFrame? && f.Sequence() == ResumeSequence(s, events) > n)
  {
    var n := LastSequence(received);
    var events := Take(After(log, n), GATEWAY_REPLAY_LIMIT);
    ReplayedFacts(s, log, n);
    FrameIndex(received, events, ResumedFrame(ResumeSequence(s, events), s.sessionId), k);
    if k < |received| { UpToLast(received, k); }
  }

  lemma ResumeIncreasing(s: Session, log: seq<ReplayEvent>, received: seq<Frame>)
    requires AtRest(s, log, received)
    ensures FramesIncreasing(received + ResumeFrames(s, log, LastSequence(received)))
  {
    var n := LastSequence(received);
    var fs := received + ResumeFrames(s, log, n);
    forall i, j | 0 <= i < j < |fs| ensures fs[i].Sequence() < fs[j].Sequence() {
      FrameAt(s, log, received, i);
      FrameAt(s, log, received, j);
    }
  }

  lemma ResumeFramesOk(s: Session, log: seq<ReplayEvent>, received: seq<Frame>)
    requires AtRest(s, log, received)
    ensures FramesOk(log, received + ResumeFrames(s, log, LastSequence(received)))
  {
    var fs := received + ResumeFrames(s, log, LastSequence(received));
    ResumeIncreasing(s, log, received);
    forall k | 0 <= k < |fs| ensures fs[k].Sequence() > 0 && (fs[k].DispatchFrame? ==> fs[k].event in log) {
      FrameAt(s, log, received, k);
      if k < |received| { assert received[k].Sequence() > 0; }
    }
  }

  lemma UncutResume(s: Session, log: seq<ReplayEvent>, received: seq<Frame>)
    requires AtRest(s, log, received) && Covered(log, received) && |After(log, LastSequence(received))| <= GATEWAY_REPLAY_LIMIT
    ensures Complete(log, received + ResumeFrames(s, log, LastSequence(received)))
  {
    var n := LastSequence(received);
    var events, fs := After(log, n), received + ResumeFrames(s, log, n);
    ResumeFramesOk(s, log, received);
    AfterMembers(log, n);
    forall i | 0 <= i < |log| ensures DispatchFrame(log[i]) in fs {
      if log[i].sequence > n {
        assert log[i] in events;
        var j :| 0 <= j < |events| && events[j] == log[i];
        assert fs[|received| + j] == DispatchFrame(log[i]);
      } else {
        assert DispatchFrame(log[i]) in received;
      }
    }
    StreamComplete(log, fs);
  }

  /** Without a gap nothing logged is missing. */
  lemma CompleteIsCovered(log: seq<ReplayEvent>, fs: seq<Frame>)
    requires StrictlyIncreasing(log) && FramesOk(log, fs)
    ensures Complete(log, fs) <==> Covered(log, fs)
  {
    if Covered(log, fs) {
      StreamComplete(log, fs);
    } else if Complete(log, fs) {
      DispatchMembers(fs);
      UpToMembers(log, LastSequence(fs));
    }
  }

  /** A gap stays, whatever is received after it. */
  lemma GapStays(log: seq<ReplayEvent>, fs: seq<Frame>, fs': seq<Frame>)
    requires StrictlyIncreasing(log) && FramesOk(log, fs) && FramesOk(log, fs') && fs <= fs' && !Complete(log, fs)
    ensures !Complete(log, fs')
  {
    CompleteIsCovered(log, fs);
    CompleteIsCovered(log, fs');
    var i :| 0 <= i < |log| && log[i].sequence <= LastSequence(fs) && DispatchFrame(log[i]) !in fs;
    StillMissing(log, fs, fs', log[i]);
  }

  lemma CutResume(s: Session, log: seq<ReplayEvent>, received: seq<Frame>)
    requires AtRest(s, log, received) && |After(log, LastSequence(received))| > GATEWAY_REPLAY_LIMIT
    ensures !Complete(log, received + ResumeFrames(s, log, LastSequence(received)))
  {
    var n := LastSequence(received);
    var all := After(log, n);
    var events, fs := Take(all, GATEWAY_REPLAY_LIMIT), received + ResumeFrames(s, log, n);
    AfterMembers(log, n);
    var lost := all[GATEWAY_REPLAY_LIMIT];
    assert lost in all;
    ResumeIncreasing(s, log, received);
    DispatchMembers(fs);
    UpToMembers(log, LastSequence(fs));
    FrameAt(s, log, received, |fs| - 1);
    assert lost.sequence <= LastSequence(fs);
    assert lost in UpTo(log, LastSequence(fs));
    assert DispatchFrame(lost) !in fs by {
      forall k | 0 <= k < |fs| ensures fs[k] != DispatchFrame(lost) {
        FrameAt(s, log, received, k);
        if |received| <= k < |received| + |events| {
          assert events[k - |received|] == all[k - |received|];
        }
      }
    }
  }

  /** The exact condition, checkable before the resume: no gap so far, and the backlog fits into one replay. */
  lemma ResumeCompleteIff(s: Session, log: seq<ReplayEvent>, received: seq<Frame>)
    requires AtRest(s, log, received)
    ensures Complete(log, received + ResumeFrames(s, log, LastSequence(received)))
            <==> Complete(log, received) && |After(log, LastSequence(received))| <= 100
  {
    CompleteIsCovered(log, received);
    if |After(log, LastSequence(received))| > GATEWAY_REPLAY_LIMIT {
      CutResume(s, log, received);
    } else if Complete(log, received) {
      UncutResume(s, log, received);
    } else {
      ResumeFramesOk(s, log, received);
      GapStays(log, received, received + ResumeFrames(s, log, LastSequence(received)));
    }
  }

  // ---- the same on the machine ----

  function Sends(c: nat, m: nat): seq<Step> {
    if m == 0 then [] else Sends(c, m - 1) + [SendReplay(c, true)]
  }

  lemma ReachSnoc(steps: seq<Step>, s: Step)
    requires Reach(steps).Some? && Enabled(Reach(steps).value, s)
    ensures Reach(steps + [s]) == Some(Apply(Reach(steps).value, s))
  {
    assert (steps + [s])[..|steps|] == steps;
  }

  lemma ReachStep(steps: seq<Step>, s: Step, w: World, w': World)
    requires Reach(steps) == Some(w) && Enabled(w, s) && Apply(w, s) == w'
    ensures Reach(steps + [s]) == Some(w')
  {
    ReachSnoc(steps, s);
  }

  /** The world in which connection `c` has replayed the first `m` of its events. */
  function Progress(w: World, c: nat, m: nat): World
    requires c in w.conns && w.conns[c].phase.Replaying? && m <= |w.conns[c].phase.events|
  {
    var conn := w.conns[c];
    SetConn(w, c, conn.(sent := conn.sent + Frames(conn.phase.events[..m]), phase := conn.phase.(next := m)))
  }

  lemma ProgressStep(w: World, c: nat, m: nat)
    requires c in w.conns && w.conns[c].phase.Replaying? && m < |w.conns[c].phase.events|
    ensures Enabled(Progress(w, c, m), SendReplay(c, true))
    ensures Apply(Progress(w, c, m), SendReplay(c, true)) == Progress(w, c, m + 1)
  {
    var conn := w.conns[c];
    var events := conn.phase.events;
    assert conn.sent + Frames(events[..m + 1]) == conn.sent + Frames(events[..m]) + [DispatchFrame(events[m])];
  }

  lemma ProgressStart(w: World, c: nat)
    requires c in w.conns && w.conns[c].phase.Replaying? && w.conns[c].phase.next == 0
    ensures Progress(w, c, 0) == w
  {
    var conn := w.conns[c];
    assert conn.sent + Frames(conn.phase.events[..0]) == conn.sent;
    assert w.conns[c := conn] == w.conns;
  }

  lemma SendsStep(steps: seq<Step>, c: nat, m: nat)
    requires m > 0
    ensures steps + Sends(c, m) == steps + Sends(c, m - 1) + [SendReplay(c, true)]
  {
  }

  lemma OneMoreSend(steps: seq<Step>, c: nat, w: World, m: nat)
    requires c in w.conns && w.conns[c].phase.Replaying? && 0 < m <= |w.conns[c].phase.events|
    requires Reach(steps + Sends(c, m - 1)) == Some(Progress(w, c, m - 1))
    ensures Reach(steps + Sends(c, m)) == Some(Progress(w, c, m))
  {
    ProgressStep(w, c, m - 1);
    ReachStep(steps + Sends(c, m - 1), SendReplay(c, true), Progress(w, c, m - 1), Progress(w, c, m));
    SendsStep(steps, c, m);
  }

  lemma NoSends(steps: seq<Step>, c: nat, w: World)
    requires Reach(steps) == Some(w) && c in w.conns && w.conns[c].phase.Replaying? && w.conns[c].phase.next == 0
    ensures Reach(steps + Sends(c, 0)) == Some(Progress(w, c, 0))
  {
    assert steps + Sends(c, 0) == steps;
    ProgressStart(w, c);
  }

  lemma {:induction false} ReachSends(steps: seq<Step>, c: nat, w: World, m: nat)
    requires Reach(steps) == Some(w) && c in w.conns && w.conns[c].phase.Replaying?
    requires w.conns[c].phase.next == 0 && m <= |w.conns[c].phase.events|
    ensures Reach(steps + Sends(c, m)) == Some(Progress(w, c, m))
  {
    if m == 0 {
      NoSends(steps, c, w);
    } else {
      ReachSends(steps, c, w, m - 1);
      OneMoreSend(steps, c, w, m);
    }
  }

  /** The last two steps of a resume, once all its events are sent. */
  lemma AfterSends(w: World, c: nat)
    requires c in w.conns && w.conns[c].phase.Replaying?
    ensures var p := w.conns[c].phase;
            var w3 := Progress(w, c, |p.events|);
            var w4 := DoFinishReplay(w3, c);
            && Enabled(w3, FinishReplay(c)) && Apply(w3, FinishReplay(c)) == w4
            && Enabled(w4, SendResumed(c, true))
            && var w5 := Apply(w4, SendResumed(c, true));
               && c in w5.conns
               && w5.conns[c].sent ==
                    w.conns[c].sent + Frames(p.events)
                    + [ResumedFrame(ResumeSequence(p.snapshot, p.events), p.snapshot.sessionId)]
               && w5.received == w.received && w5.store.replay == w.store.replay
  {
    var p := w.conns[c].phase;
    assert p.events[..|p.events|] == p.events;
  }

  lemma ReachEnd(steps: seq<Step>, c: nat)
    requires Reach(steps).Some? && c in Reach(steps).value.conns
    requires var p := Reach(steps).value.conns[c].phase; p.Replaying? && p.next == 0
    ensures var w := Reach(steps).value;
            var p := w.conns[c].phase;
            var run := Reach(steps + Sends(c, |p.events|) + [FinishReplay(c)] + [SendResumed(c, true)]);
            && run.Some? && c in run.value.conns
            && run.value.conns[c].sent ==
                 w.conns[c].sent + Frames(p.events)
                 + [ResumedFrame(ResumeSequence(p.snapshot, p.events), p.snapshot.sessionId)]
            && run.value.received == w.received && run.value.store.replay == w.store.replay
  {
    var w := Reach(steps).value;
    var n := |w.conns[c].phase.events|;
    ReachSends(steps, c, w, n);
    AfterSends(w, c);
    ReachSnoc(steps + Sends(c, n), FinishReplay(c));
    ReachSnoc(steps + Sends(c, n) + [FinishReplay(c)], SendResumed(c, true));
  }

  lemma StepsRegroup(steps: seq<Step>, a: Step, b: Step, mid: seq<Step>, y: Step, z: Step)
    ensures steps + ([a, b] + mid + [y, z]) == steps + [a] + [b] + mid + [y] + [z]
  {
  }

  /** The steps of a resume on connection `c` in which every send goes through. */
  function ResumeSteps(w: World, c: nat, p: ResumePayload): seq<Step> {
    [Resume(c, Some(p)), ListReplay(c)]
    + Sends(c, |Take(After(LogOf(w.store, p.sessionId), ClientSequence(p)), GATEWAY_REPLAY_LIMIT)|)
    + [FinishReplay(c), SendResumed(c, true)]
  }

  lemma ReachListed(steps: seq<Step>, c: nat, p: ResumePayload)
    requires Reach(steps).Some? && Enabled(Reach(steps).value, Resume(c, Some(p)))
    requires ResumeAccepted(Reach(steps).value, c, Some(p))
    ensures var w := Reach(steps).value;
            var events := Take(After(LogOf(w.store, p.sessionId), ClientSequence(p)), GATEWAY_REPLAY_LIMIT);
            && p.sessionId in w.store.sessions && w.store.sessions[p.sessionId].sessionId == p.sessionId
            && var listed := Reach(steps + [Resume(c, Some(p))] + [ListReplay(c)]);
               && listed.Some? && c in listed.value.conns && listed.value.conns[c].sent == []
               && listed.value.conns[c].phase == Replaying(w.store.sessions[p.sessionId], p.bot.value, events, 0)
               && listed.value.received == w.received && listed.value.store == w.store
  {
    RunKeeps(steps);
    var w := Reach(steps).value;
    AcceptedResume(w, c, p);
    ReachSnoc(steps, Resume(c, Some(p)));
    ReachSnoc(steps + [Resume(c, Some(p))], ListReplay(c));
  }

  lemma ReachResume(steps: seq<Step>, c: nat, p: ResumePayload)
    requires Reach(steps).Some? && Enabled(Reach(steps).value, Resume(c, Some(p)))
    requires ResumeAccepted(Reach(steps).value, c, Some(p))
    ensures var w := Reach(steps).value;
            && p.sessionId in w.store.sessions
            && var run := Reach(steps + ResumeSteps(w, c, p));
               && run.Some? && c in run.value.conns
               && run.value.conns[c].sent ==
                    ResumeFrames(w.store.sessions[p.sessionId], LogOf(w.store, p.sessionId), ClientSequence(p))
               && run.value.received == w.received
               && run.value.store.replay == w.store.replay
  {
    var w := Reach(steps).value;
    var events := Take(After(LogOf(w.store, p.sessionId), ClientSequence(p)), GATEWAY_REPLAY_LIMIT);
    ReachListed(steps, c, p);
    ReachEnd(steps + [Resume(c, Some(p))] + [ListReplay(c)], c);
    StepsRegroup(steps, Resume(c, Some(p)), ListReplay(c), Sends(c, |events|), FinishReplay(c), SendResumed(c, true));
    assert [] + Frames(events) == Frames(events);
  }

  /**
   From any world reached by an honest run, also after replays that were cut: resume the
   session, let every send through, and the client's stream is complete if and only if it was
   complete before and the backlog was within the limit.
   */
  lemma ResumeRunCompleteIff(steps: seq<Step>, c: nat, p: ResumePayload)
    requires Reach(steps).Some? && HonestRun(steps, p.sessionId)
    requires Enabled(Reach(steps).value, Resume(c, Some(p)))
    requires ResumeAccepted(Reach(steps).value, c, Some(p)) && p.sessionId in Reach(steps).value.received
    requires ClientSequence(p) == LastSequence(Reach(steps).value.received[p.sessionId])
    ensures var w, sid := Reach(steps).value, p.sessionId;
            var run := Reach(steps + ResumeSteps(w, c, p));
            && run.Some? && c in run.value.conns && sid in run.value.received
            && (Complete(LogOf(run.value.store, sid), run.value.received[sid] + run.value.conns[c].sent)
                <==> && Complete(LogOf(w.store, sid), w.received[sid])
                     && |After(LogOf(w.store, sid), ClientSequence(p))| <= 100)
  {
    var w, sid := Reach(steps).value, p.sessionId;
    ReachResume(steps, c, p);
    RunKeeps(steps);
    AcceptedResume(w, c, p);
    ReceivedInOrder(steps, sid);
    ResumeCompleteIff(w.store.sessions[sid], LogOf(w.store, sid), w.received[sid]);
  }

  // ---- a run with any backlog ----

  const BOT: Bot := Bot(0, 0, 0)
  const EVENT: RealtimeEvent := RealtimeEvent(Some(MessageCreate), true, Some(0))
  const IDENTIFY: IdentifyPayload := IdentifyPayload(Some(INTENT_GUILD_MESSAGES), NoShard, Some(BOT), true, true)

  /** The next live event, sent by the socket but not delivered to the client. */
  function LiveSteps(m: nat): seq<Step> {
    if m == 0 then [] else LiveSteps(m - 1) + [Live(0, EVENT)] + [SendLive(0, true)] + [UpdateLive(0)]
  }

  function BusyLog(m: nat): (log: seq<ReplayEvent>)
    ensures |log| == m && StrictlyIncreasing(log)
    ensures forall i :: 0 <= i < m ==> log[i].sequence == i + 2
  {
    seq(m, i => ReplayEvent(0, i + 2, MessageCreate, 0))
  }

  function BusyConn(m: nat): Conn {
    Conn(Idle, Some(BOT), Some(0), INTENT_GUILD_MESSAGES, m + 1, Some(0), 1, [ReadyFrame(1, 0)] + Frames(BusyLog(m)), 1, [])
  }

  function BusyStore(m: nat): Store {
    Store(map[0 := Session(0, 0, 0, 0, m + 1, INTENT_GUILD_MESSAGES)], if m == 0 then map[] else map[0 := BusyLog(m)])
  }

  function BusyWorld(m: nat): World {
    World(BusyStore(m), map[0 := BusyConn(m)], map[0 := 0], map[0 := [ReadyFrame(1, 0)]],
          map[0 := Origin(BOT, INTENT_GUILD_MESSAGES)])
  }

  lemma BusyNext(m: nat)
    ensures LogAppend(BusyLog(m), ReplayEvent(0, m + 2, MessageCreate, 0)) == BusyLog(m + 1)
    ensures Frames(BusyLog(m + 1)) == Frames(BusyLog(m)) + [DispatchFrame(ReplayEvent(0, m + 2, MessageCreate, 0))]
  {
    AppendAbove(BusyLog(m), ReplayEvent(0, m + 2, MessageCreate, 0));
  }

  /** Between the log and the send, between the send and the update. */
  function LoggedWorld(m: nat): World {
    var e := ReplayEvent(0, m + 2, MessageCreate, 0);
    BusyWorld(m).(store := BusyStore(m).(replay := map[0 := BusyLog(m + 1)]),
                  conns := map[0 := BusyConn(m).(sequence := m + 2, phase := Appended(e))])
  }

  function SentWorld(m: nat): World {
    LoggedWorld(m).(conns := map[0 := BusyConn(m + 1).(phase := SentLive)])
  }

  lemma EventForwarded()
    ensures Forwarded(INTENT_GUILD_MESSAGES, EVENT)
  {
  }

  lemma BusyLive(m: nat)
    ensures Enabled(BusyWorld(m), Live(0, EVENT)) && Apply(BusyWorld(m), Live(0, EVENT)) == LoggedWorld(m)
  {
    EventForwarded();
    LiveShape(BusyWorld(m), 0, 0, EVENT);
    BusyNext(m);
    assert LogOf(BusyStore(m), 0) == BusyLog(m);
  }

  lemma BusyFrames(m: nat)
    ensures [ReadyFrame(1, 0)] + Frames(BusyLog(m)) + [DispatchFrame(ReplayEvent(0, m + 2, MessageCreate, 0))]
            == [ReadyFrame(1, 0)] + Frames(BusyLog(m + 1))
  {
    BusyNext(m);
  }

  lemma BusyPush(m: nat, e: ReplayEvent)
    requires e == ReplayEvent(0, m + 2, MessageCreate, 0)
    ensures Push(BusyConn(m).(sequence := m + 2, phase := Appended(e)), DispatchFrame(e), SentLive) == BusyConn(m + 1).(phase := SentLive)
  {
    BusyFrames(m);
  }

  lemma SendFrom(w: World, conn: Conn, e: ReplayEvent)
    requires w.conns == map[0 := conn] && conn.phase == Appended(e)
    ensures Enabled(w, SendLive(0, true))
    ensures Apply(w, SendLive(0, true)) == w.(conns := map[0 := Push(conn, DispatchFrame(e), SentLive)])
  {
  }

  lemma BusySend(m: nat)
    ensures Enabled(LoggedWorld(m), SendLive(0, true)) && Apply(LoggedWorld(m), SendLive(0, true)) == SentWorld(m)
  {
    var e := ReplayEvent(0, m + 2, MessageCreate, 0);
    BusyPush(m, e);
    SendFrom(LoggedWorld(m), BusyConn(m).(sequence := m + 2, phase := Appended(e)), e);
  }

  lemma BusyUpdate(m: nat)
    ensures Enabled(SentWorld(m), UpdateLive(0)) && Apply(SentWorld(m), UpdateLive(0)) == BusyWorld(m + 1)
  {
    UpdateShape(SentWorld(m), 0, 0);
  }

  function Opening(): seq<Step> {
    [] + [Connect(0)] + [Identify(0, Some(IDENTIFY), 0)] + [SendReady(0, true)] + [Deliver(0)]
  }

  /** A client that receives READY, loses the next `m` messages on their way and connects again. */
  function BusySteps(m: nat): seq<Step> {
    Opening() + LiveSteps(m) + [Disconnect(0)] + [Connect(1)]
  }

  function ReadyingConn(): Conn {
    Conn(Readying, Some(BOT), Some(0), INTENT_GUILD_MESSAGES, 1, Some(0), 1, [], 0, [])
  }

  function FirstWorld(conn: Conn, received: seq<Frame>): World {
    World(BusyStore(0), map[0 := conn], map[0 := 0], map[0 := received], map[0 := Origin(BOT, INTENT_GUILD_MESSAGES)])
  }

  lemma IdentifyAccepted()
    ensures IdentifyOutcomeOf(false, Some(IDENTIFY)) == Accept(BOT, INTENT_GUILD_MESSAGES)
  {
  }

  lemma OpeningIdentify()
    ensures var w := SetConn(InitialWorld, 0, NewConn);
            && Enabled(w, Identify(0, Some(IDENTIFY), 0))
            && Apply(w, Identify(0, Some(IDENTIFY), 0)) == FirstWorld(ReadyingConn(), [])
  {
    IdentifyAccepted();
  }

  lemma OpeningDeliver()
    ensures var w := FirstWorld(BusyConn(0).(delivered := 0), []);
            Enabled(w, Deliver(0)) && Apply(w, Deliver(0)) == BusyWorld(0)
  {
    var f := ReadyFrame(1, 0);
    assert BusyConn(0).sent == [f] && [] + [f] == [f];
    assert BusyConn(0).(delivered := 0).(delivered := 1) == BusyConn(0);
  }

  lemma OpeningSend()
    ensures var w, w' := FirstWorld(ReadyingConn(), []), FirstWorld(BusyConn(0).(delivered := 0), []);
            Enabled(w, SendReady(0, true)) && Apply(w, SendReady(0, true)) == w'
  {
    var f := ReadyFrame(1, 0);
    assert BusyConn(0).sent == [f] && [] + [f] == [f];
    assert Push(ReadyingConn(), f, Idle) == BusyConn(0).(delivered := 0);
  }

  lemma OpeningReached()
    ensures Reach(Opening()) == Some(BusyWorld(0))
  {
    var w1, w2 := SetConn(InitialWorld, 0, NewConn), FirstWorld(ReadyingConn(), []);
    var w3 := FirstWorld(BusyConn(0).(delivered := 0), []);
    ReachStep([], Connect(0), InitialWorld, w1);
    OpeningIdentify();
    ReachStep([] + [Connect(0)], Identify(0, Some(IDENTIFY), 0), w1, w2);
    OpeningSend();
    ReachStep([] + [Connect(0)] + [Identify(0, Some(IDENTIFY), 0)], SendReady(0, true), w2, w3);
    OpeningDeliver();
    ReachStep([] + [Connect(0)] + [Identify(0, Some(IDENTIFY), 0)] + [SendReady(0, true)], Deliver(0), w3, BusyWorld(0));
  }

  lemma OneMoreLive(steps: seq<Step>, m: nat)
    requires Reach(steps) == Some(BusyWorld(m))
    ensures Reach(steps + [Live(0, EVENT)] + [SendLive(0, true)] + [UpdateLive(0)]) == Some(BusyWorld(m + 1))
  {
    BusyLive(m);
    ReachStep(steps, Live(0, EVENT), BusyWorld(m), LoggedWorld(m));
    BusySend(m);
    ReachStep(steps + [Live(0, EVENT)], SendLive(0, true), LoggedWorld(m), SentWorld(m));
    BusyUpdate(m);
    ReachStep(steps + [Live(0, EVENT)] + [SendLive(0, true)], UpdateLive(0), SentWorld(m), BusyWorld(m + 1));
  }

  lemma LiveStepsStep(steps: seq<Step>, m: nat)
    requires m > 0
    ensures steps + LiveSteps(m) == steps + LiveSteps(m - 1) + [Live(0, EVENT)] + [SendLive(0, true)] + [UpdateLive(0)]
  {
  }

  lemma {:induction false} BusyReached(m: nat)
    ensures Reach(Opening() + LiveSteps(m)) == Some(BusyWorld(m))
  {
    if m == 0 {
      OpeningReached();
      assert Opening() + LiveSteps(0) == Opening();
    } else {
      BusyReached(m - 1);
      OneMoreLive(Opening() + LiveSteps(m - 1), m - 1);
      LiveStepsStep(Opening(), m);
    }
  }

  /** The same client on its second connection. */
  function BackWorld(m: nat): World {
    BusyWorld(m).(conns := map[0 := BusyConn(m).(phase := Closed), 1 := NewConn])
  }

  lemma BackReached(m: nat)
    ensures Reach(BusySteps(m)) == Some(BackWorld(m))
  {
    BusyReached(m);
    var steps := Opening() + LiveSteps(m);
    var w := BusyWorld(m).(conns := map[0 := BusyConn(m).(phase := Closed)]);
    ReachStep(steps, Disconnect(0), BusyWorld(m), w);
    ReachStep(steps + [Disconnect(0)], Connect(1), w, BackWorld(m));
  }

  ghost predicate NoResume(steps: seq<Step>) {
    forall i :: 0 <= i < |steps| ==> !steps[i].Resume? && !steps[i].ListReplay?
  }

  lemma {:induction false} BusyHasNoResume(m: nat)
    ensures NoResume(LiveSteps(m))
  {
    if m > 0 { BusyHasNoResume(m - 1); }
  }

  lemma {:induction false} NoResumeIsHonest(steps: seq<Step>, sid: SessionId)
    requires Reach(steps).Some? && NoResume(steps)
    ensures HonestRun(steps, sid) && ShortBacklogs(steps, sid)
  {
    if steps != [] { NoResumeIsHonest(steps[..|steps| - 1], sid); }
  }

  const AGAIN: ResumePayload := ResumePayload(0, Some(1), Some(BOT))

  lemma BackCanResume(m: nat)
    ensures Enabled(BackWorld(m), Resume(1, Some(AGAIN))) && ResumeAccepted(BackWorld(m), 1, Some(AGAIN))
    ensures ClientSequence(AGAIN) == 1 == LastSequence(BackWorld(m).received[0])
    ensures LogOf(BackWorld(m).store, 0) == BusyLog(m)
  {
  }

  lemma {:induction false} AfterAll(log: seq<ReplayEvent>, n: int)
    requires forall i :: 0 <= i < |log| ==> log[i].sequence > n
    ensures After(log, n) == log
  {
    if log != [] { AfterAll(log[1..], n); }
  }

  /**
   For every `m` there is an honest run that leaves a backlog of `m` events, and the resume
   that ends it is complete exactly up to the limit.
   */
  lemma EveryBacklog(m: nat)
    ensures Reach(BusySteps(m)) == Some(BackWorld(m)) && HonestRun(BusySteps(m), 0) && ShortBacklogs(BusySteps(m), 0)
    ensures |After(LogOf(BackWorld(m).store, 0), ClientSequence(AGAIN))| == m
    ensures var run := Reach(BusySteps(m) + ResumeSteps(BackWorld(m), 1, AGAIN));
            && run.Some? && 1 in run.value.conns && 0 in run.value.received
            && (Complete(LogOf(run.value.store, 0), run.value.received[0] + run.value.conns[1].sent)
                <==> m <= 100)
  {
    BackReached(m);
    BusyHasNoResume(m);
    NoResumeIsHonest(BusySteps(m), 0);
    BackCanResume(m);
    AfterAll(BusyLog(m), 1);
    ReplayComplete(BusySteps(m), 0);
    ResumeRunCompleteIff(BusySteps(m), 1, AGAIN);
  }

  /** From the first event too many on, such a run ends with a gap. */
  lemma OneEventTooMany(m: nat)
    requires m > 100
    ensures var run := Reach(BusySteps(m) + ResumeSteps(BackWorld(m), 1, AGAIN));
            && Reach(BusySteps(m)).Some? && HonestRun(BusySteps(m), 0)
            && run.Some? && 1 in run.value.conns && 0 in run.value.received
            && !Complete(LogOf(run.value.store, 0), run.value.received[0] + run.value.conns[1].sent)
  {
    EveryBacklog(m);
  }
}
