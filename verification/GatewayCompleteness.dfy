/**
 What a client misses. A client that reports the last number it received misses a logged
 event if and only if a replay was cut before that event and the client has since received a
 frame with its number or a higher one; such an event is never delivered later. With backlogs
 that fit into one replay the client therefore misses nothing and sees nothing twice, over any
 series of drops (also between the log append and the send) and resumes.
 */
module GatewayCompleteness {
  import opened Outcomes
  import opened Lists
  import opened GatewayStore
  import opened GatewayProtocol
  import opened GatewayReplay

  // ---- streams ----

  /** The number a client reports: that of the last frame it received, zero if none. */
  function LastSequence(fs: seq<Frame>): int {
    if fs == [] then 0 else fs[|fs| - 1].Sequence()
  }

  /** The logged events among received frames, in order. */
  function Dispatches(fs: seq<Frame>): seq<ReplayEvent> {
    if fs == [] then []
    else Dispatches(fs[..|fs| - 1]) + (if fs[|fs| - 1].DispatchFrame? then [fs[|fs| - 1].event] else [])
  }

  /** Every logged event up to the last number received was received, once and in order. */
  ghost predicate Complete(log: seq<ReplayEvent>, fs: seq<Frame>) {
    Dispatches(fs) == UpTo(log, LastSequence(fs))
  }

  ghost predicate Positive(fs: seq<Frame>) {
    forall i :: 0 <= i < |fs| ==> fs[i].Sequence() > 0
  }

  ghost predicate Covered(log: seq<ReplayEvent>, fs: seq<Frame>) {
    forall i :: 0 <= i < |log| && log[i].sequence <= LastSequence(fs) ==> DispatchFrame(log[i]) in fs
  }

  /** Ordered frames of logged events. */
  ghost predicate FramesOk(log: seq<ReplayEvent>, fs: seq<Frame>) {
    FramesIncreasing(fs) && Positive(fs) && FramesLogged(log, fs)
  }

  ghost predicate StreamOk(log: seq<ReplayEvent>, fs: seq<Frame>) {
    FramesOk(log, fs) && Covered(log, fs)
  }

  lemma {:induction false} DispatchHas(fs: seq<Frame>, e: ReplayEvent)
    ensures e in Dispatches(fs) <==> DispatchFrame(e) in fs
  {
    if fs != [] {
      DispatchHas(fs[..|fs| - 1], e);
      assert fs == fs[..|fs| - 1] + [fs[|fs| - 1]];
    }
  }

  lemma BelowLast(fs: seq<Frame>, e: ReplayEvent)
    requires FramesIncreasing(fs) && DispatchFrame(e) in fs
    ensures e.sequence <= LastSequence(fs)
  {
    var k :| 0 <= k < |fs| && fs[k] == DispatchFrame(e);
    assert fs[k].Sequence() == e.sequence;
  }

  lemma {:induction false} DispatchOrdered(fs: seq<Frame>)
    requires FramesIncreasing(fs)
    ensures StrictlyIncreasing(Dispatches(fs))
  {
    if fs != [] {
      var init, last := fs[..|fs| - 1], fs[|fs| - 1];
      DispatchOrdered(init);
      var d := Dispatches(init);
      forall i | 0 <= i < |d| ensures d[i].sequence < last.Sequence() {
        DispatchHas(init, d[i]);
        BelowLast(init, d[i]);
        assert init[|init| - 1].Sequence() < last.Sequence();
      }
    }
  }

  lemma DispatchMembers(fs: seq<Frame>)
    requires FramesIncreasing(fs)
    ensures StrictlyIncreasing(Dispatches(fs))
    ensures forall e :: e in Dispatches(fs) <==> DispatchFrame(e) in fs
  {
    DispatchOrdered(fs);
    forall e ensures e in Dispatches(fs) <==> DispatchFrame(e) in fs { DispatchHas(fs, e); }
  }

  /** A well-formed stream is exactly the log up to its last number. */
  lemma StreamComplete(log: seq<ReplayEvent>, fs: seq<Frame>)
    requires StrictlyIncreasing(log) && StreamOk(log, fs)
    ensures Complete(log, fs)
  {
    DispatchMembers(fs);
    UpToMembers(log, LastSequence(fs));
    forall e ensures e in Dispatches(fs) <==> e in UpTo(log, LastSequence(fs)) {
      if e in Dispatches(fs) { BelowLast(fs, e); }
    }
    SameEventsSameLog(Dispatches(fs), UpTo(log, LastSequence(fs)));
  }

  // ---- what is missing ----

  /** A logged event that the client has passed without receiving it. */
  ghost predicate Missing(fs: seq<Frame>, e: ReplayEvent) {
    e.sequence <= LastSequence(fs) && DispatchFrame(e) !in fs
  }

  /** The replay on this connection was cut before the event, and the client received a frame at or above it. */
  ghost predicate LostOn(conn: Conn, e: ReplayEvent) {
    e in conn.skipped && exists i :: 0 <= i < conn.delivered && i < |conn.sent| && conn.sent[i].Sequence() >= e.sequence
  }

  predicate Explained(conn: Conn, e: ReplayEvent) {
    DispatchFrame(e) in conn.sent || e in conn.skipped
  }

  /** What was left out is logged above `n` and was not sent. */
  ghost predicate SkipsOk(log: seq<ReplayEvent>, n: int, conn: Conn) {
    forall e :: e in conn.skipped ==> e in log && e.sequence > n && DispatchFrame(e) !in conn.sent
  }

  ghost predicate ExplainedUpTo(log: seq<ReplayEvent>, n: int, top: int, conn: Conn) {
    forall e :: e in log && n < e.sequence <= top ==> Explained(conn, e)
  }

  ghost predicate AllExplained(log: seq<ReplayEvent>, n: int, conn: Conn) {
    forall e :: e in log && n < e.sequence ==> Explained(conn, e)
  }

  /** `base` is what the client had received when the connection took the session over. */
  ghost predicate GapOk(log: seq<ReplayEvent>, base: seq<Frame>, conn: Conn) {
    && FramesOk(log, base + conn.sent)
    && SkipsOk(log, LastSequence(base), conn)
    && ExplainedUpTo(log, LastSequence(base), LastSequence(base + conn.sent), conn)
  }

  ghost predicate GapPhase(s: Session, log: seq<ReplayEvent>, base: seq<Frame>, conn: Conn) {
    var n, top := LastSequence(base), LastSequence(base + conn.sent);
    match conn.phase
    case Open => false
    case Readying => base == [] && conn.sent == [] && conn.skipped == []
    case Listing(_, _, reported) => reported == n <= s.sequence && conn.sent == [] && conn.skipped == []
    case Replaying(_, _, events, next) =>
      && next <= |events|
      && (forall e :: e in log && e.sequence > n ==> e in events || e in conn.skipped)
      && (forall e, i :: e in conn.skipped && 0 <= i < |events| ==> events[i].sequence < e.sequence)
      && (next < |events| ==> top < events[next].sequence)
      && (top <= s.sequence || (next > 0 && top == events[next - 1].sequence))
    case Resuming => AllExplained(log, n, conn) && top < conn.sequence
    case Idle => AllExplained(log, n, conn) && top <= s.sequence
    case Appended(p) =>
      && top <= s.sequence && p !in conn.skipped
      && (forall e :: e in log && n < e.sequence ==> e == p || Explained(conn, e))
    case SentLive => AllExplained(log, n, conn) && top <= s.sequence + 1
    case Closed => top <= s.sequence
  }

  /** What the client had received before this connection. */
  function Base(received: seq<Frame>, conn: Conn): seq<Frame>
    requires conn.delivered <= |received|
  {
    received[..|received| - conn.delivered]
  }

  ghost predicate GapLine(s: Session, log: seq<ReplayEvent>, received: seq<Frame>, conn: Conn) {
    && conn.delivered <= |conn.sent| && conn.delivered <= |received|
    && received == Base(received, conn) + conn.sent[..conn.delivered]
    && GapOk(log, Base(received, conn), conn)
    && GapPhase(s, log, Base(received, conn), conn)
  }

  // ---- the steps on one session ----

  lemma LastOfPush(fs: seq<Frame>, sent: seq<Frame>, f: Frame)
    ensures fs + (sent + [f]) == fs + sent + [f]
    ensures LastSequence(fs + (sent + [f])) == f.Sequence()
  {
  }

  lemma PushFrames(log: seq<ReplayEvent>, fs: seq<Frame>, f: Frame)
    requires FramesOk(log, fs) && LastSequence(fs) < f.Sequence() && 0 < f.Sequence()
    requires f.DispatchFrame? ==> f.event in log
    ensures FramesOk(log, fs + [f])
  {
  }

  /** A frame above everything sent that leaves nothing below it unexplained. */
  lemma PushGap(log: seq<ReplayEvent>, base: seq<Frame>, conn: Conn, f: Frame, next: Phase)
    requires GapOk(log, base, conn) && LastSequence(base + conn.sent) < f.Sequence() && 0 < f.Sequence()
    requires f.DispatchFrame? ==> f.event in log && f.event !in conn.skipped
    requires forall e :: e in log && LastSequence(base) < e.sequence <= f.Sequence() ==> Explained(conn, e) || DispatchFrame(e) == f
    ensures GapOk(log, base, Push(conn, f, next))
    ensures LastSequence(base + Push(conn, f, next).sent) == f.Sequence()
  {
    LastOfPush(base, conn.sent, f);
    PushFrames(log, base + conn.sent, f);
  }

  lemma SendGap(sid: SessionId, s: Session, o: Origin, log: seq<ReplayEvent>, base: seq<Frame>, conn: Conn)
    requires LineOk(sid, s, o, log, conn) && GapOk(log, base, conn) && GapPhase(s, log, base, conn)
    requires (conn.phase.Readying? || conn.phase.Resuming?) && conn.activeSessionId.Some?
    ensures var conn' := Push(conn, NextFrame(conn).0, NextFrame(conn).1);
            GapOk(log, base, conn') && GapPhase(s, log, base, conn')
  {
    var (f, next) := NextFrame(conn);
    PushGap(log, base, conn, f, next);
  }

  lemma SendLiveGap(sid: SessionId, s: Session, o: Origin, log: seq<ReplayEvent>, base: seq<Frame>, conn: Conn)
    requires LineOk(sid, s, o, log, conn) && GapOk(log, base, conn) && GapPhase(s, log, base, conn) && conn.phase.Appended?
    ensures var conn' := Push(conn, DispatchFrame(conn.phase.pending), SentLive);
            GapOk(log, base, conn') && GapPhase(s, log, base, conn')
  {
    var p := conn.phase.pending;
    assert p in log;
    PushGap(log, base, conn, DispatchFrame(p), SentLive);
  }

  /** Everything logged up to the next event to replay is explained once that event is sent. */
  lemma UpToNext(events: seq<ReplayEvent>, conn: Conn, next: nat, e: ReplayEvent)
    requires next < |events| && StrictlyIncreasing(events) && |conn.sent| == next
    requires forall i :: 0 <= i < next ==> conn.sent[i] == DispatchFrame(events[i])
    requires e in events && e.sequence <= events[next].sequence
    ensures Explained(conn, e) || e == events[next]
  {
    var k :| 0 <= k < |events| && events[k] == e;
    if k < next { assert conn.sent[k] == DispatchFrame(e); }
  }

  lemma SendReplayGap(sid: SessionId, s: Session, o: Origin, log: seq<ReplayEvent>, base: seq<Frame>, conn: Conn)
    requires LineOk(sid, s, o, log, conn) && GapOk(log, base, conn) && GapPhase(s, log, base, conn)
    requires conn.phase.Replaying? && conn.phase.next < |conn.phase.events|
    ensures var conn' := Push(conn, NextFrame(conn).0, NextFrame(conn).1);
            GapOk(log, base, conn') && GapPhase(s, log, base, conn')
  {
    var (f, phase) := NextFrame(conn);
    var events, next := conn.phase.events, conn.phase.next;
    forall e | e in log && LastSequence(base) < e.sequence <= f.Sequence() ensures Explained(conn, e) || DispatchFrame(e) == f {
      if e in events { UpToNext(events, conn, next, e); }
    }
    assert events[next] in log;
    PushGap(log, base, conn, f, phase);
  }

  lemma CloseGap(sid: SessionId, s: Session, o: Origin, log: seq<ReplayEvent>, base: seq<Frame>, conn: Conn)
    requires LineOk(sid, s, o, log, conn) && GapOk(log, base, conn) && GapPhase(s, log, base, conn)
    requires !conn.phase.SentLive? && (conn.phase.Replaying? ==> conn.phase.next < |conn.phase.events|)
    ensures var conn' := conn.(phase := Closed); GapOk(log, base, conn') && GapPhase(s, log, base, conn')
  {
    if conn.phase.Replaying? { assert conn.phase.events[conn.phase.next] in log; }
    if conn.phase.Listing? || conn.phase.Readying? { assert base + conn.sent == base; }
  }

  /** What a cut keeps comes before what it leaves out. */
  lemma CutOrder(all: seq<ReplayEvent>, limit: nat, e: ReplayEvent, i: nat)
    requires StrictlyIncreasing(all) && e in Drop(all, limit) && i < |Take(all, limit)|
    ensures Take(all, limit)[i].sequence < e.sequence
  {
    var k :| 0 <= k < |Drop(all, limit)| && Drop(all, limit)[k] == e;
    assert all[limit + k] == e && Take(all, limit)[i] == all[i];
  }

  lemma CutMember(all: seq<ReplayEvent>, limit: nat, e: ReplayEvent)
    ensures e in all <==> e in Take(all, limit) || e in Drop(all, limit)
  {
    assert all == Take(all, limit) + Drop(all, limit);
  }

  /** The two parts of a backlog that is cut. */
  lemma CutParts(log: seq<ReplayEvent>, n: int, limit: nat)
    requires StrictlyIncreasing(log)
    ensures var events, rest := Take(After(log, n), limit), Drop(After(log, n), limit);
            && (forall e :: e in log && e.sequence > n ==> e in events || e in rest)
            && (forall e :: e in rest ==> e in log && e.sequence > n)
            && (forall e, i :: e in rest && 0 <= i < |events| ==> events[i].sequence < e.sequence)
            && (forall e :: e in events ==> e.sequence > n)
  {
    AfterMembers(log, n);
    var all := After(log, n);
    forall e ensures e in all <==> e in Take(all, limit) || e in Drop(all, limit) { CutMember(all, limit, e); }
    forall e, i | e in Drop(all, limit) && 0 <= i < |Take(all, limit)| ensures Take(all, limit)[i].sequence < e.sequence {
      CutOrder(all, limit, e, i);
    }
  }

  lemma ListGap(s: Session, log: seq<ReplayEvent>, base: seq<Frame>, conn: Conn, conn': Conn)
    requires conn.phase.Listing? && StrictlyIncreasing(log) && GapOk(log, base, conn) && GapPhase(s, log, base, conn)
    requires var all := After(log, conn.phase.clientSequence);
             conn' == conn.(phase := Replaying(conn.phase.snapshot, conn.phase.bot, Take(all, GATEWAY_REPLAY_LIMIT), 0),
                            skipped := Drop(all, GATEWAY_REPLAY_LIMIT))
    ensures GapOk(log, base, conn') && GapPhase(s, log, base, conn')
  {
    CutParts(log, conn.phase.clientSequence, GATEWAY_REPLAY_LIMIT);
    assert base + [] == base;
    var events := conn'.phase.events;
    assert events != [] ==> events[0] in events;
  }

  lemma AllReplayed(log: seq<ReplayEvent>, n: int, conn: Conn)
    requires conn.phase.Replaying? && |conn.sent| == |conn.phase.events|
    requires forall i :: 0 <= i < |conn.sent| ==> conn.sent[i] == DispatchFrame(conn.phase.events[i])
    requires forall e :: e in log && e.sequence > n ==> e in conn.phase.events || e in conn.skipped
    ensures AllExplained(log, n, conn)
  {
    forall e | e in log && n < e.sequence ensures Explained(conn, e) {
      if e in conn.phase.events {
        var k :| 0 <= k < |conn.sent| && conn.phase.events[k] == e;
        assert conn.sent[k] == DispatchFrame(e);
      }
    }
  }

  lemma FinishGap(sid: SessionId, s: Session, o: Origin, log: seq<ReplayEvent>, base: seq<Frame>, conn: Conn, conn': Conn)
    requires LineOk(sid, s, o, log, conn) && GapOk(log, base, conn) && GapPhase(s, log, base, conn)
    requires conn.phase.Replaying? && conn.phase.next == |conn.phase.events|
    requires conn'.sent == conn.sent && conn'.skipped == conn.skipped && conn'.phase.Resuming?
    requires conn'.sequence == ResumeSequence(s, conn.phase.events)
    ensures GapOk(log, base, conn') && GapPhase(s.(sequence := conn'.sequence), log, base, conn')
  {
    AllReplayed(log, LastSequence(base), conn);
  }

  lemma GrownGap(log: seq<ReplayEvent>, e: ReplayEvent, base: seq<Frame>, conn: Conn)
    requires GapOk(log, base, conn) && e.sequence > LastSequence(base + conn.sent)
    ensures GapOk(log + [e], base, conn)
  {
    GrownLog(log, log + [e], base + conn.sent);
  }

  lemma AppendGap(s: Session, log: seq<ReplayEvent>, base: seq<Frame>, conn: Conn, conn': Conn, e: ReplayEvent)
    requires conn.phase.Idle? && GapOk(log, base, conn) && GapPhase(s, log, base, conn)
    requires e.sequence > s.sequence && AllBelow(log, e.sequence)
    requires conn'.sent == conn.sent && conn'.skipped == conn.skipped && conn'.phase == Appended(e)
    ensures GapOk(log + [e], base, conn') && GapPhase(s, log + [e], base, conn')
  {
    GrownGap(log, e, base, conn);
    assert e !in log;
  }

  lemma BaseBelow(base: seq<Frame>, sent: seq<Frame>)
    requires FramesIncreasing(base + sent)
    ensures forall i :: 0 <= i < |base| ==> base[i].Sequence() <= LastSequence(base)
    ensures base != [] ==> forall i :: 0 <= i < |sent| ==> LastSequence(base) < sent[i].Sequence()
    ensures FramesIncreasing(sent)
  {
    var fs := base + sent;
    assert forall i :: 0 <= i < |base| ==> fs[i] == base[i];
    assert forall i :: 0 <= i < |sent| ==> fs[|base| + i] == sent[i];
  }

  lemma OldMissing(log: seq<ReplayEvent>, base: seq<Frame>, conn: Conn, d: nat, e: ReplayEvent)
    requires GapOk(log, base, conn) && d <= |conn.sent| && e.sequence <= LastSequence(base) && 0 < e.sequence
    ensures Missing(base + conn.sent[..d], e) <==> Missing(base, e)
    ensures e !in conn.skipped
  {
    BaseBelow(base, conn.sent);
    var fs := base + conn.sent[..d];
    assert forall i :: 0 <= i < d ==> conn.sent[..d][i] == conn.sent[i];
    if d > 0 { assert LastSequence(fs) == conn.sent[d - 1].Sequence(); } else { assert fs == base; }
    assert DispatchFrame(e) in fs <==> DispatchFrame(e) in base by {
      forall i | 0 <= i < d ensures conn.sent[i] != DispatchFrame(e) { assert conn.sent[i].Sequence() > e.sequence; }
    }
  }

  lemma NewMissing(log: seq<ReplayEvent>, base: seq<Frame>, conn: Conn, d: nat, e: ReplayEvent)
    requires GapOk(log, base, conn) && d <= |conn.sent| && e.sequence > LastSequence(base) && e in log
    ensures Missing(base + conn.sent[..d], e)
            <==> e in conn.skipped && exists i :: 0 <= i < d && conn.sent[i].Sequence() >= e.sequence
  {
    BaseBelow(base, conn.sent);
    var front := conn.sent[..d];
    var fs := base + front;
    assert forall i :: 0 <= i < d ==> front[i] == conn.sent[i];
    assert DispatchFrame(e) !in base by {
      forall i | 0 <= i < |base| ensures base[i] != DispatchFrame(e) { assert base[i].Sequence() <= LastSequence(base); }
    }
    if d == 0 {
      assert fs == base;
    } else {
      assert LastSequence(fs) == conn.sent[d - 1].Sequence();
      assert LastSequence(base + conn.sent) == conn.sent[|conn.sent| - 1].Sequence();
      if Missing(fs, e) {
        assert Explained(conn, e);
      }
      if i :| 0 <= i < d && conn.sent[i].Sequence() >= e.sequence {
        assert conn.sent[i].Sequence() <= conn.sent[d - 1].Sequence();
      }
    }
  }

  /** What is missing after some deliveries: what was missing before, and what was lost on the connection. */
  lemma MissingLine(s: Session, log: seq<ReplayEvent>, received: seq<Frame>, conn: Conn, e: ReplayEvent)
    requires GapLine(s, log, received, conn) && e in log && 0 < e.sequence
    ensures Missing(received, e) <==> Missing(Base(received, conn), e) || LostOn(conn, e)
  {
    var base := Base(received, conn);
    if e.sequence <= LastSequence(base) {
      OldMissing(log, base, conn, conn.delivered, e);
    } else {
      NewMissing(log, base, conn, conn.delivered, e);
    }
  }

  // ---- runs ----

  /** A connection that the session has left. */
  ghost predicate LeftBehind(w: World, sid: SessionId, c: nat) {
    c in w.conns && w.conns[c].target == Some(sid) && sid in w.current && w.current[sid] != c
  }

  ghost predicate LostBefore(w: World, sid: SessionId, e: ReplayEvent) {
    exists c :: LeftBehind(w, sid, c) && LostOn(w.conns[c], e)
  }

  ghost predicate SkipsLogged(w: World, sid: SessionId) {
    forall c, e :: c in w.conns && w.conns[c].target == Some(sid) && e in w.conns[c].skipped ==> e in LogOf(w.store, sid)
  }

  /** What was missing when the connection took over was lost on the connections before it. */
  ghost predicate BaseGap(w: World, sid: SessionId, base: seq<Frame>) {
    forall e :: e in LogOf(w.store, sid) ==> (Missing(base, e) <==> LostBefore(w, sid, e))
  }

  ghost predicate SidGap(w: World, sid: SessionId) {
    sid in w.store.sessions ==>
      && sid in w.current && w.current[sid] in w.conns && sid in w.received
      && var conn := w.conns[w.current[sid]];
         && GapLine(w.store.sessions[sid], LogOf(w.store, sid), w.received[sid], conn)
         && BaseGap(w, sid, Base(w.received[sid], conn))
         && SkipsLogged(w, sid)
  }

  /** The client of the session reports the last number it received. */
  ghost predicate HonestStep(w: World, s: Step, sid: SessionId)
    requires Enabled(w, s)
  {
    s.Resume? && s.resume.Some? && s.resume.value.sessionId == sid && sid in w.received ==>
      ClientSequence(s.resume.value) == LastSequence(w.received[sid])
  }

  ghost predicate HonestRun(steps: seq<Step>, sid: SessionId)
    requires Reach(steps).Some?
  {
    steps != [] ==>
      var before := Reach(steps[..|steps| - 1]).value;
      HonestRun(steps[..|steps| - 1], sid) && HonestStep(before, steps[|steps| - 1], sid)
  }

  /** Nothing that belongs to the session has changed. */
  ghost predicate SameSession(w: World, w': World, sid: SessionId)
    requires sid in w.store.sessions && sid in w.current && sid in w.received
  {
    && sid in w'.store.sessions && w'.store.sessions[sid] == w.store.sessions[sid]
    && LogOf(w'.store, sid) == LogOf(w.store, sid)
    && sid in w'.current && w'.current[sid] == w.current[sid]
    && sid in w'.received && w'.received[sid] == w.received[sid]
  }

  lemma UnrelatedLive(w: World, s: Step, sid: SessionId)
    requires Enabled(w, s) && s.Live? && sid in w.store.sessions && sid in w.current && sid in w.received
    requires ConnOk(w.conns[s.c]) && w.conns[s.c].target != Some(sid)
    ensures SameSession(w, Apply(w, s), sid)
  {
  }

  lemma UnrelatedIdentify(w: World, c: nat, payload: Option<IdentifyPayload>, freshId: SessionId, sid: SessionId)
    requires c in w.conns && sid in w.store.sessions && sid in w.current && sid in w.received && freshId != sid
    ensures SameSession(w, DoIdentify(w, c, payload, freshId), sid)
  {
  }

  lemma UnrelatedResume(w: World, c: nat, payload: Option<ResumePayload>, sid: SessionId)
    requires c in w.conns && sid in w.store.sessions && sid in w.current && sid in w.received
    requires c in DoResume(w, c, payload).conns ==> DoResume(w, c, payload).conns[c].target != Some(sid)
    ensures SameSession(w, DoResume(w, c, payload), sid)
  {
    if !ResumeAccepted(w, c, payload) { RefusedResume(w, c, payload); }
  }

  lemma UnrelatedOther(w: World, s: Step, sid: SessionId)
    requires Enabled(w, s) && !s.Live? && !s.Identify? && !s.Resume?
    requires sid in w.store.sessions && sid in w.current && sid in w.received
    requires !s.Connect? ==> ConnOk(w.conns[s.c]) && w.conns[s.c].target != Some(sid)
    ensures SameSession(w, Apply(w, s), sid)
  {
  }

  lemma TargetStays(w: World, s: Step)
    requires Enabled(w, s) && !s.Connect? && !s.Identify? && !s.Resume?
    ensures s.c in w.conns && s.c in Apply(w, s).conns && Apply(w, s).conns[s.c].target == w.conns[s.c].target
  {
  }

  lemma Unrelated(w: World, s: Step, sid: SessionId)
    requires Enabled(w, s) && sid in w.store.sessions && sid in w.current && sid in w.received
    requires !s.Connect? ==> ConnOk(w.conns[s.c])
    requires s.c in Apply(w, s).conns ==> Apply(w, s).conns[s.c].target != Some(sid)
    ensures SameSession(w, Apply(w, s), sid)
  {
    if s.Identify? {
      UnrelatedIdentify(w, s.c, s.identify, s.freshId, sid);
    } else if s.Resume? {
      UnrelatedResume(w, s.c, s.resume, sid);
    } else {
      if !s.Connect? { TargetStays(w, s); }
      if s.Live? { UnrelatedLive(w, s, sid); } else { UnrelatedOther(w, s, sid); }
    }
  }

  /** The connections the session has left are as they were. */
  ghost predicate SameLeftBehind(w: World, w': World, sid: SessionId) {
    forall c :: (LeftBehind(w, sid, c) <==> LeftBehind(w', sid, c)) && (LeftBehind(w, sid, c) ==> w'.conns[c] == w.conns[c])
  }

  lemma SameLost(w: World, w': World, sid: SessionId, e: ReplayEvent)
    requires SameLeftBehind(w, w', sid)
    ensures LostBefore(w, sid, e) <==> LostBefore(w', sid, e)
  {
  }

  lemma SameBaseGap(w: World, w': World, sid: SessionId, base: seq<Frame>)
    requires BaseGap(w, sid, base) && SameLeftBehind(w, w', sid) && LogOf(w'.store, sid) == LogOf(w.store, sid)
    ensures BaseGap(w', sid, base)
  {
    forall e | e in LogOf(w'.store, sid) ensures Missing(base, e) <==> LostBefore(w', sid, e) { SameLost(w, w', sid, e); }
  }

  lemma TargetKept(w: World, s: Step, sid: SessionId)
    requires WorldOk(w) && Enabled(w, s) && !s.Connect? && w.conns[s.c].target == Some(sid)
    ensures s.c in Apply(w, s).conns && Apply(w, s).conns[s.c].target == Some(sid)
  {
    assert ConnOk(w.conns[s.c]);
    if s.Identify? || s.Resume? {
    } else {
      TargetStays(w, s);
    }
  }

  /** A step by a connection that has nothing to do with the session. */
  lemma StepGapOther(w: World, s: Step, sid: SessionId)
    requires WorldOk(w) && Enabled(w, s) && SidGap(w, sid) && sid in w.store.sessions
    requires s.c in Apply(w, s).conns ==> Apply(w, s).conns[s.c].target != Some(sid)
    ensures SidGap(Apply(w, s), sid)
  {
    if !s.Connect? {
      assert ConnOk(w.conns[s.c]);
      if w.conns[s.c].target == Some(sid) { TargetKept(w, s, sid); }
    }
    assert SessionOk(w, sid);
    Unrelated(w, s, sid);
    StepScope(w, s);
    SameBaseGap(w, Apply(w, s), sid, Base(w.received[sid], w.conns[w.current[sid]]));
  }

  lemma OwnKeepsLeftBehind(w: World, c: nat, sid: SessionId, st: Store, conn: Conn, received: map<SessionId, seq<Frame>>)
    requires sid in w.current && w.current[sid] == c
    ensures SameLeftBehind(w, SetConn(w, c, conn).(store := st, received := received), sid)
  {
  }

  /** The current connection of the session moves on; the log stays. */
  lemma MoveGap(w: World, c: nat, sid: SessionId, st: Store, conn: Conn)
    requires SidGap(w, sid) && sid in w.store.sessions && w.current[sid] == c
    requires sid in st.sessions && LogOf(st, sid) == LogOf(w.store, sid)
    requires conn.target == Some(sid) && conn.delivered == w.conns[c].delivered && w.conns[c].sent <= conn.sent
    requires var log, base := LogOf(st, sid), Base(w.received[sid], w.conns[c]);
             GapOk(log, base, conn) && GapPhase(st.sessions[sid], log, base, conn)
    ensures SidGap(SetConn(w, c, conn).(store := st), sid)
  {
    var w' := SetConn(w, c, conn).(store := st);
    OwnKeepsLeftBehind(w, c, sid, st, conn, w.received);
    SameBaseGap(w, w', sid, Base(w.received[sid], w.conns[c]));
    assert conn.sent[..conn.delivered] == w.conns[c].sent[..conn.delivered];
    forall d, e | d in w'.conns && w'.conns[d].target == Some(sid) && e in w'.conns[d].skipped ensures e in LogOf(st, sid) {
      if d != c { assert w'.conns[d] == w.conns[d]; }
    }
  }

  lemma ClosingGap(w: World, c: nat, sid: SessionId)
    requires WorldOk(w) && SidGap(w, sid) && c in w.conns && w.conns[c].target == Some(sid)
    requires !w.conns[c].phase.Open? && !w.conns[c].phase.Closed? && !w.conns[c].phase.SentLive?
    requires w.conns[c].phase.Replaying? ==> w.conns[c].phase.next < |w.conns[c].phase.events|
    ensures SidGap(SetConn(w, c, w.conns[c].(phase := Closed)), sid)
  {
    var t := CurrentLine(w, c);
    CloseGap(sid, w.store.sessions[sid], w.origins[sid], LogOf(w.store, sid), Base(w.received[sid], w.conns[c]), w.conns[c]);
    MoveGap(w, c, sid, w.store, w.conns[c].(phase := Closed));
  }

  lemma SendShape(w: World, s: Step)
    requires s.SendReady? || s.SendReplay? || s.SendResumed? || s.SendLive?
    requires Enabled(w, s) && s.ok && (s.SendReady? ==> w.conns[s.c].activeSessionId.Some?)
    ensures Apply(w, s) == SetConn(w, s.c, Push(w.conns[s.c], NextFrame(w.conns[s.c]).0, NextFrame(w.conns[s.c]).1))
  {
  }

  lemma SendAnyGap(sid: SessionId, s: Session, o: Origin, log: seq<ReplayEvent>, base: seq<Frame>, conn: Conn)
    requires ConnOk(conn) && LineOk(sid, s, o, log, conn) && GapOk(log, base, conn) && GapPhase(s, log, base, conn)
    requires conn.phase.Readying? || conn.phase.Resuming? || conn.phase.Appended?
             || (conn.phase.Replaying? && conn.phase.next < |conn.phase.events|)
    ensures var conn' := Push(conn, NextFrame(conn).0, NextFrame(conn).1);
            GapOk(log, base, conn') && GapPhase(s, log, base, conn')
  {
    match conn.phase
    case Replaying(_, _, _, _) => SendReplayGap(sid, s, o, log, base, conn);
    case Appended(_) => SendLiveGap(sid, s, o, log, base, conn);
    case _ => SendGap(sid, s, o, log, base, conn);
  }

  lemma SentGap(w: World, c: nat, sid: SessionId)
    requires WorldOk(w) && SidGap(w, sid) && c in w.conns && w.conns[c].target == Some(sid)
    requires var conn := w.conns[c];
             || conn.phase.Readying? || conn.phase.Resuming? || conn.phase.Appended?
             || (conn.phase.Replaying? && conn.phase.next < |conn.phase.events|)
    ensures w.conns[c].phase.Readying? || w.conns[c].phase.Resuming? ==> w.conns[c].activeSessionId.Some?
    ensures SidGap(SetConn(w, c, Push(w.conns[c], NextFrame(w.conns[c]).0, NextFrame(w.conns[c]).1)), sid)
  {
    var t := CurrentLine(w, c);
    var conn := w.conns[c];
    assert ConnOk(conn);
    SendAnyGap(sid, w.store.sessions[sid], w.origins[sid], LogOf(w.store, sid), Base(w.received[sid], conn), conn);
    MoveGap(w, c, sid, w.store, Push(conn, NextFrame(conn).0, NextFrame(conn).1));
  }

  lemma SendingGap(w: World, s: Step, sid: SessionId)
    requires s.SendReady? || s.SendReplay? || s.SendResumed? || s.SendLive?
    requires WorldOk(w) && Enabled(w, s) && SidGap(w, sid) && w.conns[s.c].target == Some(sid)
    ensures SidGap(Apply(w, s), sid)
  {
    if s.ok {
      SentGap(w, s.c, sid);
      SendShape(w, s);
    } else {
      ClosingGap(w, s.c, sid);
    }
  }

  lemma ListingGap(w: World, c: nat, sid: SessionId)
    requires WorldOk(w) && Enabled(w, ListReplay(c)) && SidGap(w, sid) && w.conns[c].target == Some(sid)
    ensures SidGap(Apply(w, ListReplay(c)), sid)
  {
    var t := CurrentLine(w, c);
    var conn' := Apply(w, ListReplay(c)).conns[c];
    ListGap(w.store.sessions[sid], LogOf(w.store, sid), Base(w.received[sid], w.conns[c]), w.conns[c], conn');
    MoveGap(w, c, sid, w.store, conn');
  }

  lemma FinishedConn(w: World, c: nat, sid: SessionId, s: Session)
    requires c in w.conns && w.conns[c].phase.Replaying? && w.conns[c].phase.snapshot == s && s.sessionId == sid
    requires sid in w.store.sessions && w.store.sessions[sid] == s
    ensures c in DoFinishReplay(w, c).conns
    ensures var conn, conn', n := w.conns[c], DoFinishReplay(w, c).conns[c], ResumeSequence(s, w.conns[c].phase.events);
            && conn'.sent == conn.sent && conn'.skipped == conn.skipped && conn'.phase.Resuming? && conn'.sequence == n
            && conn'.target == conn.target && conn'.delivered == conn.delivered
            && DoFinishReplay(w, c) == SetConn(w, c, conn').(store := UpdateSequence(w.store, sid, n))
            && LogOf(UpdateSequence(w.store, sid, n), sid) == LogOf(w.store, sid)
            && sid in UpdateSequence(w.store, sid, n).sessions
            && (n >= s.sequence ==> UpdateSequence(w.store, sid, n).sessions[sid] == s.(sequence := n))
  {
  }

  lemma FinishingGap(w: World, c: nat, sid: SessionId)
    requires WorldOk(w) && Enabled(w, FinishReplay(c)) && SidGap(w, sid) && w.conns[c].target == Some(sid)
    ensures SidGap(DoFinishReplay(w, c), sid)
  {
    var t := CurrentLine(w, c);
    var conn, s := w.conns[c], w.store.sessions[sid];
    assert ConnOk(conn) && conn.phase.snapshot == s;
    FinishedConn(w, c, sid, s);
    var conn' := DoFinishReplay(w, c).conns[c];
    FinishGap(sid, s, w.origins[sid], LogOf(w.store, sid), Base(w.received[sid], conn), conn, conn');
    MoveGap(w, c, sid, UpdateSequence(w.store, sid, conn'.sequence), conn');
  }

  lemma UpdatingGap(w: World, c: nat, sid: SessionId)
    requires WorldOk(w) && Enabled(w, UpdateLive(c)) && SidGap(w, sid) && w.conns[c].target == Some(sid)
    ensures SidGap(Apply(w, UpdateLive(c)), sid)
  {
    var t := CurrentLine(w, c);
    UpdateTouches(w.store, sid, w.conns[c].sequence);
    UpdateShape(w, c, sid);
    MoveGap(w, c, sid, UpdateSequence(w.store, sid, w.conns[c].sequence), w.conns[c].(phase := Idle));
  }

  lemma DeliverGap(s: Session, log: seq<ReplayEvent>, received: seq<Frame>, conn: Conn)
    requires GapLine(s, log, received, conn) && conn.delivered < |conn.sent|
    ensures var conn', received' := conn.(delivered := conn.delivered + 1), received + [conn.sent[conn.delivered]];
            GapLine(s, log, received', conn') && Base(received', conn') == Base(received, conn)
  {
    var conn', received' := conn.(delivered := conn.delivered + 1), received + [conn.sent[conn.delivered]];
    assert Base(received', conn') == Base(received, conn);
    assert conn.sent[..conn.delivered + 1] == conn.sent[..conn.delivered] + [conn.sent[conn.delivered]];
  }

  lemma DeliverMove(w: World, c: nat, sid: SessionId, conn: Conn, fs: seq<Frame>)
    requires SidGap(w, sid) && sid in w.store.sessions && w.current[sid] == c
    requires conn.target == Some(sid) && conn.skipped == w.conns[c].skipped && w.conns[c].target == Some(sid)
    requires GapLine(w.store.sessions[sid], LogOf(w.store, sid), fs, conn) && Base(fs, conn) == Base(w.received[sid], w.conns[c])
    ensures SidGap(SetConn(w, c, conn).(received := w.received[sid := fs]), sid)
  {
    var w' := SetConn(w, c, conn).(received := w.received[sid := fs]);
    OwnKeepsLeftBehind(w, c, sid, w.store, conn, w'.received);
    SameBaseGap(w, w', sid, Base(fs, conn));
    forall d, e | d in w'.conns && w'.conns[d].target == Some(sid) && e in w'.conns[d].skipped ensures e in LogOf(w.store, sid) {
      assert e in w.conns[d].skipped && w.conns[d].target == Some(sid);
    }
  }

  lemma DeliveringGap(w: World, c: nat, sid: SessionId)
    requires WorldOk(w) && Enabled(w, Deliver(c)) && SidGap(w, sid) && w.conns[c].target == Some(sid)
    ensures SidGap(Apply(w, Deliver(c)), sid)
  {
    assert Anchored(w, c);
    DeliverShape(w, c);
    var conn, received := w.conns[c], w.received[sid];
    DeliverGap(w.store.sessions[sid], LogOf(w.store, sid), received, conn);
    DeliverMove(w, c, sid, conn.(delivered := conn.delivered + 1), received + [conn.sent[conn.delivered]]);
  }

  /** An event just logged was not left out by any replay. */
  lemma AppendMove(w: World, c: nat, sid: SessionId, st: Store, conn: Conn, e: ReplayEvent)
    requires SidGap(w, sid) && sid in w.store.sessions && w.current[sid] == c
    requires sid in st.sessions && LogOf(st, sid) == LogOf(w.store, sid) + [e] && e !in LogOf(w.store, sid)
    requires LastSequence(Base(w.received[sid], w.conns[c])) < e.sequence
    requires conn.target == Some(sid) && conn.delivered == w.conns[c].delivered && w.conns[c].sent == conn.sent
    requires var log, base := LogOf(st, sid), Base(w.received[sid], w.conns[c]);
             GapOk(log, base, conn) && GapPhase(st.sessions[sid], log, base, conn)
    ensures SidGap(SetConn(w, c, conn).(store := st), sid)
  {
    var w' := SetConn(w, c, conn).(store := st);
    var base := Base(w.received[sid], w.conns[c]);
    OwnKeepsLeftBehind(w, c, sid, st, conn, w.received);
    forall x | x in LogOf(st, sid) ensures Missing(base, x) <==> LostBefore(w', sid, x) { SameLost(w, w', sid, x); }
    forall d, x | d in w'.conns && w'.conns[d].target == Some(sid) && x in w'.conns[d].skipped ensures x in LogOf(st, sid) {
      if d != c { assert w'.conns[d] == w.conns[d]; }
    }
  }

  lemma FrontOk(log: seq<ReplayEvent>, front: seq<Frame>, rest: seq<Frame>)
    requires FramesOk(log, front + rest)
    ensures FramesOk(log, front) && LastSequence(front) <= LastSequence(front + rest)
  {
    var fs := front + rest;
    assert forall i :: 0 <= i < |front| ==> fs[i] == front[i];
    if front != [] { assert fs[|front| - 1].Sequence() <= fs[|fs| - 1].Sequence(); }
    if fs != [] { assert fs[|fs| - 1].Sequence() > 0; }
  }

  lemma LiveGap(sid: SessionId, s: Session, o: Origin, log: seq<ReplayEvent>, base: seq<Frame>, conn: Conn, e: ReplayEvent)
    requires LineOk(sid, s, o, log, conn) && GapOk(log, base, conn) && GapPhase(s, log, base, conn) && conn.phase.Idle?
    requires e.sequence == conn.sequence + 1
    ensures var conn' := conn.(sequence := e.sequence, phase := Appended(e));
            GapOk(log + [e], base, conn') && GapPhase(s, log + [e], base, conn')
    ensures e !in log && LastSequence(base) < e.sequence
  {
    AppendGap(s, log, base, conn, conn.(sequence := e.sequence, phase := Appended(e)), e);
    FrontOk(log, base, conn.sent);
  }

  lemma AppendingGap(w: World, c: nat, event: RealtimeEvent, sid: SessionId)
    requires WorldOk(w) && Enabled(w, Live(c, event)) && SidGap(w, sid) && w.conns[c].target == Some(sid)
    requires w.conns[c].phase.Idle? && Forwarded(w.conns[c].activeIntents, event)
    ensures SidGap(DoLive(w, c, event), sid)
  {
    var t := CurrentLine(w, c);
    var conn, s, log := w.conns[c], w.store.sessions[sid], LogOf(w.store, sid);
    assert ConnOk(conn) && Active(s, conn);
    LiveShape(w, c, sid, event);
    var e := LiveEvent(conn, sid, event);
    AppendLine(sid, s, w.origins[sid], log, conn, e);
    AppendTouches(w.store, e);
    LiveGap(sid, s, w.origins[sid], log, Base(w.received[sid], conn), conn, e);
    AppendMove(w, c, sid, AppendReplayEvent(w.store, e), conn.(sequence := e.sequence, phase := Appended(e)), e);
  }

  lemma AcceptedIdentifyGap(w: World, s: Step)
    requires WorldOk(w) && Enabled(w, s) && s.Identify?
    requires IdentifyOutcomeOf(w.conns[s.c].identifiedBot.Some?, s.identify).Accept?
    ensures SidGap(Apply(w, s), s.freshId)
  {
    assert ConnOk(w.conns[s.c]);
    var w', sid := Apply(w, s), s.freshId;
    assert LogOf(w'.store, sid) == [] && w'.received[sid] == [];
    var conn := w'.conns[s.c];
    assert conn.sent == [] && conn.skipped == [];
  }

  lemma ResumeGap(s: Session, log: seq<ReplayEvent>, received: seq<Frame>, before: Conn, conn: Conn)
    requires before.phase.Closed? && GapLine(s, log, received, before)
    requires conn.sent == [] && conn.delivered == 0 && conn.skipped == []
    requires conn.phase.Listing? && conn.phase.clientSequence == LastSequence(received)
    ensures GapLine(s, log, received, conn)
  {
    var base := Base(received, before);
    assert before.sent == before.sent[..before.delivered] + before.sent[before.delivered..];
    var rest := before.sent[before.delivered..];
    assert base + before.sent == received + rest;
    FrontOk(log, received, rest);
    assert Base(received, conn) == received && received + conn.sent == received;
  }

  /** A takeover leaves one more connection behind: the one that has just ended. */
  lemma OneMoreLeft(w: World, w': World, c: nat, sid: SessionId, e: ReplayEvent)
    requires sid in w.current && w.current[sid] in w.conns && w.current[sid] != c
    requires w.conns[w.current[sid]].target == Some(sid) && c in w.conns && w.conns[c].target.None?
    requires c in w'.conns && w'.conns == w.conns[c := w'.conns[c]] && w'.current == w.current[sid := c]
    ensures LostBefore(w', sid, e) <==> LostBefore(w, sid, e) || LostOn(w.conns[w.current[sid]], e)
  {
    var c0 := w.current[sid];
    assert LeftBehind(w', sid, c0) && w'.conns[c0] == w.conns[c0];
    if LostBefore(w', sid, e) {
      var d :| LeftBehind(w', sid, d) && LostOn(w'.conns[d], e);
      assert d == c0 || LeftBehind(w, sid, d);
    }
    if LostBefore(w, sid, e) {
      var d :| LeftBehind(w, sid, d) && LostOn(w.conns[d], e);
      assert LeftBehind(w', sid, d) && w'.conns[d] == w.conns[d];
    }
  }

  /** What the client misses in a world, event by event. */
  lemma MissingIn(w: World, sid: SessionId, e: ReplayEvent)
    requires WorldOk(w) && SidGap(w, sid) && sid in w.store.sessions && e in LogOf(w.store, sid)
    ensures Missing(w.received[sid], e) <==> LostBefore(w, sid, e) || LostOn(w.conns[w.current[sid]], e)
  {
    assert SessionOk(w, sid);
    var log := LogOf(w.store, sid);
    var k :| 0 <= k < |log| && log[k] == e;
    MissingLine(w.store.sessions[sid], log, w.received[sid], w.conns[w.current[sid]], e);
  }

  lemma TakeoverGap(w: World, w': World, c: nat, sid: SessionId)
    requires WorldOk(w) && SidGap(w, sid) && sid in w.store.sessions && c in w.conns && w.conns[c].target.None?
    requires w.current[sid] != c && w.conns[w.current[sid]].target == Some(sid)
    requires c in w'.conns && w' == w.(conns := w.conns[c := w'.conns[c]], current := w.current[sid := c])
    requires w'.conns[c].skipped == [] && w'.conns[c].delivered == 0
    requires GapLine(w.store.sessions[sid], LogOf(w.store, sid), w.received[sid], w'.conns[c])
    ensures SidGap(w', sid)
  {
    var base := Base(w.received[sid], w'.conns[c]);
    assert base == w.received[sid];
    forall e | e in LogOf(w.store, sid) ensures Missing(base, e) <==> LostBefore(w', sid, e) {
      MissingIn(w, sid, e);
      OneMoreLeft(w, w', c, sid, e);
    }
    forall d, e | d in w'.conns && w'.conns[d].target == Some(sid) && e in w'.conns[d].skipped ensures e in LogOf(w.store, sid) {
      assert d != c && w'.conns[d] == w.conns[d];
    }
  }

  lemma AcceptedResumeGap(w: World, c: nat, p: ResumePayload)
    requires WorldOk(w) && Enabled(w, Resume(c, Some(p))) && ResumeAccepted(w, c, Some(p))
    requires SidGap(w, p.sessionId) && HonestStep(w, Resume(c, Some(p)), p.sessionId)
    ensures SidGap(DoResume(w, c, Some(p)), p.sessionId)
  {
    AcceptedResume(w, c, p);
    var sid := p.sessionId;
    var w' := DoResume(w, c, Some(p));
    ResumeGap(w.store.sessions[sid], LogOf(w.store, sid), w.received[sid], w.conns[w.current[sid]], w'.conns[c]);
    TakeoverGap(w, w', c, sid);
  }

  lemma IdentifyGap(w: World, s: Step, sid: SessionId)
    requires WorldOk(w) && Enabled(w, s) && SidGap(w, sid) && s.Identify?
    requires s.c in Apply(w, s).conns && Apply(w, s).conns[s.c].target == Some(sid)
    ensures SidGap(Apply(w, s), sid)
  {
    assert ConnOk(w.conns[s.c]);
    var r := IdentifyOutcomeOf(w.conns[s.c].identifiedBot.Some?, s.identify);
    if r.Accept? {
      AcceptedIdentifyGap(w, s);
    } else if r.CloseWith? {
      ClosingGap(w, s.c, sid);
    }
  }

  lemma ResumingGap(w: World, s: Step, sid: SessionId)
    requires WorldOk(w) && Enabled(w, s) && SidGap(w, sid) && s.Resume? && HonestStep(w, s, sid)
    requires s.c in Apply(w, s).conns && Apply(w, s).conns[s.c].target == Some(sid)
    ensures SidGap(Apply(w, s), sid)
  {
    assert ConnOk(w.conns[s.c]);
    if ResumeAccepted(w, s.c, s.resume) {
      AcceptedResumeGap(w, s.c, s.resume.value);
    } else {
      RefusedResume(w, s.c, s.resume);
      ClosingGap(w, s.c, sid);
    }
  }

  lemma LivingGap(w: World, s: Step, sid: SessionId)
    requires WorldOk(w) && Enabled(w, s) && SidGap(w, sid) && s.Live?
    requires s.c in Apply(w, s).conns && Apply(w, s).conns[s.c].target == Some(sid)
    ensures SidGap(Apply(w, s), sid)
  {
    assert ConnOk(w.conns[s.c]);
    if w.conns[s.c].identifiedBot.None? || !Forwarded(w.conns[s.c].activeIntents, s.event) {
      LiveWithoutBot(w, s.c, s.event);
    } else {
      AppendingGap(w, s.c, s.event, sid);
    }
  }

  lemma OwnTarget(w: World, s: Step, sid: SessionId)
    requires Enabled(w, s) && !s.Identify? && !s.Resume?
    requires s.c in Apply(w, s).conns && Apply(w, s).conns[s.c].target == Some(sid)
    ensures s.c in w.conns && w.conns[s.c].target == Some(sid)
  {
  }

  /** The steps after a session was opened. */
  lemma StepGapOpened(w: World, s: Step, sid: SessionId)
    requires WorldOk(w) && Enabled(w, s) && SidGap(w, sid) && !s.Connect? && !s.Identify? && !s.Resume?
    requires w.conns[s.c].target == Some(sid)
    ensures SidGap(Apply(w, s), sid)
  {
    TargetStays(w, s);
    match s
    case Disconnect(c) => assert ConnOk(w.conns[c]); ClosingGap(w, c, sid);
    case ListReplay(c) => ListingGap(w, c, sid);
    case FinishReplay(c) => FinishingGap(w, c, sid);
    case Live(c, event) => LivingGap(w, s, sid);
    case UpdateLive(c) => UpdatingGap(w, c, sid);
    case Deliver(c) => DeliveringGap(w, c, sid);
    case _ => SendingGap(w, s, sid);
  }

  lemma StepGapOwn(w: World, s: Step, sid: SessionId)
    requires WorldOk(w) && Enabled(w, s) && SidGap(w, sid) && HonestStep(w, s, sid)
    requires s.c in Apply(w, s).conns && Apply(w, s).conns[s.c].target == Some(sid)
    ensures SidGap(Apply(w, s), sid)
  {
    if s.Identify? {
      IdentifyGap(w, s, sid);
    } else if s.Resume? {
      ResumingGap(w, s, sid);
    } else if !s.Connect? {
      OwnTarget(w, s, sid);
      StepGapOpened(w, s, sid);
    }
  }

  lemma OnlyIdentifyCreates(w: World, s: Step, sid: SessionId)
    requires Enabled(w, s) && !s.Identify? && sid in Apply(w, s).store.sessions
    ensures sid in w.store.sessions
  {
    if s.Resume? && !ResumeAccepted(w, s.c, s.resume) { RefusedResume(w, s.c, s.resume); }
  }

  lemma NewSessionOnlyByIdentify(w: World, s: Step, sid: SessionId)
    requires Enabled(w, s) && sid !in w.store.sessions && sid in Apply(w, s).store.sessions
    ensures s.c in Apply(w, s).conns && Apply(w, s).conns[s.c].target == Some(sid)
  {
    if !s.Identify? { OnlyIdentifyCreates(w, s, sid); }
  }

  lemma {:induction false} RunGaps(steps: seq<Step>, sid: SessionId)
    requires Reach(steps).Some? && HonestRun(steps, sid)
    ensures WorldOk(Reach(steps).value) && SidGap(Reach(steps).value, sid)
  {
    RunKeeps(steps);
    if steps != [] {
      var before, s := Reach(steps[..|steps| - 1]).value, steps[|steps| - 1];
      RunGaps(steps[..|steps| - 1], sid);
      var after := Apply(before, s);
      if s.c in after.conns && after.conns[s.c].target == Some(sid) {
        StepGapOwn(before, s, sid);
      } else if sid in before.store.sessions {
        StepGapOther(before, s, sid);
      } else if sid in after.store.sessions {
        NewSessionOnlyByIdentify(before, s, sid);
      }
    }
  }

  // ---- main results ----

  /** A replay on some connection of the session was cut before the event, and its client went past it. */
  ghost predicate CutAndPassed(w: World, sid: SessionId, e: ReplayEvent) {
    exists c :: c in w.conns && w.conns[c].target == Some(sid) && LostOn(w.conns[c], e)
  }

  /**
   After any run in which the client of a session reports what it received, however long the
   backlogs are: the client has passed a logged event without receiving it if and only if a
   replay was cut before that event and a frame at or above it was then received.
   */
  lemma MissingExactly(steps: seq<Step>, sid: SessionId, e: ReplayEvent)
    requires Reach(steps).Some? && HonestRun(steps, sid) && sid in Reach(steps).value.store.sessions
    requires e in LogOf(Reach(steps).value.store, sid)
    ensures sid in Reach(steps).value.received
    ensures Missing(Reach(steps).value.received[sid], e) <==> CutAndPassed(Reach(steps).value, sid, e)
  {
    RunGaps(steps, sid);
    var w := Reach(steps).value;
    assert SessionOk(w, sid);
    MissingIn(w, sid, e);
    if LostBefore(w, sid, e) {
      var c :| LeftBehind(w, sid, c) && LostOn(w.conns[c], e);
    }
    if CutAndPassed(w, sid, e) {
      var c :| c in w.conns && w.conns[c].target == Some(sid) && LostOn(w.conns[c], e);
      assert c == w.current[sid] || LeftBehind(w, sid, c);
    }
  }

  lemma ReceivedOk(s: Session, log: seq<ReplayEvent>, received: seq<Frame>, conn: Conn)
    requires GapLine(s, log, received, conn)
    ensures FramesOk(log, received) && (conn.phase.Closed? ==> LastSequence(received) <= s.sequence)
  {
    var rest, base := conn.sent[conn.delivered..], Base(received, conn);
    assert GapOk(log, base, conn);
    ReceivedAndRest(received, conn);
    FrontOk(log, received, rest);
    if conn.phase.Closed? { assert GapPhase(s, log, base, conn); }
  }

  lemma ReceivedAndRest(received: seq<Frame>, conn: Conn)
    requires conn.delivered <= |conn.sent| && conn.delivered <= |received|
    requires received == Base(received, conn) + conn.sent[..conn.delivered]
    ensures Base(received, conn) + conn.sent == received + conn.sent[conn.delivered..]
  {
    assert conn.sent == conn.sent[..conn.delivered] + conn.sent[conn.delivered..];
  }

  /** What was received is ordered, logged and not above the stored number once the connection has ended. */
  lemma ReceivedInOrder(steps: seq<Step>, sid: SessionId)
    requires Reach(steps).Some? && HonestRun(steps, sid) && sid in Reach(steps).value.store.sessions
    ensures var w := Reach(steps).value;
            && sid in w.received && FramesOk(LogOf(w.store, sid), w.received[sid])
            && sid in w.current && w.current[sid] in w.conns
            && (w.conns[w.current[sid]].phase.Closed? ==> LastSequence(w.received[sid]) <= w.store.sessions[sid].sequence)
  {
    RunGaps(steps, sid);
    var w := Reach(steps).value;
    ReceivedOk(w.store.sessions[sid], LogOf(w.store, sid), w.received[sid], w.conns[w.current[sid]]);
  }

  /** Sessions stay, and what their clients received only grows. */
  ghost predicate Grown(w: World, w': World, sid: SessionId)
    requires sid in w.received
  {
    sid in w'.store.sessions && sid in w'.received && w.received[sid] <= w'.received[sid]
  }

  lemma IdentifyGrows(w: World, c: nat, payload: Option<IdentifyPayload>, freshId: SessionId, sid: SessionId)
    requires c in w.conns && freshId !in w.store.sessions && sid in w.store.sessions && sid in w.received
    ensures Grown(w, DoIdentify(w, c, payload, freshId), sid)
  {
  }

  lemma ResumeGrows(w: World, c: nat, payload: Option<ResumePayload>, sid: SessionId)
    requires c in w.conns && sid in w.store.sessions && sid in w.received
    ensures Grown(w, DoResume(w, c, payload), sid)
  {
    if !ResumeAccepted(w, c, payload) { RefusedResume(w, c, payload); }
  }

  lemma ReceivedGrows(w: World, s: Step, sid: SessionId)
    requires Enabled(w, s) && sid in w.store.sessions && sid in w.received
    ensures Grown(w, Apply(w, s), sid)
  {
    match s
    case Identify(c, payload, freshId) => IdentifyGrows(w, c, payload, freshId, sid);
    case Resume(c, payload) => ResumeGrows(w, c, payload, sid);
    case _ =>
  }

  /** What an honest client has passed it never receives. */
  lemma {:induction false} MissingForever(steps: seq<Step>, more: seq<Step>, sid: SessionId, e: ReplayEvent)
    requires Reach(steps).Some? && sid in Reach(steps).value.store.sessions && sid in Reach(steps).value.received
    requires e in LogOf(Reach(steps).value.store, sid) && Missing(Reach(steps).value.received[sid], e)
    requires Reach(steps + more).Some? && HonestRun(steps + more, sid)
    ensures var w := Reach(steps + more).value;
            && sid in w.store.sessions && e in LogOf(w.store, sid)
            && sid in w.received && Reach(steps).value.received[sid] <= w.received[sid] && Missing(w.received[sid], e)
  {
    if more == [] {
      assert steps + more == steps;
    } else {
      var init, s := more[..|more| - 1], more[|more| - 1];
      assert (steps + more)[..|steps + more| - 1] == steps + init && (steps + more)[|steps + more| - 1] == s;
      MissingForever(steps, init, sid, e);
      RunKeeps(steps + init);
      var w := Reach(steps + init).value;
      ReceivedGrows(w, s, sid);
      LogOnlyGrows(w, s, sid);
      ReceivedInOrder(steps + more, sid);
      StillMissing(LogOf(Apply(w, s).store, sid), w.received[sid], Apply(w, s).received[sid], e);
    }
  }

  lemma StillMissing(log: seq<ReplayEvent>, fs: seq<Frame>, fs': seq<Frame>, e: ReplayEvent)
    requires fs <= fs' && FramesOk(log, fs') && Missing(fs, e)
    ensures Missing(fs', e)
  {
    FrontOk(log, fs, fs'[|fs|..]);
    assert fs' == fs + fs'[|fs|..];
    BaseBelow(fs, fs'[|fs|..]);
  }

  /** At each resume the events logged above the reported number fit into one replay. */
  ghost predicate ShortBacklogs(steps: seq<Step>, sid: SessionId)
    requires Reach(steps).Some?
  {
    steps != [] ==>
      var before, s := Reach(steps[..|steps| - 1]).value, steps[|steps| - 1];
      && ShortBacklogs(steps[..|steps| - 1], sid)
      && (s.ListReplay? && before.conns[s.c].phase.snapshot.sessionId == sid ==>
            |After(LogOf(before.store, sid), before.conns[s.c].phase.clientSequence)| <= 100)
  }

  ghost predicate NothingSkipped(w: World, sid: SessionId) {
    forall c :: c in w.conns && w.conns[c].target == Some(sid) ==> w.conns[c].skipped == []
  }

  lemma IdentifySkips(w: World, c: nat, payload: Option<IdentifyPayload>, freshId: SessionId)
    requires c in w.conns
    ensures c in DoIdentify(w, c, payload, freshId).conns && DoIdentify(w, c, payload, freshId).conns[c].skipped == w.conns[c].skipped
  {
  }

  lemma ResumeSkips(w: World, c: nat, payload: Option<ResumePayload>)
    requires c in w.conns
    ensures c in DoResume(w, c, payload).conns && DoResume(w, c, payload).conns[c].skipped == w.conns[c].skipped
  {
    if !ResumeAccepted(w, c, payload) { RefusedResume(w, c, payload); }
  }

  lemma SkippedStays(w: World, s: Step)
    requires Enabled(w, s) && !s.Connect? && !s.ListReplay?
    ensures s.c in Apply(w, s).conns && Apply(w, s).conns[s.c].skipped == w.conns[s.c].skipped
  {
    match s
    case Identify(c, payload, freshId) => IdentifySkips(w, c, payload, freshId);
    case Resume(c, payload) => ResumeSkips(w, c, payload);
    case _ =>
  }

  lemma {:induction false} ShortMeansNothingSkipped(steps: seq<Step>, sid: SessionId)
    requires Reach(steps).Some? && ShortBacklogs(steps, sid)
    ensures NothingSkipped(Reach(steps).value, sid)
  {
    if steps != [] {
      var before, s := Reach(steps[..|steps| - 1]).value, steps[|steps| - 1];
      ShortMeansNothingSkipped(steps[..|steps| - 1], sid);
      RunKeeps(steps[..|steps| - 1]);
      StepScope(before, s);
      if !s.Connect? {
        assert ConnOk(before.conns[s.c]);
        if !s.ListReplay? {
          SkippedStays(before, s);
          if s.Identify? || s.Resume? { EntryTarget(before, s); } else { TargetStays(before, s); }
        }
      }
    }
  }

  /** A frame that opens a session comes on a connection that had none. */
  lemma EntryTarget(w: World, s: Step)
    requires WorldOk(w) && Enabled(w, s) && (s.Identify? || s.Resume?)
    ensures s.c in Apply(w, s).conns
    ensures Apply(w, s).conns[s.c].target == w.conns[s.c].target || w.conns[s.c].skipped == []
  {
    assert ConnOk(w.conns[s.c]);
  }

  /** Without cuts, what was received is well-formed without gaps. */
  lemma ReceivedStream(steps: seq<Step>, sid: SessionId)
    requires Reach(steps).Some? && HonestRun(steps, sid) && ShortBacklogs(steps, sid)
    requires sid in Reach(steps).value.store.sessions
    ensures sid in Reach(steps).value.received
    ensures StreamOk(LogOf(Reach(steps).value.store, sid), Reach(steps).value.received[sid])
  {
    ReceivedInOrder(steps, sid);
    ShortMeansNothingSkipped(steps, sid);
    var log := LogOf(Reach(steps).value.store, sid);
    forall i | 0 <= i < |log| && log[i].sequence <= LastSequence(Reach(steps).value.received[sid])
      ensures DispatchFrame(log[i]) in Reach(steps).value.received[sid]
    {
      MissingExactly(steps, sid, log[i]);
    }
  }

  /**
   After any run in which the client of a session is honest and its backlog fits into one
   replay at each resume, what it has received is, in order and without repetition, exactly
   the log up to the last number it received.
   */
  lemma ReplayComplete(steps: seq<Step>, sid: SessionId)
    requires Reach(steps).Some? && HonestRun(steps, sid) && ShortBacklogs(steps, sid)
    requires sid in Reach(steps).value.store.sessions
    ensures sid in Reach(steps).value.received
    ensures Complete(LogOf(Reach(steps).value.store, sid), Reach(steps).value.received[sid])
  {
    ReceivedStream(steps, sid);
    RunKeeps(steps);
    assert SessionOk(Reach(steps).value, sid);
    StreamComplete(LogOf(Reach(steps).value.store, sid), Reach(steps).value.received[sid]);
  }

  /** An honest client is never refused: once its connection has ended, its bot can resume. */
  lemma HonestResumeAccepted(steps: seq<Step>, sid: SessionId, bot: Bot)
    requires Reach(steps).Some? && HonestRun(steps, sid) && sid in Reach(steps).value.store.sessions
    requires Reach(steps).value.store.sessions[sid].OwnedBy(bot)
    requires var w := Reach(steps).value;
             sid in w.current && w.current[sid] in w.conns && w.conns[w.current[sid]].phase.Closed?
    ensures sid in Reach(steps).value.received
    ensures ResumeSession(Reach(steps).value.store, sid, bot, LastSequence(Reach(steps).value.received[sid])).1.Resumed?
  {
    ReceivedInOrder(steps, sid);
  }
}
