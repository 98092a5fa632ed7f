/**
 The number that RESUMED takes, and when it is not a fresh one: a replay that was cut can leave
 out the very event whose number RESUMED then carries.
 */
module GatewayNumbers {
  import opened Outcomes
  import opened Lists
  import opened GatewayStore
  import opened GatewayProtocol
  import opened GatewayCompleteness
  import opened GatewayLimit

  lemma {:induction false} LastOfAfter(log: seq<ReplayEvent>, n: int)
    requires log != [] && log[|log| - 1].sequence > n
    ensures After(log, n) != [] && After(log, n)[|After(log, n)| - 1] == log[|log| - 1]
  {
    if |log| > 1 { LastOfAfter(log[1..], n); }
  }

  /** An event with the number that RESUMED takes after the given events were replayed. */
  ghost predicate Taken(s: Session, log: seq<ReplayEvent>, events: seq<ReplayEvent>) {
    exists e :: e in log && e.sequence == ResumeSequence(s, events)
  }

  /** The last event was logged and its number never stored, and the backlog is longer than a replay. */
  predicate LastIsCut(s: Session, log: seq<ReplayEvent>, n: int) {
    log != [] && log[|log| - 1].sequence == s.sequence + 1 && |After(log, n)| > 100
  }

  lemma CutTakesNumber(s: Session, log: seq<ReplayEvent>, n: int)
    requires StrictlyIncreasing(log) && LastIsCut(s, log, n)
    ensures var last := log[|log| - 1];
            && last in Drop(After(log, n), GATEWAY_REPLAY_LIMIT)
            && ResumeSequence(s, Take(After(log, n), GATEWAY_REPLAY_LIMIT)) == last.sequence
  {
    AfterMembers(log, n);
    var all, last := After(log, n), log[|log| - 1];
    assert all[0] in all;
    LastOfAfter(log, n);
    var rest := Drop(all, GATEWAY_REPLAY_LIMIT);
    assert rest[|rest| - 1] == last;
    assert all[GATEWAY_REPLAY_LIMIT - 1].sequence < all[|all| - 1].sequence;
  }

  /** The event whose number is taken is not among the frames of the resume. */
  lemma CutNotSent(s: Session, log: seq<ReplayEvent>, n: int)
    requires StrictlyIncreasing(log) && LastIsCut(s, log, n)
    ensures DispatchFrame(log[|log| - 1]) !in ResumeFrames(s, log, n)
  {
    CutTakesNumber(s, log, n);
    AfterMembers(log, n);
    var events, last := Take(After(log, n), GATEWAY_REPLAY_LIMIT), log[|log| - 1];
    forall i | 0 <= i < |events| ensures events[i] != last { CutOrder(After(log, n), GATEWAY_REPLAY_LIMIT, last, i); }
  }

  lemma AtMostLast(log: seq<ReplayEvent>, e: ReplayEvent)
    requires StrictlyIncreasing(log) && e in log
    ensures e.sequence <= log[|log| - 1].sequence
  {
    var i :| 0 <= i < |log| && log[i] == e;
  }

  /** A replay that is not cut ends with the last event, and RESUMED goes above it. */
  lemma UncutIsFresh(s: Session, log: seq<ReplayEvent>, n: int)
    requires StrictlyIncreasing(log) && n <= s.sequence && |After(log, n)| <= GATEWAY_REPLAY_LIMIT
    ensures !Taken(s, log, Take(After(log, n), GATEWAY_REPLAY_LIMIT))
  {
    forall e | e in log ensures e.sequence < ResumeSequence(s, After(log, n)) {
      AtMostLast(log, e);
      if log[|log| - 1].sequence > n { LastOfAfter(log, n); }
    }
  }

  /** In a log at most one ahead of the stored number, the number is taken exactly when the last event is cut. */
  lemma TakenIff(s: Session, log: seq<ReplayEvent>, n: int)
    requires StrictlyIncreasing(log) && AllBelow(log, s.sequence + 2) && n <= s.sequence
    ensures Taken(s, log, Take(After(log, n), GATEWAY_REPLAY_LIMIT)) <==> LastIsCut(s, log, n)
  {
    if LastIsCut(s, log, n) {
      CutTakesNumber(s, log, n);
      assert log[|log| - 1] in log;
    } else if |After(log, n)| <= GATEWAY_REPLAY_LIMIT {
      UncutIsFresh(s, log, n);
    } else {
      forall e | e in log ensures e.sequence <= s.sequence { AtMostLast(log, e); }
    }
  }

  // ---- on the machine ----

  /** RESUMED is the last frame of a resume whose sends all go through. */
  lemma LastFrame(s: Session, log: seq<ReplayEvent>, n: int)
    ensures var frames, events := ResumeFrames(s, log, n), Take(After(log, n), GATEWAY_REPLAY_LIMIT);
            |frames| == |events| + 1 && frames[|events|] == ResumedFrame(ResumeSequence(s, events), s.sessionId)
  {
  }

  /**
   The resume has gone through, the log is as it was, and RESUMED carries the number of a logged
   event if and only if the last event was cut: then it is the number of that event, which is
   not sent.
   */
  ghost predicate ResumedUnder(run: Option<World>, c: nat, sid: SessionId, log: seq<ReplayEvent>, cut: bool) {
    && run.Some? && c in run.value.conns && LogOf(run.value.store, sid) == log
    && var sent := run.value.conns[c].sent;
       && sent != [] && sent[|sent| - 1].ResumedFrame?
       && ((exists e :: e in log && e.sequence == sent[|sent| - 1].number) <==> cut)
       && (cut ==>
             && log != [] && sent[|sent| - 1] == ResumedFrame(log[|log| - 1].sequence, sid)
             && DispatchFrame(log[|log| - 1]) !in sent)
  }

  /**
   From any reached world, whatever was reported before: resume a session and let every send
   through. RESUMED carries the number of a logged event if and only if the last event was
   logged and its number never stored, and the backlog is longer than a replay.
   */
  lemma ReusedNumberIff(steps: seq<Step>, c: nat, p: ResumePayload)
    requires Reach(steps).Some? && Enabled(Reach(steps).value, Resume(c, Some(p)))
    requires ResumeAccepted(Reach(steps).value, c, Some(p))
    ensures var w, sid := Reach(steps).value, p.sessionId;
            && sid in w.store.sessions
            && ResumedUnder(Reach(steps + ResumeSteps(w, c, p)), c, sid, LogOf(w.store, sid),
                            LastIsCut(w.store.sessions[sid], LogOf(w.store, sid), ClientSequence(p)))
  {
    var w, sid, n := Reach(steps).value, p.sessionId, ClientSequence(p);
    RunKeeps(steps);
    AcceptedResume(w, c, p);
    ReachResume(steps, c, p);
    var s, log := w.store.sessions[sid], LogOf(w.store, sid);
    LastFrame(s, log, n);
    TakenIff(s, log, n);
    if LastIsCut(s, log, n) {
      CutTakesNumber(s, log, n);
      CutNotSent(s, log, n);
    }
  }

  // ---- a run in which the number is taken ----

  /** A client that receives READY and loses the next `m` messages, with one more logged and not sent. */
  function UnsentSteps(m: nat): seq<Step> {
    Opening() + LiveSteps(m) + [Live(0, EVENT)] + [SendLive(0, false)] + [Connect(1)]
  }

  function UnsentWorld(m: nat): World {
    LoggedWorld(m).(conns := map[0 := BusyConn(m).(sequence := m + 2, phase := Closed), 1 := NewConn])
  }

  function FailedWorld(m: nat): World {
    LoggedWorld(m).(conns := map[0 := BusyConn(m).(sequence := m + 2, phase := Closed)])
  }

  lemma FailedSend(m: nat)
    ensures Enabled(LoggedWorld(m), SendLive(0, false)) && Apply(LoggedWorld(m), SendLive(0, false)) == FailedWorld(m)
  {
  }

  lemma UnsentReached(m: nat)
    ensures Reach(UnsentSteps(m)) == Some(UnsentWorld(m))
  {
    BusyReached(m);
    var steps, w := Opening() + LiveSteps(m), FailedWorld(m);
    BusyLive(m);
    ReachStep(steps, Live(0, EVENT), BusyWorld(m), LoggedWorld(m));
    FailedSend(m);
    ReachStep(steps + [Live(0, EVENT)], SendLive(0, false), LoggedWorld(m), w);
    ReachStep(steps + [Live(0, EVENT)] + [SendLive(0, false)], Connect(1), w, UnsentWorld(m));
  }

  lemma UnsentCanResume(m: nat)
    ensures Enabled(UnsentWorld(m), Resume(1, Some(AGAIN))) && ResumeAccepted(UnsentWorld(m), 1, Some(AGAIN))
    ensures ClientSequence(AGAIN) == 1 && LogOf(UnsentWorld(m).store, 0) == BusyLog(m + 1)
    ensures 0 in UnsentWorld(m).store.sessions && UnsentWorld(m).store.sessions[0].sequence == m + 1
  {
  }

  lemma UnsentIsCut(m: nat)
    ensures LastIsCut(UnsentWorld(m).store.sessions[0], BusyLog(m + 1), 1) <==> m >= GATEWAY_REPLAY_LIMIT
  {
    UnsentCanResume(m);
    AfterAll(BusyLog(m + 1), 1);
  }

  /** For every `m` such a run is reached, and the resume after it takes the number of the unsent event from the limit on. */
  lemma EveryUnsent(m: nat)
    ensures Reach(UnsentSteps(m)) == Some(UnsentWorld(m))
    ensures BusyLog(m + 1)[m] == ReplayEvent(0, m + 2, MessageCreate, 0)
    ensures ResumedUnder(Reach(UnsentSteps(m) + ResumeSteps(UnsentWorld(m), 1, AGAIN)), 1, 0, BusyLog(m + 1), m >= 100)
  {
    UnsentReached(m);
    UnsentCanResume(m);
    UnsentIsCut(m);
    ReusedNumberIff(UnsentSteps(m), 1, AGAIN);
  }
}
