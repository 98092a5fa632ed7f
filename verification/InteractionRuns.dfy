/**
 Requests on an interaction from beginning to end: who is let in, and what a request leaves
 behind when nothing runs in between.
 */
module InteractionRuns {
  import opened Outcomes
  import opened InteractionStore
  import opened Interactions

  // ---- who is let in ----

  /** The token of the interaction, in the form that tokens have. */
  predicate Opens(token: Token, i: Interaction) {
    token.hasPrefix && token == i.token
  }

  /** A callback needs the token; with it, the interaction must be pending. */
  lemma CallbackAnswer(st: Store, id: nat, token: Token)
    ensures var r, known := ForCallback(st, id, token), id in st.interactions && Opens(token, st.interactions[id]);
            && (r == Err(Unauthorized) <==> !known)
            && (r == Err(AlreadyResponded) <==> known && !st.interactions[id].status.Pending?)
            && (r.Ok? <==> known && st.interactions[id].status.Pending?)
            && (r.Ok? ==> r.value == st.interactions[id])
  {
  }

  /** A follow-up needs the interaction's own application; with it, the interaction must not be pending. */
  lemma FollowupAnswer(i: Interaction, applicationId: nat)
    ensures var r := ForFollowup(i, applicationId);
            && (r == Err(Unauthorized) <==> applicationId != i.applicationId)
            && (r == Err(AlreadyResponded) <==> applicationId == i.applicationId && i.status.Pending?)
            && (r.Ok? <==> applicationId == i.applicationId && !i.status.Pending?)
            && (r.Ok? ==> r.value == i)
  {
  }

  /** The original response needs the interaction's own application and a response. */
  lemma OriginalAnswer(i: Interaction, applicationId: nat)
    ensures var r := ForOriginal(i, applicationId);
            && (r == Err(Unauthorized) <==> applicationId != i.applicationId)
            && (r == Err(NotFound) <==>
                  applicationId == i.applicationId && !(i.status.Responded? && i.responseMessageId.Some?))
            && (r.Ok? <==> applicationId == i.applicationId && i.status.Responded? && i.responseMessageId.Some?)
            && (r.Ok? ==> r.value == i)
  {
  }

  /** The step starts request `h` on the interaction with its token and, for a follow-up, for its application. */
  predicate Presents(s: Step, h: nat, i: Interaction) {
    || (s.StartCallback? && s.h == h && s.id == i.id && Opens(s.token, i))
    || (s.StartFollowup? && s.h == h && s.id == i.id && Opens(s.token, i) && s.applicationId == i.applicationId)
  }

  ghost predicate Presented(steps: seq<Step>, h: nat, i: Interaction) {
    exists k :: 0 <= k < |steps| && Presents(steps[k], h, i)
  }

  ghost predicate AllPresented(w: World, steps: seq<Step>) {
    && (forall h :: h in w.handlers && !w.handlers[h].Finished? ==> Presented(steps, h, w.handlers[h].snapshot))
    && (forall m :: m in w.produced && w.produced[m].interaction in w.store.interactions ==>
          Presented(steps, w.produced[m].handler, w.store.interactions[w.produced[m].interaction]))
  }

  lemma PresentedBefore(steps: seq<Step>, s: Step, h: nat, i: Interaction, i': Interaction)
    requires Presented(steps, h, i) && i'.id == i.id && i'.token == i.token && i'.applicationId == i.applicationId
    ensures Presented(steps + [s], h, i')
  {
    var k :| 0 <= k < |steps| && Presents(steps[k], h, i);
    assert (steps + [s])[k] == steps[k];
  }

  lemma PresentedNow(steps: seq<Step>, s: Step, h: nat, i: Interaction)
    requires Presents(s, h, i)
    ensures Presented(steps + [s], h, i)
  {
    assert (steps + [s])[|steps|] == s;
  }

  /** A request that runs after a step ran before it with the same snapshot, or was started by it. */
  lemma RunningAfter(w: World, s: Step, h: nat)
    requires Enabled(w, s) && WorldOk(w) && h in Apply(w, s).handlers && !Apply(w, s).handlers[h].Finished?
    ensures Presents(s, h, Apply(w, s).handlers[h].snapshot)
            || (h in w.handlers && !w.handlers[h].Finished? && w.handlers[h].snapshot == Apply(w, s).handlers[h].snapshot)
  {
    match s
    case StartCallback(h', id, token) =>
      CallbackAnswer(w.store, id, token);
      if id in w.store.interactions { assert InteractionOk(w, id); }
    case StartFollowup(h', id, applicationId, token) =>
      FollowupAnswer(w.store.interactions[id], applicationId);
      assert InteractionOk(w, id);
    case _ =>
  }

  /** A message is produced by a request that runs, for the interaction it runs on. */
  lemma ProducedAfter(w: World, s: Step, m: nat)
    requires Enabled(w, s) && m in Apply(w, s).produced
    ensures (m in w.produced && Apply(w, s).produced[m] == w.produced[m])
            || (exists h :: h in w.handlers && !w.handlers[h].Finished?
                            && Apply(w, s).produced[m] == Production(w.handlers[h].snapshot.id, h))
  {
    if s.SendCallback? || s.SendFollowup? { assert !w.handlers[s.h].Finished?; }
  }

  lemma StoredBefore(w: World, m: nat)
    requires WorldOk(w) && m in w.produced
    ensures w.produced[m].interaction in w.store.interactions
  {
    assert MessageOk(w, m);
  }

  lemma StepPresents(w: World, steps: seq<Step>, s: Step)
    requires WorldOk(w) && ResponseIffResponded(w) && AllPresented(w, steps) && Enabled(w, s)
    ensures AllPresented(Apply(w, s), steps + [s])
  {
    var w' := Apply(w, s);
    StepForward(w, s);
    forall h | h in w'.handlers && !w'.handlers[h].Finished? ensures Presented(steps + [s], h, w'.handlers[h].snapshot) {
      var i := w'.handlers[h].snapshot;
      RunningAfter(w, s, h);
      if Presents(s, h, i) { PresentedNow(steps, s, h, i); } else { PresentedBefore(steps, s, h, i, i); }
    }
    forall m | m in w'.produced && w'.produced[m].interaction in w'.store.interactions
      ensures Presented(steps + [s], w'.produced[m].handler, w'.store.interactions[w'.produced[m].interaction])
    {
      var i' := w'.store.interactions[w'.produced[m].interaction];
      ProducedAfter(w, s, m);
      if m in w.produced && w'.produced[m] == w.produced[m] {
        StoredBefore(w, m);
        PresentedBefore(steps, s, w.produced[m].handler, w.store.interactions[w.produced[m].interaction], i');
      } else {
        var h :| h in w.handlers && !w.handlers[h].Finished? && w'.produced[m] == Production(w.handlers[h].snapshot.id, h);
        assert HandlerOk(w, h);
        PresentedBefore(steps, s, h, w.handlers[h].snapshot, i');
      }
    }
  }

  lemma {:induction false} RunPresents(botUsers: map<nat, nat>, steps: seq<Step>)
    requires Reach(botUsers, steps).Some?
    ensures AllPresented(Reach(botUsers, steps).value, steps)
  {
    if steps != [] {
      var init, s := steps[..|steps| - 1], steps[|steps| - 1];
      RunPresents(botUsers, init);
      RunKeeps(botUsers, init);
      RunResponse(botUsers, init);
      StepPresents(Reach(botUsers, init).value, init, s);
      assert init + [s] == steps;
    }
  }

  /**
   Under every interleaving: whatever message was created for an interaction, the request that
   created it had presented the token of that interaction and, for a follow-up, came from its
   application.
   */
  lemma ProducedByHolder(botUsers: map<nat, nat>, steps: seq<Step>, m: nat)
    requires Reach(botUsers, steps).Some? && m in Reach(botUsers, steps).value.produced
    ensures var w := Reach(botUsers, steps).value;
            && w.produced[m].interaction in w.store.interactions
            && Presented(steps, w.produced[m].handler, w.store.interactions[w.produced[m].interaction])
  {
    RunKeeps(botUsers, steps);
    RunPresents(botUsers, steps);
    StoredBefore(Reach(botUsers, steps).value, m);
  }

  // ---- a request with nothing in between ----

  /** A refused callback changes nothing but that the request is over. */
  lemma RefusedCallback(botUsers: map<nat, nat>, steps: seq<Step>, h: nat, id: nat, token: Token)
    requires Reach(botUsers, steps).Some? && h !in Reach(botUsers, steps).value.handlers
    requires var st := Reach(botUsers, steps).value.store;
             !(id in st.interactions && Opens(token, st.interactions[id]) && st.interactions[id].status.Pending?)
    ensures var w := Reach(botUsers, steps).value;
            Reach(botUsers, steps + [StartCallback(h, id, token)]) == Some(w.(handlers := w.handlers[h := Finished]))
  {
    CallbackAnswer(Reach(botUsers, steps).value.store, id, token);
    ReachSnoc(botUsers, steps, StartCallback(h, id, token));
  }

  /** A pending interaction that the holder of its token may answer now. */
  ghost predicate MayAnswer(botUsers: map<nat, nat>, steps: seq<Step>, h: nat, id: nat, token: Token) {
    && Reach(botUsers, steps).Some?
    && var w := Reach(botUsers, steps).value;
       && h !in w.handlers && id in w.store.interactions
       && Opens(token, w.store.interactions[id]) && w.store.interactions[id].status.Pending?
  }

  lemma CallbackStarts(botUsers: map<nat, nat>, steps: seq<Step>, h: nat, id: nat, token: Token)
    requires MayAnswer(botUsers, steps, h, id, token)
    ensures var w := Reach(botUsers, steps).value;
            && w.store.interactions[id].id == id
            && Reach(botUsers, steps + [StartCallback(h, id, token)])
               == Some(w.(handlers := w.handlers[h := CallbackRead(w.store.interactions[id])]))
  {
    RunKeeps(botUsers, steps);
    assert InteractionOk(Reach(botUsers, steps).value, id);
    CallbackAnswer(Reach(botUsers, steps).value.store, id, token);
    ReachSnoc(botUsers, steps, StartCallback(h, id, token));
  }

  /** A deferral leaves the interaction deferred, and nothing else changed. */
  lemma DeferralAlone(botUsers: map<nat, nat>, steps: seq<Step>, h: nat, id: nat, token: Token, at: nat)
    requires MayAnswer(botUsers, steps, h, id, token)
    ensures var w := Reach(botUsers, steps).value;
            var run := Reach(botUsers, steps + [StartCallback(h, id, token)] + [FinishDeferral(h, at)]);
            && run.Some?
            && run.value.store == w.store.(interactions := w.store.interactions[id :=
                 w.store.interactions[id].(status := Deferred, respondedAt := Some(at))])
            && run.value.messages == w.messages && run.value.produced == w.produced
  {
    CallbackStarts(botUsers, steps, h, id, token);
    ReachSnoc(botUsers, steps + [StartCallback(h, id, token)], FinishDeferral(h, at));
  }

  /** An answered callback leaves one new message, the response, and it is reached as the original. */
  lemma CallbackAlone(botUsers: map<nat, nat>, steps: seq<Step>, h: nat, id: nat, token: Token, m: nat, at: nat)
    requires MayAnswer(botUsers, steps, h, id, token)
    requires var w := Reach(botUsers, steps).value;
             && w.store.interactions[id].applicationId in w.botUsers && m !in w.messages && m !in w.produced
    ensures var w := Reach(botUsers, steps).value;
            var i := w.store.interactions[id];
            var run := Reach(botUsers, steps + [StartCallback(h, id, token)] + [SendCallback(h, m)] + [FinishCallback(h, at)]);
            && run.Some?
            && run.value.store == w.store.(interactions := w.store.interactions[id :=
                 i.(status := Responded, responseMessageId := Some(m), respondedAt := Some(at))])
            && run.value.messages == w.messages[m :=
                 Message(i.organizationId, i.spaceId, i.channelId, w.botUsers[i.applicationId], false)]
            && OriginalRoute(run.value, id, m)
  {
    CallbackStarts(botUsers, steps, h, id, token);
    var one := steps + [StartCallback(h, id, token)];
    ReachSnoc(botUsers, one, SendCallback(h, m));
    ReachSnoc(botUsers, one + [SendCallback(h, m)], FinishCallback(h, at));
  }

  /** An answered interaction to which the holder of its token may follow up now. */
  ghost predicate MayFollow(botUsers: map<nat, nat>, steps: seq<Step>, h: nat, id: nat, token: Token) {
    && Reach(botUsers, steps).Some?
    && var w := Reach(botUsers, steps).value;
       && h !in w.handlers && id in w.store.interactions
       && Opens(token, w.store.interactions[id]) && !w.store.interactions[id].status.Pending?
  }

  /** A follow-up from another application, or while the interaction is pending, changes nothing. */
  lemma RefusedFollowup(botUsers: map<nat, nat>, steps: seq<Step>, h: nat, id: nat, applicationId: nat, token: Token)
    requires Reach(botUsers, steps).Some? && Enabled(Reach(botUsers, steps).value, StartFollowup(h, id, applicationId, token))
    requires var i := Reach(botUsers, steps).value.store.interactions[id];
             !(Opens(token, i) && applicationId == i.applicationId && !i.status.Pending?)
    ensures var w := Reach(botUsers, steps).value;
            Reach(botUsers, steps + [StartFollowup(h, id, applicationId, token)])
            == Some(w.(handlers := w.handlers[h := Finished]))
  {
    FollowupAnswer(Reach(botUsers, steps).value.store.interactions[id], applicationId);
    ReachSnoc(botUsers, steps, StartFollowup(h, id, applicationId, token));
  }

  lemma FollowupRecords(botUsers: map<nat, nat>, steps: seq<Step>, h: nat, id: nat, token: Token, m: nat)
    requires MayFollow(botUsers, steps, h, id, token)
    requires var w := Reach(botUsers, steps).value;
             && w.store.interactions[id].applicationId in w.botUsers && m !in w.messages && m !in w.produced
    ensures var w := Reach(botUsers, steps).value;
            var i := w.store.interactions[id];
            var run := Reach(botUsers, steps + [StartFollowup(h, id, i.applicationId, token)] + [SendFollowup(h, m)] + [RecordSent(h)]);
            && run.Some? && i.id == id && (i.responseMessageId.Some? <==> i.status.Responded?)
            && h in run.value.handlers && run.value.handlers[h] == FollowupRecorded(i, m)
            && run.value.store == w.store.(followups := w.store.followups + {(id, m)})
            && run.value.messages == w.messages[m :=
                 Message(i.organizationId, i.spaceId, i.channelId, w.botUsers[i.applicationId], false)] && run.value.botUsers == w.botUsers
  {
    var w := Reach(botUsers, steps).value;
    var i := w.store.interactions[id];
    RunKeeps(botUsers, steps);
    assert InteractionOk(w, id);
    FollowupAnswer(i, i.applicationId);
    var start := StartFollowup(h, id, i.applicationId, token);
    ReachSnoc(botUsers, steps, start);
    ReachSnoc(botUsers, steps + [start], SendFollowup(h, m));
    ReachSnoc(botUsers, steps + [start] + [SendFollowup(h, m)], RecordSent(h));
  }

  /**
   A follow-up leaves one new message, recorded as a follow-up. After a deferral it becomes the
   response and is reached as the original; after a response it is reached as a follow-up.
   */
  lemma FollowupAlone(botUsers: map<nat, nat>, steps: seq<Step>, h: nat, id: nat, token: Token, m: nat, at: nat)
    requires MayFollow(botUsers, steps, h, id, token)
    requires var w := Reach(botUsers, steps).value;
             && w.store.interactions[id].applicationId in w.botUsers && m !in w.messages && m !in w.produced
    ensures var w := Reach(botUsers, steps).value;
            var i := w.store.interactions[id];
            var run := Reach(botUsers, steps + [StartFollowup(h, id, i.applicationId, token)] + [SendFollowup(h, m)]
                                             + [RecordSent(h)] + [FinishFollowup(h, at)]);
            && run.Some?
            && run.value.store.followups == w.store.followups + {(id, m)}
            && run.value.messages == w.messages[m :=
                 Message(i.organizationId, i.spaceId, i.channelId, w.botUsers[i.applicationId], false)]
            && (i.status.Deferred? ==>
                  && run.value.store.interactions == w.store.interactions[id :=
                       i.(status := Responded, responseMessageId := Some(m), respondedAt := Some(at))]
                  && OriginalRoute(run.value, id, m) && !FollowupRoute(run.value, id, m))
            && (i.status.Responded? ==>
                  && run.value.store.interactions == w.store.interactions
                  && FollowupRoute(run.value, id, m) && !OriginalRoute(run.value, id, m))
  {
    var w := Reach(botUsers, steps).value;
    var i := w.store.interactions[id];
    FollowupRecords(botUsers, steps, h, id, token, m);
    RunKeeps(botUsers, steps);
    assert InteractionOk(w, id);
    var three := steps + [StartFollowup(h, id, i.applicationId, token)] + [SendFollowup(h, m)] + [RecordSent(h)];
    ReachSnoc(botUsers, three, FinishFollowup(h, at));
  }

  // ---- the routes ----

  /**
   In every reached world, exactly which messages the two routes reach: the undeleted response of an
   interaction, and its undeleted follow-ups other than the response.
   */
  lemma RoutesExactly(botUsers: map<nat, nat>, steps: seq<Step>, id: nat, m: nat)
    requires Reach(botUsers, steps).Some?
    ensures var w := Reach(botUsers, steps).value;
            var there := id in w.store.interactions && m in w.messages && !w.messages[m].deleted;
            && (OriginalRoute(w, id, m) <==> there && w.store.interactions[id].responseMessageId == Some(m))
            && (FollowupRoute(w, id, m) <==>
                  there && (id, m) in w.store.followups && w.store.interactions[id].responseMessageId != Some(m))
  {
    RunKeeps(botUsers, steps);
    var w := Reach(botUsers, steps).value;
    if id in w.store.interactions {
      assert InteractionOk(w, id);
      FollowupAnswer(w.store.interactions[id], w.store.interactions[id].applicationId);
      OriginalAnswer(w.store.interactions[id], w.store.interactions[id].applicationId);
      if (id, m) in w.store.followups { assert FollowupOk(w, id, m); }
      if m in w.produced { assert MessageOk(w, m); }
    }
  }

  // ---- a deferral and its first follow-up ----

  lemma Alone(botUsers: map<nat, nat>, steps: seq<Step>, s: Step)
    requires Reach(botUsers, steps).Some? && Enabled(Reach(botUsers, steps).value, s) && OneAtATime(botUsers, steps)
    requires s.StartCallback? || s.StartFollowup? ==> !Busy(Reach(botUsers, steps).value, s.id)
    ensures Reach(botUsers, steps + [s]) == Some(Apply(Reach(botUsers, steps).value, s)) && OneAtATime(botUsers, steps + [s])
  {
    ReachSnoc(botUsers, steps, s);
    assert (steps + [s])[..|steps|] == steps;
  }

  /** A run in which a deferred interaction is about to get its first follow-up as its response. */
  lemma FirstFollowupReached() returns (steps: seq<Step>)
    ensures Reach(RaceBots, steps).Some? && OneAtATime(RaceBots, steps)
    ensures var w := Reach(RaceBots, steps).value;
            && 1 in w.handlers && w.handlers[1].FollowupRecorded? && w.handlers[1].message == 10
            && w.handlers[1].snapshot.id == 1 && w.handlers[1].snapshot.status == Deferred
            && 10 in w.messages && !w.messages[10].deleted
    ensures Reach(RaceBots, steps + [FinishFollowup(1, 0)]).Some?
  {
    var i := RaceInteraction;
    steps := [];
    Alone(RaceBots, steps, Create(i));
    steps := steps + [Create(i)];
    Alone(RaceBots, steps, StartCallback(0, 1, i.token));
    steps := steps + [StartCallback(0, 1, i.token)];
    Alone(RaceBots, steps, FinishDeferral(0, 0));
    steps := steps + [FinishDeferral(0, 0)];
    Alone(RaceBots, steps, StartFollowup(1, 1, 5, i.token));
    steps := steps + [StartFollowup(1, 1, 5, i.token)];
    Alone(RaceBots, steps, SendFollowup(1, 10));
    steps := steps + [SendFollowup(1, 10)];
    Alone(RaceBots, steps, RecordSent(1));
    steps := steps + [RecordSent(1)];
    Alone(RaceBots, steps, FinishFollowup(1, 0));
  }
}
