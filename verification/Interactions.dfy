/**
 The interaction handlers as interleaved steps. A handler reads a snapshot, then writes
 through the store's guarded operations; other handlers may run in between.
 */
module Interactions {
  import opened Outcomes
  import opened InteractionStore

  datatype Message = Message(organizationId: nat, spaceId: nat, channelId: nat, authorUserId: nat, deleted: bool)

  /** How far a request has got. */
  datatype Handler =
    | CallbackRead(snapshot: Interaction)
    | CallbackSent(snapshot: Interaction, message: nat)
    | FollowupRead(snapshot: Interaction)
    | FollowupSent(snapshot: Interaction, message: nat)
    | FollowupRecorded(snapshot: Interaction, message: nat)
    | Finished

  /**
   `botUsers` gives the bot user of each application. `produced` remembers which interaction
   a message was created for and by which request, and `orphans` the callback messages whose
   final write failed.
   */
  datatype Production = Production(interaction: nat, handler: nat)

  datatype World = World(
    store: Store,
    messages: map<nat, Message>,
    botUsers: map<nat, nat>,
    handlers: map<nat, Handler>,
    produced: map<nat, Production>,
    orphans: set<nat>
  )

  datatype Step =
    | Create(interaction: Interaction)
    | StartCallback(h: nat, id: nat, token: Token)
    | Abandon(h: nat)                              // an invalid body, or a lookup that fails
    | FinishDeferral(h: nat, at: nat)
    | SendCallback(h: nat, message: nat)
    | FinishCallback(h: nat, at: nat)
    | StartFollowup(h: nat, id: nat, applicationId: nat, token: Token)
    | SendFollowup(h: nat, message: nat)
    | RecordSent(h: nat)
    | FinishFollowup(h: nat, at: nat)
    | Delete(message: nat)

  predicate Enabled(w: World, s: Step) {
    match s
    case Create(i) =>
      && i.id !in w.store.interactions && i.status == Pending && i.responseMessageId.None? && i.token.hasPrefix
      && forall id :: id in w.store.interactions ==> w.store.interactions[id].token != i.token
    case StartCallback(h, _, _) => h !in w.handlers
    case StartFollowup(h, id, _, token) =>
      h !in w.handlers && id in w.store.interactions && w.store.interactions[id].token == token
    case Abandon(h) => h in w.handlers && (w.handlers[h].CallbackRead? || w.handlers[h].FollowupRead?)
    case FinishDeferral(h, _) => h in w.handlers && w.handlers[h].CallbackRead?
    case SendCallback(h, message) =>
      && h in w.handlers && w.handlers[h].CallbackRead? && message !in w.messages && message !in w.produced
      && w.handlers[h].snapshot.applicationId in w.botUsers
    case FinishCallback(h, _) => h in w.handlers && w.handlers[h].CallbackSent?
    case SendFollowup(h, message) =>
      && h in w.handlers && w.handlers[h].FollowupRead? && message !in w.messages && message !in w.produced
      && w.handlers[h].snapshot.applicationId in w.botUsers
    case RecordSent(h) => h in w.handlers && w.handlers[h].FollowupSent?
    case FinishFollowup(h, _) => h in w.handlers && w.handlers[h].FollowupRecorded?
    case Delete(message) => message in w.messages
  }

  function MessageFor(w: World, i: Interaction): Message
    requires i.applicationId in w.botUsers
  {
    Message(i.organizationId, i.spaceId, i.channelId, w.botUsers[i.applicationId], false)
  }

  function SetHandler(w: World, h: nat, state: Handler): World {
    w.(handlers := w.handlers[h := state])
  }

  function Apply(w: World, s: Step): World
    requires Enabled(w, s)
  {
    match s
    case Create(i) => w.(store := Put(w.store, i))
    case StartCallback(h, id, token) =>
      var r := ForCallback(w.store, id, token);
      SetHandler(w, h, if r.Ok? then CallbackRead(r.value) else Finished)
    case Abandon(h) => SetHandler(w, h, Finished)
    case FinishDeferral(h, at) =>
      SetHandler(w, h, Finished).(store := MarkDeferred(w.store, w.handlers[h].snapshot.id, at).0)
    case SendCallback(h, message) =>
      var i := w.handlers[h].snapshot;
      SetHandler(w, h, CallbackSent(i, message))
        .(messages := w.messages[message := MessageFor(w, i)], produced := w.produced[message := Production(i.id, h)])
    case FinishCallback(h, at) =>
      var p := w.handlers[h];
      var (store', r) := MarkResponded(w.store, p.snapshot.id, Some(p.message), at);
      SetHandler(w, h, Finished)
        .(store := store', orphans := if r.Ok? then w.orphans else w.orphans + {p.message})
    case StartFollowup(h, id, applicationId, token) =>
      var r := if token.hasPrefix then ForFollowup(w.store.interactions[id], applicationId) else Err(Unauthorized);
      SetHandler(w, h, if r.Ok? then FollowupRead(r.value) else Finished)
    case SendFollowup(h, message) =>
      var i := w.handlers[h].snapshot;
      SetHandler(w, h, FollowupSent(i, message))
        .(messages := w.messages[message := MessageFor(w, i)], produced := w.produced[message := Production(i.id, h)])
    case RecordSent(h) =>
      var p := w.handlers[h];
      var (store', r) := RecordFollowup(w.store, p.snapshot.id, p.message);
      SetHandler(w, h, if r.Ok? then FollowupRecorded(p.snapshot, p.message) else Finished).(store := store')
    case FinishFollowup(h, at) =>
      var p := w.handlers[h];
      if p.snapshot.status == Deferred && p.snapshot.responseMessageId.None?
      then SetHandler(w, h, Finished).(store := MarkResponded(w.store, p.snapshot.id, Some(p.message), at).0)
      else SetHandler(w, h, Finished)
    case Delete(message) => w.(messages := w.messages[message := w.messages[message].(deleted := true)])
  }

  function StartWorld(botUsers: map<nat, nat>): World {
    World(Store(map[], {}), map[], botUsers, map[], map[], {})
  }

  ghost function Reach(botUsers: map<nat, nat>, steps: seq<Step>): Option<World> {
    if steps == [] then Some(StartWorld(botUsers))
    else
      var before := Reach(botUsers, steps[..|steps| - 1]);
      if before.Some? && Enabled(before.value, steps[|steps| - 1])
      then Some(Apply(before.value, steps[|steps| - 1])) else None
  }

  // ---- the status under every interleaving ----

  function Rank(s: Status): nat {
    match s case Pending => 0 case Deferred => 1 case Responded => 2
  }

  ghost predicate ResponseIffResponded(w: World) {
    StoreResponses(w.store)
  }

  /** The status never moves back and a response, once set, stays. */
  ghost predicate Forward(a: Interaction, b: Interaction) {
    && Rank(a.status) <= Rank(b.status)
    && (a.responseMessageId.Some? ==> b.responseMessageId == a.responseMessageId)
    && b.token == a.token && b.applicationId == a.applicationId && b.id == a.id
    && b.organizationId == a.organizationId && b.spaceId == a.spaceId && b.channelId == a.channelId
  }

  ghost predicate StoreForward(a: Store, b: Store) {
    && a.followups <= b.followups
    && forall id :: id in a.interactions ==> id in b.interactions && Forward(a.interactions[id], b.interactions[id])
  }

  ghost predicate StoreResponses(st: Store) {
    forall id :: id in st.interactions ==>
      (st.interactions[id].responseMessageId.Some? <==> st.interactions[id].status == Responded)
  }

  lemma DeferForward(st: Store, id: nat, at: nat)
    requires StoreResponses(st)
    ensures StoreForward(st, MarkDeferred(st, id, at).0) && StoreResponses(MarkDeferred(st, id, at).0)
  {
  }

  lemma RespondForward(st: Store, id: nat, message: nat, at: nat)
    requires StoreResponses(st)
    ensures StoreForward(st, MarkResponded(st, id, Some(message), at).0)
    ensures StoreResponses(MarkResponded(st, id, Some(message), at).0)
  {
  }

  lemma StepForward(w: World, s: Step)
    requires Enabled(w, s) && ResponseIffResponded(w)
    ensures StoreForward(w.store, Apply(w, s).store) && ResponseIffResponded(Apply(w, s))
  {
    if s.FinishDeferral? {
      DeferForward(w.store, w.handlers[s.h].snapshot.id, s.at);
    } else if s.FinishCallback? || s.FinishFollowup? {
      RespondForward(w.store, w.handlers[s.h].snapshot.id, w.handlers[s.h].message, s.at);
    }
  }

  lemma {:induction false} RunResponse(botUsers: map<nat, nat>, steps: seq<Step>)
    requires Reach(botUsers, steps).Some?
    ensures ResponseIffResponded(Reach(botUsers, steps).value)
  {
    if steps != [] {
      RunResponse(botUsers, steps[..|steps| - 1]);
      StepForward(Reach(botUsers, steps[..|steps| - 1]).value, steps[|steps| - 1]);
    }
  }

  lemma ForwardTransitive(a: Store, b: Store, c: Store)
    requires StoreForward(a, b) && StoreForward(b, c)
    ensures StoreForward(a, c)
  {
    forall id | id in a.interactions ensures id in c.interactions && Forward(a.interactions[id], c.interactions[id]) {
      assert Forward(a.interactions[id], b.interactions[id]) && Forward(b.interactions[id], c.interactions[id]);
    }
  }

  /**
   Under every interleaving: between any two points of a run an interaction's status only
   moves forward, its response is present exactly when it is responded, and never changes.
   */
  lemma {:induction false} LifecycleForward(botUsers: map<nat, nat>, steps: seq<Step>, n: nat)
    requires Reach(botUsers, steps).Some? && n <= |steps|
    ensures Reach(botUsers, steps[..n]).Some?
    ensures var (w, w') := (Reach(botUsers, steps[..n]).value, Reach(botUsers, steps).value);
            && ResponseIffResponded(w) && ResponseIffResponded(w')
            && StoreForward(w.store, w'.store)
  {
    if n == |steps| {
      assert steps[..n] == steps;
      RunResponse(botUsers, steps);
    } else {
      var init, s := steps[..|steps| - 1], steps[|steps| - 1];
      LifecycleForward(botUsers, init, n);
      assert init[..n] == steps[..n];
      var before := Reach(botUsers, init).value;
      StepForward(before, s);
      ForwardTransitive(Reach(botUsers, steps[..n]).value.store, before.store, Reach(botUsers, steps).value.store);
    }
  }

  // ---- which route reaches a message ----

  /** The message as both edit routes check it against the interaction and its application. */
  predicate Editable(w: World, i: Interaction, message: nat) {
    && message in w.messages && !w.messages[message].deleted
    && i.applicationId in w.botUsers
    && w.messages[message] == MessageFor(w, i)
  }

  predicate OriginalRoute(w: World, id: nat, message: nat) {
    && id in w.store.interactions
    && var i := w.store.interactions[id];
       && i.token.hasPrefix && ForOriginal(i, i.applicationId).Ok?
       && i.responseMessageId == Some(message)
       && Editable(w, i, message)
  }

  predicate FollowupRoute(w: World, id: nat, message: nat) {
    && id in w.store.interactions
    && var i := w.store.interactions[id];
       && i.token.hasPrefix && ForFollowup(i, i.applicationId).Ok?
       && i.responseMessageId != Some(message)
       && (id, message) in w.store.followups
       && Editable(w, i, message)
  }

  /** The request that created the message has not written it to the store yet. */
  predicate Held(w: World, m: nat) {
    && m in w.produced && w.produced[m].handler in w.handlers
    && var p := w.handlers[w.produced[m].handler];
       (p.CallbackSent? || p.FollowupSent?) && p.message == m
  }

  ghost predicate Traces(w: World, i: Interaction) {
    i.id in w.store.interactions && Forward(i, w.store.interactions[i.id])
  }

  /** Nothing in the store refers to the message yet. */
  ghost predicate Unmarked(w: World, m: nat) {
    && m !in w.orphans
    && (forall id :: (id, m) !in w.store.followups)
    && (forall id :: id in w.store.interactions ==> w.store.interactions[id].responseMessageId != Some(m))
  }

  /** Where the snapshot of a running request stands against the store. */
  ghost predicate HandlerOk(w: World, h: nat)
    requires h in w.handlers
  {
    match w.handlers[h]
    case Finished => true
    case CallbackRead(i) => Traces(w, i)
    case CallbackSent(i, m) =>
      Traces(w, i) && m in w.produced && w.produced[m] == Production(i.id, h) && Unmarked(w, m)
    case FollowupRead(i) => Traces(w, i) && i.status != Pending
    case FollowupSent(i, m) =>
      Traces(w, i) && i.status != Pending && m in w.produced && w.produced[m] == Production(i.id, h) && Unmarked(w, m)
    case FollowupRecorded(i, m) =>
      && Traces(w, i) && i.status != Pending
      && m in w.produced && w.produced[m] == Production(i.id, h) && (i.id, m) in w.store.followups && m !in w.orphans
  }

  /** A produced message is still held, was lost, or is referred to by its own interaction. */
  ghost predicate MessageOk(w: World, m: nat)
    requires m in w.produced
  {
    var id := w.produced[m].interaction;
    && id in w.store.interactions && m in w.messages
    && w.store.interactions[id].applicationId in w.botUsers
    && w.messages[m].(deleted := false) == MessageFor(w, w.store.interactions[id])
    && (Held(w, m) || m in w.orphans || (id, m) in w.store.followups
        || w.store.interactions[id].responseMessageId == Some(m))
  }

  ghost predicate InteractionOk(w: World, id: nat)
    requires id in w.store.interactions
  {
    var i := w.store.interactions[id];
    && i.id == id && i.token.hasPrefix
    && (i.responseMessageId.Some? <==> i.status == Responded)
    && (i.responseMessageId.Some? ==>
          && i.responseMessageId.value in w.produced
          && w.produced[i.responseMessageId.value].interaction == id
          && i.responseMessageId.value !in w.orphans)
  }

  ghost predicate FollowupOk(w: World, id: nat, m: nat) {
    && m in w.produced && w.produced[m].interaction == id && m !in w.orphans
    && id in w.store.interactions && w.store.interactions[id].status != Pending
  }

  ghost predicate WorldOk(w: World) {
    && (forall id :: id in w.store.interactions ==> InteractionOk(w, id))
    && (forall id, m :: (id, m) in w.store.followups ==> FollowupOk(w, id, m))
    && (forall m :: m in w.orphans ==> m in w.produced)
    && (forall h :: h in w.handlers ==> HandlerOk(w, h))
    && (forall m :: m in w.produced ==> MessageOk(w, m))
  }

  lemma CreateKeeps(w: World, i: Interaction)
    requires WorldOk(w) && Enabled(w, Create(i))
    ensures WorldOk(Apply(w, Create(i)))
  {
    var w' := Apply(w, Create(i));
    forall id | id in w'.store.interactions ensures InteractionOk(w', id) {
      if id != i.id { assert InteractionOk(w, id); }
    }
    forall h | h in w'.handlers ensures HandlerOk(w', h) { assert HandlerOk(w, h); }
    forall m | m in w'.produced ensures MessageOk(w', m) { assert MessageOk(w, m); }
  }

  /** A step that only moves one request to a state that refers to nothing new. */
  lemma MoveKeeps(w: World, h: nat, p: Handler)
    requires WorldOk(w) && !p.CallbackSent? && !p.FollowupSent? && !p.FollowupRecorded?
    requires h in w.handlers ==> !w.handlers[h].CallbackSent? && !w.handlers[h].FollowupSent?
    requires p.CallbackRead? || p.FollowupRead? ==> Traces(w, p.snapshot)
    requires p.FollowupRead? ==> p.snapshot.status != Pending
    ensures WorldOk(SetHandler(w, h, p))
  {
    var w' := SetHandler(w, h, p);
    forall id | id in w'.store.interactions ensures InteractionOk(w', id) { assert InteractionOk(w, id); }
    forall k | k in w'.handlers ensures HandlerOk(w', k) { if k != h { assert HandlerOk(w, k); } }
    forall m | m in w'.produced ensures MessageOk(w', m) { assert MessageOk(w, m); }
  }

  /** The world after request `h` created message `m` for its snapshot. */
  function Sending(w: World, h: nat, m: nat, p: Handler): World
    requires h in w.handlers && !w.handlers[h].Finished? && w.handlers[h].snapshot.applicationId in w.botUsers
  {
    SetHandler(w, h, p).(messages := w.messages[m := MessageFor(w, w.handlers[h].snapshot)],
                         produced := w.produced[m := Production(w.handlers[h].snapshot.id, h)])
  }

  lemma SentHandler(w: World, h: nat, m: nat, p: Handler, k: nat)
    requires h in w.handlers && !w.handlers[h].Finished? && w.handlers[h].snapshot.applicationId in w.botUsers
    requires m !in w.produced && k in w.handlers && HandlerOk(w, k) && k != h
    ensures HandlerOk(Sending(w, h, m, p), k)
  {
  }

  lemma SentMessage(w: World, h: nat, m: nat, p: Handler, n: nat)
    requires h in w.handlers && !w.handlers[h].Finished? && w.handlers[h].snapshot.applicationId in w.botUsers
    requires m !in w.produced && m !in w.messages && n in w.produced && MessageOk(w, n)
    requires !w.handlers[h].CallbackSent? && !w.handlers[h].FollowupSent?
    ensures MessageOk(Sending(w, h, m, p), n)
  {
  }

  lemma SendKeeps(w: World, h: nat, m: nat, p: Handler)
    requires WorldOk(w) && h in w.handlers && (w.handlers[h].CallbackRead? || w.handlers[h].FollowupRead?)
    requires m !in w.messages && m !in w.produced && w.handlers[h].snapshot.applicationId in w.botUsers
    requires p == if w.handlers[h].CallbackRead? then CallbackSent(w.handlers[h].snapshot, m)
                  else FollowupSent(w.handlers[h].snapshot, m)
    ensures WorldOk(Sending(w, h, m, p))
  {
    var w' := Sending(w, h, m, p);
    assert HandlerOk(w, h);
    forall id | id in w'.store.interactions ensures InteractionOk(w', id) { assert InteractionOk(w, id); }
    forall id, n | (id, n) in w'.store.followups ensures FollowupOk(w', id, n) { assert FollowupOk(w, id, n); }
    assert Unmarked(w', m) by {
      forall id | id in w.store.interactions ensures w.store.interactions[id].responseMessageId != Some(m) {
        assert InteractionOk(w, id);
      }
    }
    forall k | k in w'.handlers ensures HandlerOk(w', k) { if k != h { SentHandler(w, h, m, p, k); } }
    forall n | n in w'.produced ensures MessageOk(w', n) { if n != m { SentMessage(w, h, m, p, n); } }
  }

  /** Only message `m`, created by request `h`, may be newly referred to. */
  ghost predicate MarksOnly(w: World, w': World, h: nat, m: nat) {
    && StoreForward(w.store, w'.store)
    && w'.produced == w.produced && (m in w.produced ==> w.produced[m].handler == h)
    && (forall id, n :: (id, n) in w'.store.followups ==> (id, n) in w.store.followups || n == m)
    && (forall n :: n in w'.orphans ==> n in w.orphans || n == m)
    && (forall id :: id in w'.store.interactions ==>
          && id in w.store.interactions
          && (w'.store.interactions[id].responseMessageId == w.store.interactions[id].responseMessageId
              || w'.store.interactions[id].responseMessageId == Some(m)))
  }

  lemma HandlerStays(w: World, w': World, h: nat, m: nat, k: nat)
    requires MarksOnly(w, w', h, m) && k != h && m in w.produced
    requires k in w.handlers && HandlerOk(w, k) && k in w'.handlers && w'.handlers[k] == w.handlers[k]
    ensures HandlerOk(w', k)
  {
    var p := w.handlers[k];
    if !p.Finished? {
      var i := p.snapshot;
      assert Forward(i, w.store.interactions[i.id]) && Forward(w.store.interactions[i.id], w'.store.interactions[i.id]);
    }
  }

  lemma DeferralShape(st: Store, id: nat, at: nat)
    ensures MarkDeferred(st, id, at).0 == st
            || (id in st.interactions && st.interactions[id].status == Pending
                && MarkDeferred(st, id, at).0 ==
                   st.(interactions := st.interactions[id := st.interactions[id].(status := Deferred, respondedAt := Some(at))]))
  {
  }

  /** The world after request `h` marked interaction `id` as deferred. */
  function Deferring(w: World, h: nat, id: nat, at: nat): World
    requires id in w.store.interactions
  {
    SetHandler(w, h, Finished).(store := w.store.(interactions := w.store.interactions[id :=
      w.store.interactions[id].(status := Deferred, respondedAt := Some(at))]))
  }

  lemma DeferredHandler(w: World, h: nat, id: nat, at: nat, k: nat)
    requires id in w.store.interactions && w.store.interactions[id].status == Pending
    requires k in w.handlers && HandlerOk(w, k)
    ensures HandlerOk(Deferring(w, h, id, at), k)
  {
  }

  lemma DeferralKeeps(w: World, h: nat, at: nat)
    requires WorldOk(w) && Enabled(w, FinishDeferral(h, at))
    ensures WorldOk(Apply(w, FinishDeferral(h, at)))
  {
    var id := w.handlers[h].snapshot.id;
    assert HandlerOk(w, h);
    DeferralShape(w.store, id, at);
    if MarkDeferred(w.store, id, at).0 == w.store {
      MoveKeeps(w, h, Finished);
    } else {
      var w' := Deferring(w, h, id, at);
      forall k | k in w'.store.interactions ensures InteractionOk(w', k) { assert InteractionOk(w, k); }
      forall k, n | (k, n) in w'.store.followups ensures FollowupOk(w', k, n) { assert FollowupOk(w, k, n); }
      forall k | k in w'.handlers ensures HandlerOk(w', k) { DeferredHandler(w, h, id, at, k); }
      forall n | n in w'.produced ensures MessageOk(w', n) { assert MessageOk(w, n); }
    }
  }

  /** The effect of an accepted response write. */
  lemma RespondShape(st: Store, id: nat, m: nat, at: nat)
    requires MarkResponded(st, id, Some(m), at).1.Ok?
    ensures id in st.interactions && st.interactions[id].status != Responded
    ensures MarkResponded(st, id, Some(m), at).0 == st.(interactions := st.interactions[id :=
              st.interactions[id].(status := Responded, responseMessageId := Some(m), respondedAt := Some(at))])
  {
  }

  /** The world after request `h` marked `m` as the response of interaction `id`. */
  function Responding(w: World, h: nat, id: nat, m: nat, at: nat): World
    requires id in w.store.interactions
  {
    SetHandler(w, h, Finished).(store := w.store.(interactions := w.store.interactions[id :=
      w.store.interactions[id].(status := Responded, responseMessageId := Some(m), respondedAt := Some(at))]))
  }

  lemma RespondMarks(w: World, h: nat, id: nat, m: nat, at: nat)
    requires id in w.store.interactions && w.store.interactions[id].status != Responded
    requires w.store.interactions[id].responseMessageId.None?
    requires m in w.produced && w.produced[m].handler == h
    ensures MarksOnly(w, Responding(w, h, id, m, at), h, m)
  {
  }

  lemma RespondedInteraction(w: World, h: nat, id: nat, m: nat, at: nat, k: nat)
    requires id in w.store.interactions && k in w.store.interactions && InteractionOk(w, k)
    requires m in w.produced && w.produced[m].interaction == id && m !in w.orphans
    ensures InteractionOk(Responding(w, h, id, m, at), k)
  {
  }

  lemma RespondedMessage(w: World, h: nat, id: nat, m: nat, at: nat, n: nat)
    requires id in w.store.interactions && w.store.interactions[id].responseMessageId.None?
    requires n in w.produced && MessageOk(w, n)
    requires h in w.handlers && !w.handlers[h].Finished? && (w.handlers[h].CallbackSent? ==> w.handlers[h].message == m)
    requires !w.handlers[h].FollowupSent? && m in w.produced && w.produced[m] == Production(id, h)
    ensures MessageOk(Responding(w, h, id, m, at), n)
  {
  }

  /** Marking a message that only this request refers to as the response, while that is free. */
  lemma RespondKeeps(w: World, h: nat, at: nat)
    requires WorldOk(w) && h in w.handlers && (w.handlers[h].CallbackSent? || w.handlers[h].FollowupRecorded?)
    requires MarkResponded(w.store, w.handlers[h].snapshot.id, Some(w.handlers[h].message), at).1.Ok?
    ensures var p := w.handlers[h];
            WorldOk(SetHandler(w, h, Finished).(store := MarkResponded(w.store, p.snapshot.id, Some(p.message), at).0))
  {
    var id, m := w.handlers[h].snapshot.id, w.handlers[h].message;
    RespondShape(w.store, id, m, at);
    assert HandlerOk(w, h) && InteractionOk(w, id);
    var w' := Responding(w, h, id, m, at);
    RespondMarks(w, h, id, m, at);
    forall k | k in w'.store.interactions ensures InteractionOk(w', k) { RespondedInteraction(w, h, id, m, at, k); }
    forall k, n | (k, n) in w'.store.followups ensures FollowupOk(w', k, n) { assert FollowupOk(w, k, n); }
    forall k | k in w'.handlers ensures HandlerOk(w', k) { if k != h { HandlerStays(w, w', h, m, k); } }
    forall n | n in w'.produced ensures MessageOk(w', n) { RespondedMessage(w, h, id, m, at, n); }
  }

  /** The world after the write of request `h` came too late. */
  function TooLate(w: World, h: nat): World
    requires h in w.handlers && (w.handlers[h].CallbackSent? || w.handlers[h].FollowupRecorded?)
  {
    var p := w.handlers[h];
    SetHandler(w, h, Finished).(orphans := if p.CallbackSent? then w.orphans + {p.message} else w.orphans)
  }

  lemma TooLateMessage(w: World, h: nat, n: nat)
    requires h in w.handlers && (w.handlers[h].CallbackSent? || w.handlers[h].FollowupRecorded?) && HandlerOk(w, h)
    requires n in w.produced && MessageOk(w, n)
    ensures MessageOk(TooLate(w, h), n)
  {
  }

  lemma TooLateHandler(w: World, h: nat, k: nat)
    requires h in w.handlers && (w.handlers[h].CallbackSent? || w.handlers[h].FollowupRecorded?) && HandlerOk(w, h)
    requires k in w.handlers && k != h && HandlerOk(w, k)
    ensures HandlerOk(TooLate(w, h), k)
  {
  }

  /** A callback whose write comes too late leaves its message behind. */
  lemma TooLateKeeps(w: World, h: nat)
    requires WorldOk(w) && h in w.handlers && (w.handlers[h].CallbackSent? || w.handlers[h].FollowupRecorded?)
    ensures WorldOk(TooLate(w, h))
  {
    var w' := TooLate(w, h);
    assert HandlerOk(w, h);
    forall id | id in w'.store.interactions ensures InteractionOk(w', id) { assert InteractionOk(w, id); }
    forall id, n | (id, n) in w'.store.followups ensures FollowupOk(w', id, n) { assert FollowupOk(w, id, n); }
    forall k | k in w'.handlers ensures HandlerOk(w', k) { if k != h { TooLateHandler(w, h, k); } }
    forall n | n in w'.produced ensures MessageOk(w', n) { TooLateMessage(w, h, n); }
  }

  lemma FinishMarkKeeps(w: World, s: Step)
    requires WorldOk(w) && Enabled(w, s) && (s.FinishCallback? || s.FinishFollowup?)
    ensures WorldOk(Apply(w, s))
  {
    var p := w.handlers[s.h];
    if s.FinishFollowup? && !(p.snapshot.status == Deferred && p.snapshot.responseMessageId.None?) {
      MoveKeeps(w, s.h, Finished);
    } else if MarkResponded(w.store, p.snapshot.id, Some(p.message), s.at).1.Ok? {
      RespondKeeps(w, s.h, s.at);
    } else {
      TooLateKeeps(w, s.h);
    }
  }

  lemma RecordKeeps(w: World, h: nat)
    requires WorldOk(w) && Enabled(w, RecordSent(h))
    ensures WorldOk(Apply(w, RecordSent(h)))
  {
    var w' := Apply(w, RecordSent(h));
    assert HandlerOk(w, h);
    forall id | id in w'.store.interactions ensures InteractionOk(w', id) { assert InteractionOk(w, id); }
    forall id, n | (id, n) in w'.store.followups ensures FollowupOk(w', id, n) {
      if (id, n) in w.store.followups { assert FollowupOk(w, id, n); }
    }
    forall k | k in w'.handlers ensures HandlerOk(w', k) { if k != h { HandlerStays(w, w', h, w.handlers[h].message, k); } }
    forall n | n in w'.produced ensures MessageOk(w', n) { assert MessageOk(w, n); }
  }

  lemma DeleteKeeps(w: World, m: nat)
    requires WorldOk(w) && Enabled(w, Delete(m))
    ensures WorldOk(Apply(w, Delete(m)))
  {
    var w' := Apply(w, Delete(m));
    forall id | id in w'.store.interactions ensures InteractionOk(w', id) { assert InteractionOk(w, id); }
    forall k | k in w'.handlers ensures HandlerOk(w', k) { assert HandlerOk(w, k); }
    forall n | n in w'.produced ensures MessageOk(w', n) { assert MessageOk(w, n); }
  }

  lemma StepKeeps(w: World, s: Step)
    requires WorldOk(w) && Enabled(w, s)
    ensures WorldOk(Apply(w, s))
  {
    match s
    case Create(i) => CreateKeeps(w, i);
    case StartCallback(h, id, token) =>
      var r := ForCallback(w.store, id, token);
      if r.Ok? { assert InteractionOk(w, id); }
      MoveKeeps(w, h, if r.Ok? then CallbackRead(r.value) else Finished);
    case StartFollowup(h, id, applicationId, token) =>
      var r := if token.hasPrefix then ForFollowup(w.store.interactions[id], applicationId) else Err(Unauthorized);
      assert InteractionOk(w, id);
      MoveKeeps(w, h, if r.Ok? then FollowupRead(r.value) else Finished);
    case Abandon(h) => MoveKeeps(w, h, Finished);
    case FinishDeferral(h, at) => DeferralKeeps(w, h, at);
    case SendCallback(h, m) => SendKeeps(w, h, m, CallbackSent(w.handlers[h].snapshot, m));
    case SendFollowup(h, m) => SendKeeps(w, h, m, FollowupSent(w.handlers[h].snapshot, m));
    case FinishCallback(h, at) => FinishMarkKeeps(w, s);
    case FinishFollowup(h, at) => FinishMarkKeeps(w, s);
    case RecordSent(h) => RecordKeeps(w, h);
    case Delete(m) => DeleteKeeps(w, m);
  }

  lemma {:induction false} RunKeeps(botUsers: map<nat, nat>, steps: seq<Step>)
    requires Reach(botUsers, steps).Some?
    ensures WorldOk(Reach(botUsers, steps).value)
  {
    if steps != [] {
      RunKeeps(botUsers, steps[..|steps| - 1]);
      StepKeeps(Reach(botUsers, steps[..|steps| - 1]).value, steps[|steps| - 1]);
    }
  }

  // ---- main results on routes ----

  /** The final write of the callback that sent `m` was made when the interaction already had a response. */
  ghost predicate CameTooLate(botUsers: map<nat, nat>, steps: seq<Step>, m: nat)
    requires Reach(botUsers, steps).Some?
  {
    steps != [] &&
      var before, s := Reach(botUsers, steps[..|steps| - 1]).value, steps[|steps| - 1];
      || CameTooLate(botUsers, steps[..|steps| - 1], m)
      || (s.FinishCallback? && before.handlers[s.h].message == m
          && before.handlers[s.h].snapshot.id in before.store.interactions
          && before.store.interactions[before.handlers[s.h].snapshot.id].status == Responded)
  }

  lemma OrphansAfter(w: World, s: Step, m: nat)
    requires WorldOk(w) && Enabled(w, s)
    ensures m in Apply(w, s).orphans <==>
            || m in w.orphans
            || (s.FinishCallback? && w.handlers[s.h].message == m
                && w.handlers[s.h].snapshot.id in w.store.interactions
                && w.store.interactions[w.handlers[s.h].snapshot.id].status == Responded)
  {
    if s.FinishCallback? { assert HandlerOk(w, s.h); }
  }

  lemma {:induction false} OrphansCameTooLate(botUsers: map<nat, nat>, steps: seq<Step>, m: nat)
    requires Reach(botUsers, steps).Some?
    ensures m in Reach(botUsers, steps).value.orphans <==> CameTooLate(botUsers, steps, m)
  {
    if steps != [] {
      OrphansCameTooLate(botUsers, steps[..|steps| - 1], m);
      RunKeeps(botUsers, steps[..|steps| - 1]);
      OrphansAfter(Reach(botUsers, steps[..|steps| - 1]).value, steps[|steps| - 1], m);
    }
  }

  /**
   Under every interleaving, once the request that created a message is done, the message,
   while it is not deleted, is reached by one edit route, unless it is the message of a
   callback whose final write found the interaction responded; such a message is reached by
   none. No message is ever reached by both routes.
   */
  lemma RoutesUnderInterleaving(botUsers: map<nat, nat>, steps: seq<Step>, m: nat)
    requires Reach(botUsers, steps).Some? && m in Reach(botUsers, steps).value.produced
    requires var w := Reach(botUsers, steps).value; !Held(w, m) && m in w.messages && !w.messages[m].deleted
    ensures var w := Reach(botUsers, steps).value;
            var id := w.produced[m].interaction;
            && !(OriginalRoute(w, id, m) && FollowupRoute(w, id, m))
            && (OriginalRoute(w, id, m) || FollowupRoute(w, id, m) <==> !CameTooLate(botUsers, steps, m))
            && (forall k: nat :: OriginalRoute(w, k, m) || FollowupRoute(w, k, m) ==> k == id)
  {
    RunKeeps(botUsers, steps);
    OrphansCameTooLate(botUsers, steps, m);
    RoutesIn(Reach(botUsers, steps).value, m);
  }

  lemma RoutesIn(w: World, m: nat)
    requires WorldOk(w) && m in w.produced && !Held(w, m) && m in w.messages && !w.messages[m].deleted
    ensures var id := w.produced[m].interaction;
            && !(OriginalRoute(w, id, m) && FollowupRoute(w, id, m))
            && (OriginalRoute(w, id, m) || FollowupRoute(w, id, m) <==> m !in w.orphans)
            && (forall k: nat :: OriginalRoute(w, k, m) || FollowupRoute(w, k, m) ==> k == id)
  {
    var id := w.produced[m].interaction;
    assert MessageOk(w, m) && InteractionOk(w, id);
    if (id, m) in w.store.followups { assert FollowupOk(w, id, m); }
    assert Editable(w, w.store.interactions[id], m);
    forall k: nat | OriginalRoute(w, k, m) || FollowupRoute(w, k, m) ensures k == id {
      assert InteractionOk(w, k);
      if (k, m) in w.store.followups { assert FollowupOk(w, k, m); }
    }
  }

  // ---- requests on one interaction that do not overlap ----

  predicate Busy(w: World, id: nat) {
    exists h :: h in w.handlers && !w.handlers[h].Finished? && w.handlers[h].snapshot.id == id
  }

  /** A request starts only when no other request on the same interaction is under way. */
  ghost predicate OneAtATime(botUsers: map<nat, nat>, steps: seq<Step>)
    requires Reach(botUsers, steps).Some?
  {
    steps != [] ==>
      var before, s := Reach(botUsers, steps[..|steps| - 1]).value, steps[|steps| - 1];
      && OneAtATime(botUsers, steps[..|steps| - 1])
      && (s.StartCallback? || s.StartFollowup? ==> !Busy(before, s.id))
  }

  /** The snapshot of a running request is still current, and its final write will be accepted. */
  ghost predicate Fresh(w: World, h: nat)
    requires h in w.handlers
  {
    var p := w.handlers[h];
    !p.Finished? ==>
      && p.snapshot.id in w.store.interactions && w.store.interactions[p.snapshot.id] == p.snapshot
      && (p.CallbackRead? || p.CallbackSent? ==> p.snapshot.status == Pending)
  }

  ghost predicate AllFresh(w: World) {
    && (forall h :: h in w.handlers ==> Fresh(w, h))
    && (forall h, k :: h in w.handlers && k in w.handlers && h != k
          && !w.handlers[h].Finished? && !w.handlers[k].Finished?
          ==> w.handlers[h].snapshot.id != w.handlers[k].snapshot.id)
    && w.orphans == {}
  }

  /** A final write of a request that runs alone changes no other interaction. */
  lemma OthersFresh(w: World, w': World, h: nat)
    requires AllFresh(w) && h in w.handlers && !w.handlers[h].Finished? && w'.handlers == w.handlers[h := Finished]
    requires forall id :: id in w.store.interactions && id != w.handlers[h].snapshot.id ==>
               id in w'.store.interactions && w'.store.interactions[id] == w.store.interactions[id]
    requires w'.orphans == {}
    ensures AllFresh(w')
  {
    forall k | k in w'.handlers ensures Fresh(w', k) {
      if k != h { assert Fresh(w, k); }
    }
  }

  /** The final writes of a request that runs alone. */
  lemma LastWrite(w: World, s: Step)
    requires Enabled(w, s) && AllFresh(w) && (s.FinishDeferral? || s.FinishCallback? || s.FinishFollowup?)
    ensures AllFresh(Apply(w, s))
  {
    assert Fresh(w, s.h);
    OthersFresh(w, Apply(w, s), s.h);
  }

  /** A request that starts alone reads what is stored. */
  lemma StartFresh(w: World, h: nat, id: nat, p: Handler)
    requires AllFresh(w) && !Busy(w, id) && h !in w.handlers
    requires !p.Finished? ==> p.snapshot.id == id && id in w.store.interactions && w.store.interactions[id] == p.snapshot
    requires p.CallbackRead? || p.CallbackSent? ==> p.snapshot.status == Pending
    ensures AllFresh(SetHandler(w, h, p))
  {
    var w' := SetHandler(w, h, p);
    forall k | k in w'.handlers ensures Fresh(w', k) {
      if k in w.handlers { assert Fresh(w, k); }
    }
  }

  lemma MiddleFresh(w: World, s: Step)
    requires Enabled(w, s) && AllFresh(w)
    requires s.Create? || s.Abandon? || s.SendCallback? || s.SendFollowup? || s.RecordSent? || s.Delete?
    ensures AllFresh(Apply(w, s))
  {
    var w' := Apply(w, s);
    forall h | h in w'.handlers ensures Fresh(w', h) { assert Fresh(w, h); }
  }

  lemma StepFresh(w: World, s: Step)
    requires WorldOk(w) && Enabled(w, s) && AllFresh(w)
    requires s.StartCallback? || s.StartFollowup? ==> !Busy(w, s.id)
    ensures AllFresh(Apply(w, s))
  {
    if s.FinishDeferral? || s.FinishCallback? || s.FinishFollowup? {
      LastWrite(w, s);
    } else if s.StartCallback? {
      var r := ForCallback(w.store, s.id, s.token);
      if r.Ok? { assert InteractionOk(w, s.id); }
      StartFresh(w, s.h, s.id, if r.Ok? then CallbackRead(r.value) else Finished);
    } else if s.StartFollowup? {
      var r := if s.token.hasPrefix then ForFollowup(w.store.interactions[s.id], s.applicationId) else Err(Unauthorized);
      assert InteractionOk(w, s.id);
      StartFresh(w, s.h, s.id, if r.Ok? then FollowupRead(r.value) else Finished);
    } else {
      MiddleFresh(w, s);
    }
  }

  lemma {:induction false} RunFresh(botUsers: map<nat, nat>, steps: seq<Step>)
    requires Reach(botUsers, steps).Some? && OneAtATime(botUsers, steps)
    ensures AllFresh(Reach(botUsers, steps).value)
  {
    if steps != [] {
      RunFresh(botUsers, steps[..|steps| - 1]);
      RunKeeps(botUsers, steps[..|steps| - 1]);
      StepFresh(Reach(botUsers, steps[..|steps| - 1]).value, steps[|steps| - 1]);
    }
  }

  /**
   When requests on one interaction run one at a time, every undeleted message an interaction
   produced is editable through exactly one of the two routes as soon as the request that
   created it is done, the response through the original one.
   */
  lemma MessagesPartitioned(botUsers: map<nat, nat>, steps: seq<Step>, m: nat)
    requires Reach(botUsers, steps).Some? && OneAtATime(botUsers, steps) && m in Reach(botUsers, steps).value.produced
    requires var w := Reach(botUsers, steps).value; !Held(w, m) && m in w.messages && !w.messages[m].deleted
    ensures var w := Reach(botUsers, steps).value;
            var id := w.produced[m].interaction;
            && (OriginalRoute(w, id, m) <==> !FollowupRoute(w, id, m))
            && (id in w.store.interactions && w.store.interactions[id].responseMessageId == Some(m) ==> OriginalRoute(w, id, m))
  {
    RunFresh(botUsers, steps);
    RunKeeps(botUsers, steps);
    RoutesIn(Reach(botUsers, steps).value, m);
  }

  /** A message recorded as a follow-up and set as the response is reached as the original. */
  lemma ResponseIsOriginal(w: World, id: nat, m: nat)
    requires WorldOk(w) && id in w.store.interactions && w.store.interactions[id].responseMessageId == Some(m)
    requires m in w.messages && !w.messages[m].deleted
    ensures OriginalRoute(w, id, m) && !FollowupRoute(w, id, m)
  {
    assert InteractionOk(w, id) && MessageOk(w, m);
  }

  lemma FirstFollowupWrites(w: World, h: nat, at: nat)
    requires WorldOk(w) && AllFresh(w) && h in w.handlers && w.handlers[h].FollowupRecorded?
    requires w.handlers[h].snapshot.status == Deferred
    ensures var i, m, w' := w.handlers[h].snapshot, w.handlers[h].message, Apply(w, FinishFollowup(h, at));
            && (i.id, m) in w'.store.followups
            && i.id in w'.store.interactions && w'.store.interactions[i.id].responseMessageId == Some(m)
  {
    assert HandlerOk(w, h) && Fresh(w, h) && InteractionOk(w, w.handlers[h].snapshot.id);
  }

  /**
   The first follow-up after a deferral is recorded as a follow-up and set as the response;
   from then on, whatever happens, it is both, and it is reached as the original only.
   */
  lemma FirstFollowup(botUsers: map<nat, nat>, steps: seq<Step>, h: nat, at: nat, more: seq<Step>)
    requires Reach(botUsers, steps).Some? && OneAtATime(botUsers, steps)
    requires var w := Reach(botUsers, steps).value;
             h in w.handlers && w.handlers[h].FollowupRecorded? && w.handlers[h].snapshot.status == Deferred
    requires Reach(botUsers, steps + [FinishFollowup(h, at)] + more).Some?
    ensures var p, w := Reach(botUsers, steps).value.handlers[h], Reach(botUsers, steps + [FinishFollowup(h, at)] + more).value;
            && (p.snapshot.id, p.message) in w.store.followups
            && p.snapshot.id in w.store.interactions && w.store.interactions[p.snapshot.id].responseMessageId == Some(p.message)
            && (p.message in w.messages && !w.messages[p.message].deleted ==>
                  OriginalRoute(w, p.snapshot.id, p.message) && !FollowupRoute(w, p.snapshot.id, p.message))
  {
    var all, n := steps + [FinishFollowup(h, at)] + more, |steps| + 1;
    assert all[..n] == steps + [FinishFollowup(h, at)];
    RunFresh(botUsers, steps);
    RunKeeps(botUsers, steps);
    FirstFollowupWrites(Reach(botUsers, steps).value, h, at);
    ReachSnoc(botUsers, steps, FinishFollowup(h, at));
    LifecycleForward(botUsers, all, n);
    RunKeeps(botUsers, all);
    var p, w := Reach(botUsers, steps).value.handlers[h], Reach(botUsers, all).value;
    assert Forward(Reach(botUsers, all[..n]).value.store.interactions[p.snapshot.id], w.store.interactions[p.snapshot.id]);
    if p.message in w.messages && !w.messages[p.message].deleted {
      ResponseIsOriginal(w, p.snapshot.id, p.message);
    }
  }

  // ---- two callbacks that overlap ----

  const RaceBots: map<nat, nat> := map[5 := 6]
  const RaceInteraction := Interaction(1, 5, 2, 3, 4, Token(true, 9), Pending, None, None)

  lemma ReachSnoc(botUsers: map<nat, nat>, steps: seq<Step>, s: Step)
    requires Reach(botUsers, steps).Some? && Enabled(Reach(botUsers, steps).value, s)
    ensures Reach(botUsers, steps + [s]) == Some(Apply(Reach(botUsers, steps).value, s))
  {
    assert (steps + [s])[..|steps|] == steps;
  }

  /** Both callbacks read the pending interaction, both create a message, and one of them is lost. */
  lemma OverlappingCallbacks() returns (steps: seq<Step>)
    ensures Reach(RaceBots, steps).Some?
    ensures var w := Reach(RaceBots, steps).value;
            && 11 in w.produced && w.produced[11].interaction == 1 && 11 in w.messages && !w.messages[11].deleted
            && !Held(w, 11) && !OriginalRoute(w, 1, 11) && !FollowupRoute(w, 1, 11)
  {
    var i := RaceInteraction;
    steps := [];
    ReachSnoc(RaceBots, steps, Create(i));
    steps := steps + [Create(i)];
    ReachSnoc(RaceBots, steps, StartCallback(0, 1, i.token));
    steps := steps + [StartCallback(0, 1, i.token)];
    ReachSnoc(RaceBots, steps, StartCallback(1, 1, i.token));
    steps := steps + [StartCallback(1, 1, i.token)];
    ReachSnoc(RaceBots, steps, SendCallback(0, 10));
    steps := steps + [SendCallback(0, 10)];
    ReachSnoc(RaceBots, steps, SendCallback(1, 11));
    steps := steps + [SendCallback(1, 11)];
    ReachSnoc(RaceBots, steps, FinishCallback(0, 0));
    steps := steps + [FinishCallback(0, 0)];
    ReachSnoc(RaceBots, steps, FinishCallback(1, 0));
    steps := steps + [FinishCallback(1, 0)];
  }
}
