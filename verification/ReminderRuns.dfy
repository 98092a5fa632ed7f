/**
 The reminder worker beside everything else that changes meetings. A run lists its jobs, then
 delivers and marks them one by one; meetings are added, cancelled and reinstated at any moment
 in between. There is one worker, which starts a run when the one before has ended.
 */
module ReminderRuns {
  import opened Outcomes
  import opened Lists
  import opened Reminders
  import T = Text

  datatype Step =
    | Add(reminder: Reminder)
    | SetMeeting(meetingId: nat, isScheduled: bool)
    | List(dueAt: string, batch: nat)
    | Deliver(ok: bool)
    | MarkDelivered

  /** A delivery, with the state of the store and the time of the listing it comes from. */
  datatype Delivery = Delivery(id: nat, listedIn: State, dueAt: string)

  datatype Job = Job(id: nat, ok: bool)

  /** The store, the deliveries made so far, the listed jobs still to deliver and the one to mark. */
  datatype World = World(state: State, log: seq<Delivery>, jobs: seq<nat>, marking: Option<Job>, listedIn: State, dueAt: string)

  const EMPTY: State := State(map[], {})

  const START: World := World(EMPTY, [], [], None, EMPTY, "")

  ghost predicate Enabled(w: World, s: Step) {
    match s
    case Add(r) => r.id !in w.state.reminders && r.status == Pending
    case SetMeeting(_, _) => true
    case List(_, _) => w.jobs == [] && w.marking.None?
    case Deliver(_) => w.jobs != [] && w.marking.None?
    case MarkDelivered => w.marking.Some?
  }

  /** Marking changes a pending reminder and leaves any other alone. */
  function MarkPending(st: State, id: nat, ok: bool): State {
    if id in st.reminders && st.reminders[id].status == Pending then Mark(st, id, ok) else st
  }

  ghost function Apply(w: World, s: Step): World
    requires Enabled(w, s)
  {
    match s
    case Add(r) => w.(state := w.state.(reminders := w.state.reminders[r.id := r]))
    case SetMeeting(m, isScheduled) =>
      w.(state := w.state.(scheduled := if isScheduled then w.state.scheduled + {m} else w.state.scheduled - {m}))
    case List(dueAt, batch) => w.(jobs := Jobs(w.state, dueAt, batch), listedIn := w.state, dueAt := dueAt)
    case Deliver(ok) =>
      w.(log := w.log + [Delivery(w.jobs[0], w.listedIn, w.dueAt)], jobs := w.jobs[1..], marking := Some(Job(w.jobs[0], ok)))
    case MarkDelivered => w.(state := MarkPending(w.state, w.marking.value.id, w.marking.value.ok), marking := None)
  }

  ghost function Play(w: World, steps: seq<Step>): Option<World> {
    if steps == [] then Some(w)
    else
      var before := Play(w, steps[..|steps| - 1]);
      if before.Some? && Enabled(before.value, steps[|steps| - 1]) then Some(Apply(before.value, steps[|steps| - 1])) else None
  }

  // ---- what every step keeps ----

  ghost predicate Delivered(log: seq<Delivery>, id: nat) {
    exists i :: 0 <= i < |log| && log[i].id == id
  }

  ghost predicate NoneTwice(log: seq<Delivery>) {
    forall i, j :: 0 <= i < j < |log| ==> log[i].id != log[j].id
  }

  ghost predicate BeingMarked(w: World, id: nat) {
    w.marking.Some? && w.marking.value.id == id
  }

  ghost predicate IsPending(st: State, id: nat) {
    id in st.reminders && st.reminders[id].status == Pending
  }

  ghost predicate WorldOk(w: World) {
    && NoneTwice(w.log)
    && (forall i :: 0 <= i < |w.log| ==> Due(w.log[i].listedIn, w.log[i].id, w.log[i].dueAt))
    && (forall id :: Delivered(w.log, id) <==> id in w.state.reminders && (!IsPending(w.state, id) || BeingMarked(w, id)))
    && (w.marking.Some? ==> IsPending(w.state, w.marking.value.id))
    && Distinct(w.jobs)
    && (forall i :: 0 <= i < |w.jobs| ==> JobOk(w, w.jobs[i]))
  }

  /** A listed job is still pending, and was due when it was listed. */
  ghost predicate JobOk(w: World, id: nat) {
    IsPending(w.state, id) && !BeingMarked(w, id) && Due(w.listedIn, id, w.dueAt)
  }

  lemma JobsAreDue(st: State, dueAt: string, batch: nat)
    ensures var jobs := Jobs(st, dueAt, batch);
            Distinct(jobs) && forall i :: 0 <= i < |jobs| ==> Due(st, jobs[i], dueAt)
  {
    var l := DueList(st, dueAt);
    DueListIs(st, dueAt);
    InOrderDistinct(st.reminders, l);
    TakeMembers(l, batch);
  }

  lemma DeliveredPush(log: seq<Delivery>, d: Delivery, id: nat)
    ensures Delivered(log + [d], id) <==> Delivered(log, id) || d.id == id
  {
    var more := log + [d];
    assert more[|log|] == d && forall i :: 0 <= i < |log| ==> more[i] == log[i];
  }

  lemma DeliverKeeps(w: World, ok: bool)
    requires WorldOk(w) && Enabled(w, Deliver(ok))
    ensures WorldOk(Apply(w, Deliver(ok)))
  {
    var id, d, w' := w.jobs[0], Delivery(w.jobs[0], w.listedIn, w.dueAt), Apply(w, Deliver(ok));
    assert JobOk(w, w.jobs[0]);
    forall x ensures Delivered(w'.log, x) <==> x in w'.state.reminders && (!IsPending(w'.state, x) || BeingMarked(w', x)) {
      DeliveredPush(w.log, d, x);
    }
    assert !Delivered(w.log, id);
    forall i | 0 <= i < |w'.jobs| ensures JobOk(w', w'.jobs[i]) { assert JobOk(w, w.jobs[i + 1]); }
  }

  lemma MarkKeeps(w: World)
    requires WorldOk(w) && Enabled(w, MarkDelivered)
    ensures WorldOk(Apply(w, MarkDelivered))
  {
    var w' := Apply(w, MarkDelivered);
    forall i | 0 <= i < |w'.jobs| ensures JobOk(w', w'.jobs[i]) { assert JobOk(w, w.jobs[i]); }
  }

  lemma OthersKeep(w: World, s: Step)
    requires WorldOk(w) && Enabled(w, s) && !s.Deliver? && !s.MarkDelivered?
    ensures WorldOk(Apply(w, s))
  {
    var w' := Apply(w, s);
    if s.List? {
      JobsAreDue(w.state, s.dueAt, s.batch);
    } else {
      forall i | 0 <= i < |w'.jobs| ensures JobOk(w', w'.jobs[i]) { assert JobOk(w, w.jobs[i]); }
    }
  }

  lemma StepKeeps(w: World, s: Step)
    requires WorldOk(w) && Enabled(w, s)
    ensures WorldOk(Apply(w, s))
  {
    match s
    case Deliver(ok) => DeliverKeeps(w, ok);
    case MarkDelivered => MarkKeeps(w);
    case _ => OthersKeep(w, s);
  }

  lemma {:induction false} RunKeeps(steps: seq<Step>)
    requires Play(START, steps).Some?
    ensures WorldOk(Play(START, steps).value)
  {
    if steps != [] {
      RunKeeps(steps[..|steps| - 1]);
      StepKeeps(Play(START, steps[..|steps| - 1]).value, steps[|steps| - 1]);
    }
  }

  /**
   Over any series of listings, deliveries, marks, additions, cancellations and reinstatements
   no reminder is delivered twice; each one delivered was due, its meeting still scheduled, when
   it was listed; a mark always finds its reminder pending; and the reminders that are no longer
   pending are exactly the delivered ones, apart from the one about to be marked.
   */
  lemma DeliveredAtMostOnce(steps: seq<Step>)
    requires Play(START, steps).Some?
    ensures var w := Play(START, steps).value;
            && NoneTwice(w.log)
            && (forall i :: 0 <= i < |w.log| ==> Due(w.log[i].listedIn, w.log[i].id, w.log[i].dueAt))
            && (Enabled(w, MarkDelivered) ==> IsPending(w.state, w.marking.value.id))
            && (forall id :: Delivered(w.log, id) <==> id in w.state.reminders && (!IsPending(w.state, id) || BeingMarked(w, id)))
  {
    RunKeeps(steps);
  }

  // ---- a run with nothing in between ----

  function JobSteps(jobs: seq<nat>, answers: nat -> bool): seq<Step> {
    if jobs == [] then [] else JobSteps(jobs[..|jobs| - 1], answers) + [Deliver(answers(jobs[|jobs| - 1])), MarkDelivered]
  }

  function Deliveries(jobs: seq<nat>, st: State, dueAt: string): seq<Delivery> {
    seq(|jobs|, i requires 0 <= i < |jobs| => Delivery(jobs[i], st, dueAt))
  }

  lemma PlayOne(w: World, steps: seq<Step>, s: Step, x: World, y: World)
    requires Play(w, steps) == Some(x) && Enabled(x, s) && Apply(x, s) == y
    ensures Play(w, steps + [s]) == Some(y)
  {
    assert (steps + [s])[..|steps|] == steps;
  }

  ghost function During(w: World, dueAt: string, batch: nat, answers: nat -> bool, i: nat): World
    requires i <= |Jobs(w.state, dueAt, batch)|
  {
    var jobs := Jobs(w.state, dueAt, batch);
    World(MarkAll(w.state, jobs[..i], answers), w.log + Deliveries(jobs[..i], w.state, dueAt), jobs[i..], None, w.state, dueAt)
  }

  lemma {:induction false} RunSoFar(w: World, dueAt: string, batch: nat, answers: nat -> bool, i: nat)
    requires w.jobs == [] && w.marking.None? && i <= |Jobs(w.state, dueAt, batch)|
    ensures var jobs := Jobs(w.state, dueAt, batch);
            Play(w, [List(dueAt, batch)] + JobSteps(jobs[..i], answers)) == Some(During(w, dueAt, batch, answers, i))
  {
    var jobs := Jobs(w.state, dueAt, batch);
    if i == 0 {
      var list := [List(dueAt, batch)];
      assert list + JobSteps(jobs[..0], answers) == list && list[..0] == [];
      assert Play(w, list[..0]) == Some(w);
      assert w.log + Deliveries(jobs[..0], w.state, dueAt) == w.log;
    } else {
      RunSoFar(w, dueAt, batch, answers, i - 1);
      OneMoreJob(w, dueAt, batch, answers, i - 1);
      var steps, id := [List(dueAt, batch)] + JobSteps(jobs[..i - 1], answers), jobs[i - 1];
      assert jobs[..i][..i - 1] == jobs[..i - 1];
      var before := During(w, dueAt, batch, answers, i - 1);
      var between := Apply(before, Deliver(answers(id)));
      PlayOne(w, steps, Deliver(answers(id)), before, between);
      PlayOne(w, steps + [Deliver(answers(id))], MarkDelivered, between, During(w, dueAt, batch, answers, i));
      assert [List(dueAt, batch)] + JobSteps(jobs[..i], answers) == steps + [Deliver(answers(id))] + [MarkDelivered];
    }
  }

  lemma OneMoreDelivery(w: World, dueAt: string, jobs: seq<nat>, i: nat)
    requires i < |jobs|
    ensures w.log + Deliveries(jobs[..i], w.state, dueAt) + [Delivery(jobs[i], w.state, dueAt)]
            == w.log + Deliveries(jobs[..i + 1], w.state, dueAt)
  {
    assert Deliveries(jobs[..i + 1], w.state, dueAt) == Deliveries(jobs[..i], w.state, dueAt) + [Delivery(jobs[i], w.state, dueAt)];
  }

  lemma OneMoreMark(st: State, dueAt: string, batch: nat, answers: nat -> bool, i: nat)
    requires i < |Jobs(st, dueAt, batch)|
    ensures var jobs := Jobs(st, dueAt, batch);
            MarkPending(MarkAll(st, jobs[..i], answers), jobs[i], answers(jobs[i])) == MarkAll(st, jobs[..i + 1], answers)
  {
    var jobs := Jobs(st, dueAt, batch);
    JobsAreDue(st, dueAt, batch);
    MarkAllMeans(st, jobs[..i], answers);
    assert jobs[i] !in jobs[..i];
    assert jobs[..i + 1][..i] == jobs[..i];
  }

  lemma OneMoreJob(w: World, dueAt: string, batch: nat, answers: nat -> bool, i: nat)
    requires i < |Jobs(w.state, dueAt, batch)|
    ensures var id, before := Jobs(w.state, dueAt, batch)[i], During(w, dueAt, batch, answers, i);
            && Enabled(before, Deliver(answers(id)))
            && Apply(Apply(before, Deliver(answers(id))), MarkDelivered) == During(w, dueAt, batch, answers, i + 1)
  {
    var jobs := Jobs(w.state, dueAt, batch);
    OneMoreMark(w.state, dueAt, batch, answers, i);
    OneMoreDelivery(w, dueAt, jobs, i);
    assert jobs[i..][1..] == jobs[i + 1..];
  }

  /** The steps of a run with nothing in between are the run of `RunOnce`. */
  lemma RunIsSteps(w: World, dueAt: string, batch: nat, answers: nat -> bool)
    requires w.jobs == [] && w.marking.None?
    ensures var jobs := Jobs(w.state, dueAt, batch);
            Play(w, [List(dueAt, batch)] + JobSteps(jobs, answers)) ==
            Some(World(RunOnce(w.state, dueAt, batch, answers), w.log + Deliveries(jobs, w.state, dueAt), [], None, w.state, dueAt))
  {
    var jobs := Jobs(w.state, dueAt, batch);
    RunSoFar(w, dueAt, batch, answers, |jobs|);
    assert jobs[..|jobs|] == jobs && jobs[|jobs|..] == [];
  }

  // ---- a cancellation inside a run ----

  /** What became of a meeting since the last listing: its last change, if there was one. */
  function SinceListing(steps: seq<Step>, m: nat): Option<bool> {
    if steps == [] then None
    else
      match steps[|steps| - 1]
      case List(_, _) => None
      case SetMeeting(meetingId, isScheduled) =>
        if meetingId == m then Some(isScheduled) else SinceListing(steps[..|steps| - 1], m)
      case _ => SinceListing(steps[..|steps| - 1], m)
  }

  /** A meeting is as its last change since the listing left it, or as it was listed. */
  ghost predicate AsChanged(w: World, change: Option<bool>, m: nat) {
    m in w.state.scheduled <==> if change.Some? then change.value else m in w.listedIn.scheduled
  }

  /** Listed reminders are still there, for the same meetings. */
  ghost predicate SameMeetings(w: World) {
    forall id :: id in w.listedIn.reminders ==>
      id in w.state.reminders && w.state.reminders[id].meetingId == w.listedIn.reminders[id].meetingId
  }

  lemma {:induction false} MeetingsSinceListing(steps: seq<Step>, m: nat)
    requires Play(START, steps).Some?
    ensures AsChanged(Play(START, steps).value, SinceListing(steps, m), m) && SameMeetings(Play(START, steps).value)
  {
    if steps != [] { MeetingsSinceListing(steps[..|steps| - 1], m); }
  }

  /**
   In every run, exactly when a delivery goes to a meeting that is not scheduled: when the last
   change of that meeting since the listing was its cancellation.
   */
  lemma CancelledIff(steps: seq<Step>, ok: bool)
    requires Play(START, steps).Some? && Enabled(Play(START, steps).value, Deliver(ok))
    ensures var w := Play(START, steps).value;
            && w.jobs[0] in w.state.reminders
            && var m := w.state.reminders[w.jobs[0]].meetingId;
               m !in w.state.scheduled <==> SinceListing(steps, m) == Some(false)
  {
    RunKeeps(steps);
    var w := Play(START, steps).value;
    assert JobOk(w, w.jobs[0]);
    MeetingsSinceListing(steps, w.state.reminders[w.jobs[0]].meetingId);
  }

  /** The world in which one reminder of a meeting, scheduled or not, has been listed. */
  function Listed(r: Reminder, dueAt: string, scheduled: set<nat>): World {
    World(State(map[r.id := r], scheduled), [], [r.id], None, State(map[r.id := r], {r.meetingId}), dueAt)
  }

  lemma ListsOne(r: Reminder, dueAt: string)
    requires r.status == Pending && T.LessEq(r.scheduledFor, dueAt)
    ensures Jobs(State(map[r.id := r], {r.meetingId}), dueAt, 1) == [r.id]
  {
    OneDueList(State(map[r.id := r], {r.meetingId}), dueAt, [r.id]);
  }

  lemma ListedRun(r: Reminder, dueAt: string)
    requires r.status == Pending && T.LessEq(r.scheduledFor, dueAt)
    ensures Play(START, [] + [SetMeeting(r.meetingId, true)] + [Add(r)] + [List(dueAt, 1)]) == Some(Listed(r, dueAt, {r.meetingId}))
  {
    var m := r.meetingId;
    var w1 := START.(state := State(map[], {m}));
    var w2 := w1.(state := State(map[r.id := r], {m}));
    PlayOne(START, [], SetMeeting(m, true), START, w1);
    PlayOne(START, [] + [SetMeeting(m, true)], Add(r), w1, w2);
    ListsOne(r, dueAt);
    PlayOne(START, [] + [SetMeeting(m, true)] + [Add(r)], List(dueAt, 1), w2, Listed(r, dueAt, {m}));
  }

  /** A meeting cancelled after its reminder was listed is reminded of all the same. */
  lemma CancelledAfterListing(r: Reminder, dueAt: string)
    requires r.status == Pending && T.LessEq(r.scheduledFor, dueAt)
    ensures var steps := [SetMeeting(r.meetingId, true), Add(r), List(dueAt, 1), SetMeeting(r.meetingId, false), Deliver(true)];
            && Play(START, steps).Some?
            && r.meetingId !in Play(START, steps).value.state.scheduled
            && Delivered(Play(START, steps).value.log, r.id)
  {
    var m := r.meetingId;
    var s3 := [] + [SetMeeting(m, true)] + [Add(r)] + [List(dueAt, 1)];
    var w3, w4 := Listed(r, dueAt, {m}), Listed(r, dueAt, {});
    ListedRun(r, dueAt);
    assert {m} - {m} == {};
    PlayOne(START, s3, SetMeeting(m, false), w3, w4);
    PlayOne(START, s3 + [SetMeeting(m, false)], Deliver(true), w4, Apply(w4, Deliver(true)));
    assert s3 + [SetMeeting(m, false)] + [Deliver(true)]
           == [SetMeeting(m, true), Add(r), List(dueAt, 1), SetMeeting(m, false), Deliver(true)];
    assert Apply(w4, Deliver(true)).log[0].id == r.id;
  }
}
