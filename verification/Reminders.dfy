/**
 The meeting reminder worker: each run lists the due reminders in order, at most a batch of
 them, delivers them and marks each as sent or failed.
 */
module Reminders {
  import opened Lists
  import opened Numbers
  import T = Text
  import opened Timestamps

  datatype Status = Pending | Sent | Failed

  datatype Reminder = Reminder(id: nat, meetingId: nat, scheduledFor: string, status: Status)

  /** Reminders by id, and the meetings whose status is still `scheduled`. */
  datatype State = State(reminders: map<nat, Reminder>, scheduled: set<nat>)

  predicate Due(st: State, id: nat, dueAt: string) {
    && id in st.reminders && st.reminders[id].status == Pending
    && T.LessEq(st.reminders[id].scheduledFor, dueAt)
    && st.reminders[id].meetingId in st.scheduled
  }

  function DueIds(st: State, dueAt: string): set<nat> {
    set id | id in st.reminders && Due(st, id, dueAt)
  }

  /** Reminders may be scheduled before year 0, a long offset before an early start. */
  predicate DueByText(scheduled: int, now: Instant) {
    T.LessEq(SecondsText(scheduled), FormatSeconds(now))
  }

  predicate DueByClock(scheduled: int, now: Instant) {
    scheduled / NANOS_PER_SECOND <= now / NANOS_PER_SECOND
  }

  lemma DueEarly(scheduled: Instant, now: Instant)
    requires scheduled < YEAR_10000 && now < YEAR_10000
    ensures DueByText(scheduled, now) <==> DueByClock(scheduled, now)
  {
    SecondsTextOrder(now, scheduled);
  }

  lemma DueBeforeYearZero(scheduled: int, now: Instant)
    requires scheduled < 0 && now < YEAR_10000
    ensures DueByText(scheduled, now) && DueByClock(scheduled, now)
  {
    EarlyYearsSortFirst(scheduled, now);
    T.LessIsLessEq(SecondsText(scheduled), FormatSeconds(now));
  }

  lemma DueLateByText(scheduled: Instant, now: Instant)
    requires now < YEAR_10000 <= scheduled
    ensures DueByText(scheduled, now)
  {
    LateYearsSortFirst(now, scheduled);
    T.LessIsLessEq(FormatSeconds(scheduled), FormatSeconds(now));
  }

  lemma NotDueLateByClock(scheduled: Instant, now: Instant)
    requires now < YEAR_10000 <= scheduled
    ensures !DueByClock(scheduled, now)
  {
  }

  /** A due time in text is a due time on the clock, to the second, exactly up to year 9999. */
  lemma DueExact(scheduled: int, now: Instant)
    requires now < YEAR_10000
    ensures (DueByText(scheduled, now) <==> DueByClock(scheduled, now)) <==> scheduled < YEAR_10000
  {
    if scheduled < 0 {
      DueBeforeYearZero(scheduled, now);
    } else if scheduled < YEAR_10000 {
      DueEarly(scheduled, now);
    } else {
      DueLateByText(scheduled, now);
      NotDueLateByClock(scheduled, now);
    }
  }

  /** The instant of 9999-12-31T23:30:00-01:00, a start time that meetings are created with. */
  const HALF_PAST_MIDNIGHT: Instant := YEAR_10000 + 1_800_000_000_000

  /** A reminder for that instant is due from the moment it is created. */
  lemma LateReminderDueAtOnce(now: Instant)
    requires now < YEAR_10000
    ensures FormatSeconds(HALF_PAST_MIDNIGHT) == "+10000-01-01T00:30:00Z"
    ensures DueByText(HALF_PAST_MIDNIGHT, now) && !DueByClock(HALF_PAST_MIDNIGHT, now)
  {
    HalfPastMidnightText(HALF_PAST_MIDNIGHT);
    DueLateByText(HALF_PAST_MIDNIGHT, now);
    NotDueLateByClock(HALF_PAST_MIDNIGHT, now);
  }

  // ---- the order of delivery ----

  /** By scheduled time, then by id. */
  predicate Before(rs: map<nat, Reminder>, a: nat, b: nat)
    requires a in rs && b in rs
  {
    T.Less(rs[a].scheduledFor, rs[b].scheduledFor) || (rs[a].scheduledFor == rs[b].scheduledFor && a < b)
  }

  ghost predicate Within(rs: map<nat, Reminder>, ids: seq<nat>) {
    forall i :: 0 <= i < |ids| ==> ids[i] in rs
  }

  ghost predicate InOrder(rs: map<nat, Reminder>, ids: seq<nat>)
    requires Within(rs, ids)
  {
    forall i, j :: 0 <= i < j < |ids| ==> Before(rs, ids[i], ids[j])
  }

  lemma BeforeTotal(rs: map<nat, Reminder>, a: nat, b: nat)
    requires a in rs && b in rs
    ensures a == b || Before(rs, a, b) || Before(rs, b, a)
    ensures !(Before(rs, a, b) && Before(rs, b, a)) && !Before(rs, a, a)
  {
    T.LessTotal(rs[a].scheduledFor, rs[b].scheduledFor);
    T.LessTotal(rs[a].scheduledFor, rs[a].scheduledFor);
  }

  lemma BeforeTransitive(rs: map<nat, Reminder>, a: nat, b: nat, c: nat)
    requires a in rs && b in rs && c in rs && Before(rs, a, b) && Before(rs, b, c)
    ensures Before(rs, a, c)
  {
    if T.Less(rs[a].scheduledFor, rs[b].scheduledFor) && T.Less(rs[b].scheduledFor, rs[c].scheduledFor) {
      T.LessIsLessEq(rs[b].scheduledFor, rs[c].scheduledFor);
      T.LessTransitive(rs[a].scheduledFor, rs[b].scheduledFor, rs[c].scheduledFor);
    }
  }

  /** Where an id goes in an ordered list. */
  function Insert(rs: map<nat, Reminder>, ids: seq<nat>, id: nat): (r: seq<nat>)
    requires id in rs && forall i :: 0 <= i < |ids| ==> ids[i] in rs
    ensures |r| == |ids| + 1
    ensures forall x :: x in r <==> x == id || x in ids
  {
    if ids == [] || Before(rs, ids[|ids| - 1], id) then ids + [id]
    else
      assert ids == ids[..|ids| - 1] + [ids[|ids| - 1]];
      Insert(rs, ids[..|ids| - 1], id) + [ids[|ids| - 1]]
  }

  lemma {:induction false} InsertInOrder(rs: map<nat, Reminder>, ids: seq<nat>, id: nat)
    requires id in rs && Within(rs, ids) && InOrder(rs, ids) && id !in ids
    ensures Within(rs, Insert(rs, ids, id)) && InOrder(rs, Insert(rs, ids, id))
  {
    var r := Insert(rs, ids, id);
    forall i | 0 <= i < |r| ensures r[i] in rs { assert r[i] in r; }
    if ids != [] {
      var init, last := ids[..|ids| - 1], ids[|ids| - 1];
      assert last in ids;
      if Before(rs, last, id) {
        forall i | 0 <= i < |ids| ensures Before(rs, ids[i], id) {
          if i < |init| { BeforeTransitive(rs, ids[i], last, id); }
        }
      } else {
        BeforeTotal(rs, last, id);
        InsertInOrder(rs, init, id);
        var s := Insert(rs, init, id);
        forall i | 0 <= i < |s| ensures Before(rs, s[i], last) {
          assert s[i] in s;
          if s[i] != id {
            var k :| 0 <= k < |init| && init[k] == s[i];
            assert ids[k] == s[i];
          }
        }
      }
    }
  }

  ghost function SortIds(rs: map<nat, Reminder>, ids: set<nat>): (r: seq<nat>)
    requires ids <= rs.Keys
    ensures |r| == |ids| && forall x :: x in r <==> x in ids
    decreases |ids|
  {
    if ids == {} then []
    else
      var id :| id in ids;
      var rest := SortIds(rs, ids - {id});
      assert forall i :: 0 <= i < |rest| ==> rest[i] in rest;
      Insert(rs, rest, id)
  }

  lemma {:induction false} SortIdsInOrder(rs: map<nat, Reminder>, ids: set<nat>)
    requires ids <= rs.Keys
    ensures Within(rs, SortIds(rs, ids)) && InOrder(rs, SortIds(rs, ids))
    decreases |ids|
  {
    if ids != {} {
      var id := FirstPicked(rs, ids);
      SortIdsInOrder(rs, ids - {id});
      InsertInOrder(rs, SortIds(rs, ids - {id}), id);
    }
  }

  /** The id the sort takes out of a set first. */
  lemma FirstPicked(rs: map<nat, Reminder>, ids: set<nat>) returns (id: nat)
    requires ids <= rs.Keys && ids != {}
    ensures id in ids && Within(rs, SortIds(rs, ids - {id}))
    ensures SortIds(rs, ids) == Insert(rs, SortIds(rs, ids - {id}), id)
  {
    forall x: nat | x in ids ensures Within(rs, SortIds(rs, ids - {x})) {
      var rest := SortIds(rs, ids - {x});
      forall i | 0 <= i < |rest| ensures rest[i] in rs { assert rest[i] in rest; }
    }
    id :| id in ids && SortIds(rs, ids) == Insert(rs, SortIds(rs, ids - {id}), id);
  }

  lemma LastOne(rs: map<nat, Reminder>, s: seq<nat>, x: nat)
    requires s != [] && Within(rs, s) && InOrder(rs, s) && x in s
    ensures x == s[|s| - 1] || Before(rs, x, s[|s| - 1])
    ensures x in s[..|s| - 1] <==> x != s[|s| - 1]
  {
    var k :| 0 <= k < |s| && s[k] == x;
    var last := s[|s| - 1];
    BeforeTotal(rs, last, last);
    if k < |s| - 1 {
      assert Before(rs, s[k], last);
      assert s[..|s| - 1][k] == x;
    }
    forall i | 0 <= i < |s| - 1 ensures s[i] != last { assert Before(rs, s[i], last); }
  }

  /** An ordered list is determined by its members. */
  lemma {:induction false} OneOrder(rs: map<nat, Reminder>, a: seq<nat>, b: seq<nat>)
    requires Within(rs, a) && Within(rs, b) && InOrder(rs, a) && InOrder(rs, b)
    requires forall x :: x in a <==> x in b
    ensures a == b
  {
    assert a == [] <==> b == [] by {
      if a != [] { assert a[0] in a; }
      if b != [] { assert b[0] in b; }
    }
    if a != [] {
      var x, y := a[|a| - 1], b[|b| - 1];
      assert x in a && y in b;
      LastOne(rs, b, x);
      LastOne(rs, a, y);
      BeforeTotal(rs, x, y);
      var a', b' := a[..|a| - 1], b[..|b| - 1];
      forall z ensures z in a' <==> z in b' {
        if z in a { LastOne(rs, a, z); LastOne(rs, b, z); }
      }
      OneOrder(rs, a', b');
      assert a == a' + [x] && b == b' + [y];
    }
  }

  /** The due reminders in the order of delivery. */
  ghost function DueList(st: State, dueAt: string): seq<nat> {
    SortIds(st.reminders, DueIds(st, dueAt))
  }

  // ---- one run ----

  function Mark(st: State, id: nat, ok: bool): State
    requires id in st.reminders
  {
    st.(reminders := st.reminders[id := st.reminders[id].(status := if ok then Sent else Failed)])
  }

  /** The jobs of a run, each marked by the answer of its delivery; ids that are not there are skipped. */
  function MarkAll(st: State, jobs: seq<nat>, answers: nat -> bool): State {
    if jobs == [] then st
    else
      var before := MarkAll(st, jobs[..|jobs| - 1], answers);
      var id := jobs[|jobs| - 1];
      if id in before.reminders then Mark(before, id, answers(id)) else before
  }

  ghost function Jobs(st: State, dueAt: string, batch: nat): seq<nat> {
    Take(DueList(st, dueAt), batch)
  }

  ghost function RunOnce(st: State, dueAt: string, batch: nat, answers: nat -> bool): State {
    MarkAll(st, Jobs(st, dueAt, batch), answers)
  }

  function CountSent(jobs: seq<nat>, answers: nat -> bool): nat {
    if jobs == [] then 0 else CountSent(jobs[..|jobs| - 1], answers) + (if answers(jobs[|jobs| - 1]) then 1 else 0)
  }

  function CountFailed(jobs: seq<nat>, answers: nat -> bool): nat {
    if jobs == [] then 0 else CountFailed(jobs[..|jobs| - 1], answers) + (if answers(jobs[|jobs| - 1]) then 0 else 1)
  }

  /** Every job scanned is either sent or failed. */
  lemma {:induction false} ScannedIsSentPlusFailed(jobs: seq<nat>, answers: nat -> bool)
    ensures |jobs| == CountSent(jobs, answers) + CountFailed(jobs, answers)
  {
    if jobs != [] { ScannedIsSentPlusFailed(jobs[..|jobs| - 1], answers); }
  }

  /** What marking does to each reminder. */
  lemma {:induction false} MarkAllMeans(st: State, jobs: seq<nat>, answers: nat -> bool)
    requires forall i :: 0 <= i < |jobs| ==> jobs[i] in st.reminders
    ensures var st' := MarkAll(st, jobs, answers);
            && st'.scheduled == st.scheduled && st'.reminders.Keys == st.reminders.Keys
            && (forall id :: id in st.reminders ==>
                  st'.reminders[id] ==
                    if id in jobs then st.reminders[id].(status := if answers(id) then Sent else Failed) else st.reminders[id])
  {
    if jobs != [] {
      var init, last := jobs[..|jobs| - 1], jobs[|jobs| - 1];
      MarkAllMeans(st, init, answers);
      assert jobs == init + [last];
    }
  }

  lemma DueListIs(st: State, dueAt: string)
    ensures IsDueList(st, dueAt, DueList(st, dueAt))
  {
    SortIdsInOrder(st.reminders, DueIds(st, dueAt));
  }

  lemma TakeMembers(ids: seq<nat>, n: nat)
    ensures forall i :: 0 <= i < |Take(ids, n)| ==> Take(ids, n)[i] == ids[i] && ids[i] in ids
    ensures forall x :: x in Take(ids, n) ==> x in ids
  {
  }

  lemma InOrderDistinct(rs: map<nat, Reminder>, ids: seq<nat>)
    requires Within(rs, ids) && InOrder(rs, ids)
    ensures Distinct(ids)
  {
    forall i, j | 0 <= i < j < |ids| ensures ids[i] != ids[j] {
      assert Before(rs, ids[i], ids[j]);
      BeforeTotal(rs, ids[i], ids[i]);
    }
  }

  /** The due list, whatever way it was found. */
  ghost predicate IsDueList(st: State, dueAt: string, l: seq<nat>) {
    Within(st.reminders, l) && InOrder(st.reminders, l) && forall id :: id in l <==> Due(st, id, dueAt)
  }

  lemma OneDueList(st: State, dueAt: string, l: seq<nat>)
    requires IsDueList(st, dueAt, l)
    ensures DueList(st, dueAt) == l
  {
    DueListIs(st, dueAt);
    OneOrder(st.reminders, l, DueList(st, dueAt));
  }

  lemma SplitAt(l: seq<nat>, n: nat, id: nat)
    requires Distinct(l)
    ensures id in Drop(l, n) <==> id in l && id !in Take(l, n)
  {
    assert l == Take(l, n) + Drop(l, n);
    if id in Drop(l, n) {
      var k :| 0 <= k < |Drop(l, n)| && Drop(l, n)[k] == id;
      assert l[|Take(l, n)| + k] == id;
      forall i | 0 <= i < |Take(l, n)| ensures Take(l, n)[i] != id { assert l[i] != l[|Take(l, n)| + k]; }
    }
  }

  /** Marking changes neither the order nor what else is due. */
  lemma MarkedOrder(rs: map<nat, Reminder>, rs': map<nat, Reminder>, l: seq<nat>, n: nat)
    requires Within(rs, l) && InOrder(rs, l) && rs'.Keys == rs.Keys
    requires forall id :: id in rs ==> rs'[id].scheduledFor == rs[id].scheduledFor
    ensures Within(rs', Drop(l, n)) && InOrder(rs', Drop(l, n))
  {
    var rest := Drop(l, n);
    forall i | 0 <= i < |rest| ensures rest[i] in rs' { assert rest[i] == l[n + i]; }
    forall i, j | 0 <= i < j < |rest| ensures Before(rs', rest[i], rest[j]) {
      assert Before(rs, l[n + i], l[n + j]);
    }
  }

  lemma MarkedDue(st: State, jobs: seq<nat>, answers: nat -> bool, dueAt: string, id: nat)
    requires forall i :: 0 <= i < |jobs| ==> jobs[i] in st.reminders
    ensures Due(MarkAll(st, jobs, answers), id, dueAt) <==> Due(st, id, dueAt) && id !in jobs
  {
    MarkAllMeans(st, jobs, answers);
  }

  // ---- what a run lists and reports ----

  /** The reminder is pending, its text is not after the given one, and its meeting is scheduled. */
  ghost predicate IsDueNow(st: State, id: nat, dueAt: string) {
    && id in st.reminders && st.reminders[id].status.Pending?
    && !T.Less(dueAt, st.reminders[id].scheduledFor)
    && st.reminders[id].meetingId in st.scheduled
  }

  /** The first comes earlier by its text, or has the same text and the smaller id. */
  ghost predicate Earlier(st: State, a: nat, b: nat) {
    && a in st.reminders && b in st.reminders
    && (T.Less(st.reminders[a].scheduledFor, st.reminders[b].scheduledFor)
        || (st.reminders[a].scheduledFor == st.reminders[b].scheduledFor && a < b))
  }

  /** At most `limit` due reminders in order; all of them while there is room, and otherwise the earliest. */
  ghost predicate FirstDue(st: State, dueAt: string, limit: nat, ids: seq<nat>) {
    && |ids| <= limit
    && (forall i :: 0 <= i < |ids| ==> IsDueNow(st, ids[i], dueAt))
    && (forall i, j :: 0 <= i < j < |ids| ==> Earlier(st, ids[i], ids[j]))
    && (forall id :: IsDueNow(st, id, dueAt) && id !in ids ==>
          |ids| == limit && forall i :: 0 <= i < |ids| ==> Earlier(st, ids[i], id))
  }

  lemma JobsAreFirstDue(st: State, dueAt: string, limit: nat)
    ensures FirstDue(st, dueAt, limit, Jobs(st, dueAt, limit))
  {
    var l, ids := DueList(st, dueAt), Jobs(st, dueAt, limit);
    DueListIs(st, dueAt);
    TakeMembers(l, limit);
    forall i | 0 <= i < |ids| ensures IsDueNow(st, ids[i], dueAt) { assert ids[i] in l; }
    forall id | IsDueNow(st, id, dueAt) && id !in ids
      ensures |ids| == limit && forall i :: 0 <= i < |ids| ==> Earlier(st, ids[i], id)
    {
      assert Due(st, id, dueAt) && id in l;
      var k :| 0 <= k < |l| && l[k] == id;
      assert forall i :: 0 <= i < |ids| ==> l[i] == ids[i] && ids[i] in ids;
      assert |ids| <= k;
      assert forall i :: 0 <= i < |ids| ==> Before(st.reminders, l[i], l[k]);
    }
  }

  function WithStatus(rs: map<nat, Reminder>, status: Status): set<nat> {
    set id | id in rs && rs[id].status == status
  }

  /** How many reminders have a status. */
  function HowMany(st: State, status: Status): nat {
    |WithStatus(st.reminders, status)|
  }

  lemma MarkCounts(st: State, id: nat, ok: bool)
    requires id in st.reminders && st.reminders[id].status.Pending?
    ensures var st' := Mark(st, id, ok);
            && HowMany(st', Pending) == HowMany(st, Pending) - 1
            && HowMany(st', Sent) == HowMany(st, Sent) + (if ok then 1 else 0)
            && HowMany(st', Failed) == HowMany(st, Failed) + (if ok then 0 else 1)
  {
    var rs, rs' := st.reminders, Mark(st, id, ok).reminders;
    assert WithStatus(rs', Pending) == WithStatus(rs, Pending) - {id};
    assert WithStatus(rs', Sent) == if ok then WithStatus(rs, Sent) + {id} else WithStatus(rs, Sent);
    assert WithStatus(rs', Failed) == if ok then WithStatus(rs, Failed) else WithStatus(rs, Failed) + {id};
  }

  /** Marking pending reminders, each once: the counts are the numbers that became sent and failed. */
  lemma {:induction false} MarkAllCounts(st: State, jobs: seq<nat>, answers: nat -> bool)
    requires Distinct(jobs) && forall i :: 0 <= i < |jobs| ==> jobs[i] in st.reminders && st.reminders[jobs[i]].status.Pending?
    ensures var st' := MarkAll(st, jobs, answers);
            && HowMany(st', Sent) == HowMany(st, Sent) + CountSent(jobs, answers)
            && HowMany(st', Failed) == HowMany(st, Failed) + CountFailed(jobs, answers)
            && HowMany(st', Pending) == HowMany(st, Pending) - |jobs|
  {
    if jobs != [] {
      var n := |jobs| - 1;
      MarkAllCounts(st, jobs[..n], answers);
      MarkAllMeans(st, jobs[..n], answers);
      MarkCounts(MarkAll(st, jobs[..n], answers), jobs[n], answers(jobs[n]));
    }
  }

  /**
   A run marks exactly the reminders it lists, each as sent or failed by its delivery, and reports
   how many became sent and how many failed.
   */
  ghost predicate RanExactly(st: State, st': State, dueAt: string, batch: nat, answers: nat -> bool, jobs: seq<nat>) {
    && FirstDue(st, dueAt, batch, jobs)
    && st'.scheduled == st.scheduled && st'.reminders.Keys == st.reminders.Keys
    && forall id :: id in st.reminders ==>
         st'.reminders[id] ==
           if id in jobs then st.reminders[id].(status := if answers(id) then Sent else Failed) else st.reminders[id]
  }

  lemma RunExact(st: State, dueAt: string, batch: nat, answers: nat -> bool)
    ensures var st', jobs := RunOnce(st, dueAt, batch, answers), Jobs(st, dueAt, batch);
            && RanExactly(st, st', dueAt, batch, answers, jobs)
            && HowMany(st', Sent) == HowMany(st, Sent) + CountSent(jobs, answers)
            && HowMany(st', Failed) == HowMany(st, Failed) + CountFailed(jobs, answers)
            && HowMany(st', Pending) == HowMany(st, Pending) - |jobs|
  {
    var jobs := Jobs(st, dueAt, batch);
    JobsAreFirstDue(st, dueAt, batch);
    assert forall i :: 0 <= i < |jobs| ==> IsDueNow(st, jobs[i], dueAt);
    forall i, j | 0 <= i < j < |jobs| ensures jobs[i] != jobs[j] {
      assert Earlier(st, jobs[i], jobs[j]);
      BeforeTotal(st.reminders, jobs[i], jobs[j]);
    }
    MarkAllMeans(st, jobs, answers);
    MarkAllCounts(st, jobs, answers);
  }

  // ---- a later run ----

  /** How many leading ids are due by an earlier time. */
  function Leading(st: State, d0: string, l: seq<nat>): (k: nat)
    ensures k <= |l| && (forall i :: 0 <= i < k ==> Due(st, l[i], d0)) && (k < |l| ==> !Due(st, l[k], d0))
  {
    if l == [] || !Due(st, l[0], d0) then 0 else 1 + Leading(st, d0, l[1..])
  }

  /** What comes before a reminder due by an earlier time is due by that time too. */
  lemma DueDownward(st: State, d0: string, d1: string, a: nat, b: nat)
    requires Due(st, a, d1) && Due(st, b, d0) && Before(st.reminders, a, b)
    ensures Due(st, a, d0)
  {
    var x, y := st.reminders[a].scheduledFor, st.reminders[b].scheduledFor;
    T.LessTotal(x, y);
    T.LessTotal(y, y);
    T.LessEqTransitive(x, y, d0);
  }

  /** The list due by an earlier time is the front of the list due by a later one. */
  lemma EarlierIsPrefix(st: State, d0: string, d1: string)
    requires T.LessEq(d0, d1)
    ensures DueList(st, d0) <= DueList(st, d1)
  {
    var l := DueList(st, d1);
    DueListIs(st, d1);
    var k := Leading(st, d0, l);
    forall i | k <= i < |l| ensures !Due(st, l[i], d0) {
      assert l[i] in l && l[k] in l;
      if Due(st, l[i], d0) && k < i { DueDownward(st, d0, d1, l[k], l[i]); }
    }
    FrontIsDue(st, d0, d1, l, k);
    OneDueList(st, d0, l[..k]);
  }

  lemma FrontIsDue(st: State, d0: string, d1: string, l: seq<nat>, k: nat)
    requires T.LessEq(d0, d1) && IsDueList(st, d1, l) && k <= |l|
    requires forall i :: 0 <= i < |l| ==> (Due(st, l[i], d0) <==> i < k)
    ensures IsDueList(st, d0, l[..k])
  {
    forall id ensures id in l[..k] <==> Due(st, id, d0) {
      if Due(st, id, d0) {
        T.LessEqTransitive(st.reminders[id].scheduledFor, d0, d1);
        assert id in l;
        var i :| 0 <= i < |l| && l[i] == id;
        assert l[..k][i] == id;
      }
    }
  }

  /** Of a front of the list, a batch takes the same ids as of the whole list. */
  lemma TakeOfFront(front: seq<nat>, l: seq<nat>, n: nat, id: nat)
    requires Distinct(l) && front <= l && id in front
    ensures id in Take(l, n) <==> id in Take(front, n)
  {
    var j :| 0 <= j < |front| && front[j] == id;
    assert l[j] == id;
    if id in Take(l, n) {
      var i :| 0 <= i < |Take(l, n)| && Take(l, n)[i] == id;
      assert l[i] == id;
      assert i == j;
      assert Take(front, n)[j] == id;
    }
    if id in Take(front, n) {
      var i :| 0 <= i < |Take(front, n)| && Take(front, n)[i] == id;
      assert Take(l, n)[i] == id;
    }
  }

  /** After a run at any later time, the rest of the list due by the earlier time is due, in order. */
  lemma LaterRunLeavesRest(st: State, d0: string, d1: string, batch: nat, answers: nat -> bool)
    requires T.LessEq(d0, d1)
    ensures DueList(RunOnce(st, d1, batch, answers), d0) == Drop(DueList(st, d0), batch)
    ensures Take(DueList(st, d0), batch) <= Jobs(st, d1, batch)
  {
    EarlierIsPrefix(st, d0, d1);
    DueListIs(st, d0);
    DueListIs(st, d1);
    RestOfFrontIsDue(st, d0, DueList(st, d0), d1, DueList(st, d1), batch, answers);
    OneDueList(RunOnce(st, d1, batch, answers), d0, Drop(DueList(st, d0), batch));
  }

  lemma RestOfFrontIsDue(st: State, d0: string, front: seq<nat>, d1: string, l: seq<nat>, batch: nat, answers: nat -> bool)
    requires IsDueList(st, d0, front) && IsDueList(st, d1, l) && front <= l
    ensures IsDueList(MarkAll(st, Take(l, batch), answers), d0, Drop(front, batch))
  {
    var jobs := Take(l, batch);
    var st' := MarkAll(st, jobs, answers);
    InOrderDistinct(st.reminders, l);
    InOrderDistinct(st.reminders, front);
    assert forall i :: 0 <= i < |jobs| ==> jobs[i] == l[i];
    MarkAllMeans(st, jobs, answers);
    MarkedOrder(st.reminders, st'.reminders, front, batch);
    forall id ensures id in Drop(front, batch) <==> Due(st', id, d0) {
      SplitAt(front, batch, id);
      MarkedDue(st, jobs, answers, d0, id);
      if id in front { TakeOfFront(front, l, batch, id); }
    }
  }

  // ---- draining, whatever a state and a run are ----

  ghost function Played<S, R>(after: (S, R) -> S, st: S, runs: seq<R>): S {
    if runs == [] then st else after(Played(after, st, runs[..|runs| - 1]), runs[|runs| - 1])
  }

  /** Everything the runs hand out, oldest first. */
  ghost function Given<S, R>(after: (S, R) -> S, jobs: (S, R) -> seq<nat>, st: S, runs: seq<R>): seq<nat> {
    if runs == [] then []
    else
      var init, last := runs[..|runs| - 1], runs[|runs| - 1];
      Given(after, jobs, st, init) + jobs(Played(after, st, init), last)
  }

  /** The places of `k` batches. */
  function Places(k: nat, batch: nat): nat {
    if k == 0 then 0 else Places(k - 1, batch) + batch
  }

  lemma {:induction false} PlacesAre(k: nat, batch: nat)
    ensures Places(k, batch) == k * batch
  {
    if k > 0 { PlacesAre(k - 1, batch); }
  }

  lemma DropMore(ids: seq<nat>, n: nat, m: nat)
    ensures Drop(Drop(ids, n), m) == Drop(ids, n + m)
  {
  }

  /** One more batch of the list behind what was delivered. */
  lemma DeliverMore(all: seq<nat>, n: nat, done: seq<nat>, jobs: seq<nat>, batch: nat)
    requires Take(all, n) <= done && |done| <= n && Take(Drop(all, n), batch) <= jobs
    ensures Take(all, n + batch) <= done + jobs
  {
    if |all| > n {
      assert done == Take(all, n);
      assert Take(all, n + batch) == Take(all, n) + Take(Drop(all, n), batch);
    }
  }

  /** `left` is what `n` places leave of a list, and its front is what was delivered first. */
  ghost predicate DrainedTo(all: seq<nat>, left: seq<nat>, done: seq<nat>, n: nat) {
    left == Drop(all, n) && Take(all, n) <= done && |done| <= n
  }

  lemma DrainStep(all: seq<nat>, n: nat, batch: nat, left: seq<nat>, done: seq<nat>, jobs: seq<nat>)
    requires DrainedTo(all, left, done, n) && Take(left, batch) <= jobs && |jobs| <= batch
    ensures DrainedTo(all, Drop(left, batch), done + jobs, n + batch)
  {
    DropMore(all, n, batch);
    DeliverMore(all, n, done, jobs, batch);
  }

  /** Every run takes a batch off the front of what is due, and hands it out first. */
  ghost predicate TakesBatches<S(!new), R>(due: S -> seq<nat>, after: (S, R) -> S, jobs: (S, R) -> seq<nat>, batch: nat, runs: seq<R>) {
    forall s: S, i {:trigger after(s, runs[i])} :: 0 <= i < |runs| ==>
      && due(after(s, runs[i])) == Drop(due(s), batch)
      && Take(due(s), batch) <= jobs(s, runs[i]) && |jobs(s, runs[i])| <= batch
  }

  lemma FewerTakeBatches<S(!new), R>(due: S -> seq<nat>, after: (S, R) -> S, jobs: (S, R) -> seq<nat>, batch: nat, runs: seq<R>)
    requires runs != [] && TakesBatches(due, after, jobs, batch, runs)
    ensures TakesBatches(due, after, jobs, batch, runs[..|runs| - 1])
  {
    var init := runs[..|runs| - 1];
    forall s: S, i | 0 <= i < |init|
      ensures due(after(s, init[i])) == Drop(due(s), batch)
      ensures Take(due(s), batch) <= jobs(s, init[i]) && |jobs(s, init[i])| <= batch
    {
      assert after(s, init[i]) == after(s, runs[i]);
    }
  }

  lemma LastTakesBatch<S(!new), R>(due: S -> seq<nat>, after: (S, R) -> S, jobs: (S, R) -> seq<nat>, batch: nat, runs: seq<R>, s: S)
    requires runs != [] && TakesBatches(due, after, jobs, batch, runs)
    ensures var last := runs[|runs| - 1];
            && due(after(s, last)) == Drop(due(s), batch)
            && Take(due(s), batch) <= jobs(s, last) && |jobs(s, last)| <= batch
  {
    assert after(s, runs[|runs| - 1]) == after(s, runs[|runs| - 1]);
  }

  lemma {:induction false} Drains<S(!new), R>(due: S -> seq<nat>, after: (S, R) -> S, jobs: (S, R) -> seq<nat>, batch: nat, st: S, runs: seq<R>)
    requires TakesBatches(due, after, jobs, batch, runs)
    ensures DrainedTo(due(st), due(Played(after, st, runs)), Given(after, jobs, st, runs), Places(|runs|, batch))
  {
    if runs != [] {
      var init, last := runs[..|runs| - 1], runs[|runs| - 1];
      FewerTakeBatches(due, after, jobs, batch, runs);
      Drains(due, after, jobs, batch, st, init);
      var before := Played(after, st, init);
      LastTakesBatch(due, after, jobs, batch, runs, before);
      DrainStep(due(st), Places(|init|, batch), batch, due(before), Given(after, jobs, st, init), jobs(before, last));
    }
  }

  // ---- draining the reminders ----

  /** A run has its own clock time and its own answers. */
  datatype Run = Run(dueAt: string, answers: nat -> bool)

  ghost function RunStep(batch: nat): (State, Run) -> State {
    (st: State, run: Run) => RunOnce(st, run.dueAt, batch, run.answers)
  }

  ghost function RunJobs(batch: nat): (State, Run) -> seq<nat> {
    (st: State, run: Run) => Jobs(st, run.dueAt, batch)
  }

  ghost function DueBy(d0: string): State -> seq<nat> {
    (st: State) => DueList(st, d0)
  }

  ghost function StateAfter(st: State, batch: nat, runs: seq<Run>): State {
    Played(RunStep(batch), st, runs)
  }

  ghost function Delivered(st: State, batch: nat, runs: seq<Run>): seq<nat> {
    Given(RunStep(batch), RunJobs(batch), st, runs)
  }

  ghost predicate AllFrom(d0: string, runs: seq<Run>) {
    forall i :: 0 <= i < |runs| ==> T.LessEq(d0, runs[i].dueAt)
  }

  lemma RunTakesBatch(st: State, d0: string, batch: nat, run: Run)
    requires T.LessEq(d0, run.dueAt)
    ensures DueBy(d0)(RunStep(batch)(st, run)) == Drop(DueBy(d0)(st), batch)
    ensures Take(DueBy(d0)(st), batch) <= RunJobs(batch)(st, run) && |RunJobs(batch)(st, run)| <= batch
  {
    LaterRunLeavesRest(st, d0, run.dueAt, batch, run.answers);
  }

  lemma RunsTakeBatches(d0: string, batch: nat, runs: seq<Run>)
    requires AllFrom(d0, runs)
    ensures TakesBatches(DueBy(d0), RunStep(batch), RunJobs(batch), batch, runs)
  {
    forall st: State, i | 0 <= i < |runs|
      ensures DueBy(d0)(RunStep(batch)(st, runs[i])) == Drop(DueBy(d0)(st), batch)
      ensures Take(DueBy(d0)(st), batch) <= RunJobs(batch)(st, runs[i]) && |RunJobs(batch)(st, runs[i])| <= batch
    {
      RunTakesBatch(st, d0, batch, runs[i]);
    }
  }

  /**
   Any series of runs, each with its own clock time from `d0` on and its own answers, delivers
   the reminders due by `d0` in order before anything else, a batch in each run.
   */
  lemma DrainsInOrder(st: State, d0: string, batch: nat, runs: seq<Run>)
    requires AllFrom(d0, runs)
    ensures Take(DueList(st, d0), |runs| * batch) <= Delivered(st, batch, runs)
    ensures DueList(StateAfter(st, batch, runs), d0) == Drop(DueList(st, d0), |runs| * batch)
  {
    RunsTakeBatches(d0, batch, runs);
    Drains(DueBy(d0), RunStep(batch), RunJobs(batch), batch, st, runs);
    PlacesAre(|runs|, batch);
  }

  /** The n reminders due by `d0` are all delivered after ceil(n / batch) such runs, and not after fewer. */
  lemma DrainsCompletely(st: State, d0: string, batch: nat, runs: seq<Run>)
    requires batch >= 1 && AllFrom(d0, runs)
    ensures var n := |DueList(st, d0)|;
            DueList(StateAfter(st, batch, runs), d0) == [] <==> |runs| >= Ceiling(n, batch)
  {
    RunsTakeBatches(d0, batch, runs);
    Drains(DueBy(d0), RunStep(batch), RunJobs(batch), batch, st, runs);
    DropsAll(DueList(st, d0), Places(|runs|, batch));
    PlacesCover(|DueList(st, d0)|, batch, |runs|);
  }

  /** The number of batches that hold `n` reminders. */
  function Ceiling(n: nat, batch: nat): nat
    requires batch >= 1
  {
    (n + batch - 1) / batch
  }

  lemma PlacesCover(n: nat, batch: nat, k: nat)
    requires batch >= 1
    ensures n <= Places(k, batch) <==> k >= Ceiling(n, batch)
  {
    PlacesAre(k, batch);
    CeilingCovers(n, batch, k);
  }

  lemma DropsAll(ids: seq<nat>, n: nat)
    ensures Drop(ids, n) == [] <==> |ids| <= n
  {
  }

  lemma CeilingCovers(n: nat, batch: nat, k: nat)
    requires batch >= 1
    ensures n <= k * batch <==> k >= (n + batch - 1) / batch
  {
    var c := (n + batch - 1) / batch;
    assert c * batch <= n + batch - 1 < c * batch + batch by { DivBounds(n + batch - 1, batch); }
    if k >= c {
      MulMonotone(c, k, batch);
    } else {
      MulMonotone(k + 1, c, batch);
    }
  }

  lemma DivBounds(a: nat, b: nat)
    requires b >= 1
    ensures a / b * b <= a < a / b * b + b
  {
  }
}
