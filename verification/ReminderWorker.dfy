/** The meeting store's reminders, kept per meeting, and the worker that delivers them. */
module ReminderWorker {
  import opened Lists
  import opened Reminders
  import T = Text

  type Files = map<nat, seq<Reminder>>

  predicate At(files: Files, m: nat, i: int) {
    m in files && 0 <= i < |files[m]|
  }

  ghost predicate Located(files: Files, r: Reminder) {
    exists i :: At(files, r.meetingId, i) && files[r.meetingId][i] == r
  }

  /** Ids are unique, every reminder is filed under its meeting, and `flat` holds them by id. */
  ghost predicate Filed(files: Files, flat: map<nat, Reminder>) {
    && (forall m, i :: At(files, m, i) ==>
          files[m][i].meetingId == m && files[m][i].id in flat && flat[files[m][i].id] == files[m][i])
    && (forall id :: id in flat ==> flat[id].id == id && Located(files, flat[id]))
    && (forall m, i, j :: At(files, m, i) && At(files, m, j) && files[m][i].id == files[m][j].id ==> i == j)
  }

  /** Changing the status of one filed reminder. */
  lemma Refile(files: Files, flat: map<nat, Reminder>, m: nat, i: nat, status: Status)
    requires Filed(files, flat) && At(files, m, i)
    ensures var r := files[m][i].(status := status);
            Filed(files[m := files[m][i := r]], flat[r.id := r])
  {
    var r := files[m][i].(status := status);
    var files', flat' := files[m := files[m][i := r]], flat[r.id := r];
    forall n: nat, k | At(files', n, k)
      ensures files'[n][k].meetingId == n && files'[n][k].id in flat' && flat'[files'[n][k].id] == files'[n][k]
    {
      assert At(files, n, k);
      if files[n][k].id == r.id { assert files[n][k] == flat[r.id] == files[m][i]; }
    }
    forall id | id in flat' ensures flat'[id].id == id && Located(files', flat'[id]) {
      if id == r.id {
        assert At(files', m, i) && files'[m][i] == r;
      } else {
        var k :| At(files, flat[id].meetingId, k) && files[flat[id].meetingId][k] == flat[id];
        assert At(files', flat[id].meetingId, k) && files'[flat[id].meetingId][k] == flat[id];
      }
    }
    forall n: nat, k, j | At(files', n, k) && At(files', n, j) && files'[n][k].id == files'[n][j].id ensures k == j {
      assert At(files, n, k) && At(files, n, j);
    }
  }

  method FindPending(reminders: seq<Reminder>, id: nat) returns (i: nat)
    ensures i <= |reminders|
    ensures i < |reminders| ==> reminders[i].id == id && reminders[i].status == Pending
    ensures forall k :: 0 <= k < i ==> !(reminders[k].id == id && reminders[k].status == Pending)
  {
    i := 0;
    while i < |reminders| && !(reminders[i].id == id && reminders[i].status == Pending)
      invariant i <= |reminders|
      invariant forall k :: 0 <= k < i ==> !(reminders[k].id == id && reminders[k].status == Pending)
    {
      i := i + 1;
    }
  }

  ghost predicate NonePending(files: Files, rest: set<nat>, id: nat) {
    forall m, i :: At(files, m, i) && m !in rest ==> !(files[m][i].id == id && files[m][i].status == Pending)
  }

  lemma NoneLeft(files: Files, flat: map<nat, Reminder>, id: nat)
    requires Filed(files, flat) && NonePending(files, {}, id)
    ensures id in flat ==> flat[id].status != Pending
  {
    if id in flat {
      var k :| At(files, flat[id].meetingId, k) && files[flat[id].meetingId][k] == flat[id];
    }
  }

  class MemoryMeetingStore {
    var remindersByMeetingId: Files
    var isScheduled: map<nat, bool>
    ghost var flat: map<nat, Reminder>

    ghost predicate Valid()
      reads this
    {
      Filed(remindersByMeetingId, flat)
    }

    ghost function Contents(): State
      reads this
    {
      State(flat, set m | m in isScheduled && isScheduled[m])
    }

    constructor ()
      ensures Valid() && Contents() == State(map[], {})
    {
      remindersByMeetingId, isScheduled, flat := map[], map[], map[];
    }

    /** Marks the pending reminder with the given id, wherever it is filed. */
    method UpdateReminderStatus(id: nat, status: Status) returns (found: bool)
      requires Valid()
      modifies this
      ensures Valid() && isScheduled == old(isScheduled)
      ensures found <==> id in old(flat) && old(flat)[id].status == Pending
      ensures flat == if found then old(flat)[id := old(flat)[id].(status := status)] else old(flat)
    {
      var rest := remindersByMeetingId.Keys;
      while rest != {}
        invariant rest <= remindersByMeetingId.Keys && NonePending(remindersByMeetingId, rest, id)
        invariant remindersByMeetingId == old(remindersByMeetingId) && isScheduled == old(isScheduled) && flat == old(flat)
        decreases |rest|
      {
        var m :| m in rest;
        var reminders := remindersByMeetingId[m];
        var i := FindPending(reminders, id);
        if i < |reminders| {
          assert At(remindersByMeetingId, m, i);
          Refile(remindersByMeetingId, flat, m, i, status);
          var marked := reminders[i].(status := status);
          remindersByMeetingId := remindersByMeetingId[m := reminders[i := marked]];
          flat := flat[id := marked];
          return true;
        }
        rest := rest - {m};
      }
      NoneLeft(remindersByMeetingId, flat, id);
      return false;
    }

    /** The due reminders of meetings that are still scheduled, in order, at most `limit` of them. */
    method ListDueReminders(dueAt: string, limit: nat) returns (ids: seq<nat>)
      requires Valid()
      ensures ids == Jobs(Contents(), dueAt, limit)
      ensures FirstDue(Contents(), dueAt, limit, ids)
    {
      JobsAreFirstDue(Contents(), dueAt, limit);
      if limit == 0 {
        return [];
      }
      var due := DueReminders(remindersByMeetingId, isScheduled, dueAt);
      DueById(remindersByMeetingId, flat, isScheduled, dueAt);
      var byId := map r | r in due :: r.id := r;
      var sorted := SortJobs(byId);
      SameJobs(Contents(), byId, sorted, dueAt);
      return Take(sorted, limit);
    }
  }

  predicate IsDue(r: Reminder, isScheduled: map<nat, bool>, dueAt: string) {
    && r.status == Pending && T.LessEq(r.scheduledFor, dueAt)
    && r.meetingId in isScheduled && isScheduled[r.meetingId]
  }

  /** The filter over the reminders of all meetings. */
  function DueReminders(files: Files, isScheduled: map<nat, bool>, dueAt: string): set<Reminder> {
    set m, i | m in files && 0 <= i < |files[m]| && IsDue(files[m][i], isScheduled, dueAt) :: files[m][i]
  }

  lemma DueById(files: Files, flat: map<nat, Reminder>, isScheduled: map<nat, bool>, dueAt: string)
    requires Filed(files, flat)
    ensures forall r :: r in DueReminders(files, isScheduled, dueAt) <==>
              r.id in flat && flat[r.id] == r && IsDue(r, isScheduled, dueAt)
  {
    var due := DueReminders(files, isScheduled, dueAt);
    forall r | r in due ensures r.id in flat && flat[r.id] == r && IsDue(r, isScheduled, dueAt) {
      var m, i :| m in files && 0 <= i < |files[m]| && IsDue(files[m][i], isScheduled, dueAt) && r == files[m][i];
      assert At(files, m, i);
    }
    forall r: Reminder | r.id in flat && flat[r.id] == r && IsDue(r, isScheduled, dueAt) ensures r in due {
      assert Located(files, flat[r.id]);
      var k :| At(files, r.meetingId, k) && files[r.meetingId][k] == r;
    }
  }

  /** The jobs by scheduled time, then by id. */
  method SortJobs(byId: map<nat, Reminder>) returns (ids: seq<nat>)
    ensures Within(byId, ids) && InOrder(byId, ids) && forall id :: id in ids <==> id in byId
  {
    ids := [];
    var rest := byId.Keys;
    while rest != {}
      invariant rest <= byId.Keys && Within(byId, ids) && InOrder(byId, ids)
      invariant forall id :: id in ids <==> id in byId && id !in rest
      decreases |rest|
    {
      var id :| id in rest;
      InsertInOrder(byId, ids, id);
      ids := Insert(byId, ids, id);
      rest := rest - {id};
    }
  }

  /** Ordering the selected reminders gives the due list. */
  lemma SameJobs(st: State, byId: map<nat, Reminder>, sorted: seq<nat>, dueAt: string)
    requires Within(byId, sorted) && InOrder(byId, sorted) && forall id :: id in sorted <==> id in byId
    requires forall id :: id in byId <==> Due(st, id, dueAt)
    requires forall id :: id in byId ==> id in st.reminders && byId[id] == st.reminders[id]
    ensures DueList(st, dueAt) == sorted
  {
    forall i | 0 <= i < |sorted| ensures sorted[i] in st.reminders { assert Due(st, sorted[i], dueAt); }
    forall i, j | 0 <= i < j < |sorted| ensures Before(st.reminders, sorted[i], sorted[j]) {
      assert Before(byId, sorted[i], sorted[j]);
    }
    OneDueList(st, dueAt, sorted);
  }

  datatype Summary = Summary(scanned: nat, sent: nat, failed: nat)

  class MeetingReminderWorker {
    const store: MemoryMeetingStore
    var batchSize: nat

    constructor (store: MemoryMeetingStore)
      ensures this.store == store && batchSize == 100
    {
      this.store, batchSize := store, 100;
    }

    method WithBatchSize(size: nat)
      modifies this
      ensures batchSize >= 1 && (size >= 1 ==> batchSize == size)
    {
      batchSize := if size >= 1 then size else 1;
    }

    /** One run; `answers` tells which deliveries succeed. No mark is ever refused. */
    method RunOnceAt(dueAt: string, answers: nat -> bool) returns (summary: Summary)
      requires store.Valid()
      modifies store
      ensures store.Valid()
      ensures store.Contents() == RunOnce(old(store.Contents()), dueAt, batchSize, answers)
      ensures var jobs := Jobs(old(store.Contents()), dueAt, batchSize);
              summary == Summary(|jobs|, CountSent(jobs, answers), CountFailed(jobs, answers))
      ensures summary.scanned == summary.sent + summary.failed
      ensures exists jobs :: RanExactly(old(store.Contents()), store.Contents(), dueAt, batchSize, answers, jobs)
      ensures HowMany(store.Contents(), Pending) == HowMany(old(store.Contents()), Pending) - summary.scanned
      ensures HowMany(store.Contents(), Sent) == HowMany(old(store.Contents()), Sent) + summary.sent
      ensures HowMany(store.Contents(), Failed) == HowMany(old(store.Contents()), Failed) + summary.failed
    {
      RunExact(store.Contents(), dueAt, batchSize, answers);
      var jobs := store.ListDueReminders(dueAt, batchSize);
      JobsPending(store.Contents(), dueAt, batchSize);
      var sent, failed := DeliverAll(jobs, answers);
      ScannedIsSentPlusFailed(jobs, answers);
      return Summary(|jobs|, sent, failed);
    }

    /** The loop over the jobs. */
    method DeliverAll(jobs: seq<nat>, answers: nat -> bool) returns (sent: nat, failed: nat)
      requires store.Valid() && AllPending(store.Contents(), jobs)
      modifies store
      ensures store.Valid() && store.Contents() == MarkAll(old(store.Contents()), jobs, answers)
      ensures sent == CountSent(jobs, answers) && failed == CountFailed(jobs, answers)
    {
      ghost var st := store.Contents();
      sent, failed := 0, 0;
      for i := 0 to |jobs|
        invariant store.Valid()
        invariant store.Contents() == MarkAll(st, jobs[..i], answers)
        invariant sent == CountSent(jobs[..i], answers) && failed == CountFailed(jobs[..i], answers)
      {
        assert jobs[..i + 1][..i] == jobs[..i];
        StillPending(st, jobs, answers, i);
        MarkJob(jobs[i], answers(jobs[i]));
        if answers(jobs[i]) {
          sent := sent + 1;
        } else {
          failed := failed + 1;
        }
      }
      assert jobs[..|jobs|] == jobs;
    }

    /** Records the answer of a delivery; a pending reminder is always found. */
    method MarkJob(id: nat, ok: bool)
      requires store.Valid() && id in store.flat && store.flat[id].status == Pending
      modifies store
      ensures store.Valid() && store.Contents() == Mark(old(store.Contents()), id, ok)
    {
      if ok {
        var found := store.UpdateReminderStatus(id, Sent);
      } else {
        var found := store.UpdateReminderStatus(id, Failed);
      }
    }
  }

  ghost predicate AllPending(st: State, jobs: seq<nat>) {
    Distinct(jobs) && forall i :: 0 <= i < |jobs| ==> jobs[i] in st.reminders && st.reminders[jobs[i]].status == Pending
  }

  lemma JobsPending(st: State, dueAt: string, batch: nat)
    ensures AllPending(st, Jobs(st, dueAt, batch))
  {
    DueListIs(st, dueAt);
    var l := DueList(st, dueAt);
    InOrderDistinct(st.reminders, l);
    TakeMembers(l, batch);
  }

  /** The jobs a run has not reached yet are still pending. */
  lemma StillPending(st: State, jobs: seq<nat>, answers: nat -> bool, i: nat)
    requires i < |jobs| && AllPending(st, jobs)
    ensures var st' := MarkAll(st, jobs[..i], answers);
            jobs[i] in st'.reminders && st'.reminders[jobs[i]].status == Pending
  {
    MarkAllMeans(st, jobs[..i], answers);
    assert jobs[i] !in jobs[..i];
  }
}
