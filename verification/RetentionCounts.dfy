/** The numbers that retention runs report: what they count is what is gone. */
module RetentionCounts {
  import opened Outcomes
  import opened Sums
  import opened Timestamps
  import opened Retention
  import opened RetentionRuns
  import A = Attachments

  // ---- the sizes of the stores ----

  function EventCounts(audit: map<nat, seq<AuditEvent>>): map<nat, nat> {
    map space | space in audit :: |audit[space]|
  }

  /** The messages, the attachments, and the audit events of all spaces. */
  ghost function MessageCount(d: Data): nat { |d.messages| }
  ghost function FileCount(d: Data): nat { |d.files.attachments| }
  ghost function EventCount(d: Data): nat { Total(EventCounts(d.audit)) }

  /** The counts are the numbers of records of each store that are in `d` and gone from `d'`. */
  ghost predicate Gone(d: Data, d': Data, n: Counts) {
    && MessageCount(d) == MessageCount(d') + n.messages
    && FileCount(d) == FileCount(d') + n.files
    && EventCount(d) == EventCount(d') + n.audit
  }

  // ---- one organization ----

  lemma MessagesGone(ms: map<nat, Message>, org: nat, c: Cutoffs)
    ensures |ms| == |PurgeMessages(ms, org, c)| + |ExpiredMessages(ms, org, c)|
  {
    var gone := ExpiredMessages(ms, org, c);
    assert (ms - gone).Keys == ms.Keys - gone;
    SplitSet(gone, ms.Keys);
    assert |ms.Keys| == |ms| && |(ms - gone).Keys| == |ms - gone|;
  }

  lemma FilesGone(st: A.Store, org: nat, cutoff: Option<string>)
    ensures |st.attachments| == |A.PurgeStore(st, org, cutoff).attachments| + |A.ExpiredIds(st, org, cutoff)|
  {
    var gone := A.ExpiredIds(st, org, cutoff);
    var kept := st.attachments - gone;
    assert kept.Keys == st.attachments.Keys - gone;
    SplitSet(gone, st.attachments.Keys);
    assert |st.attachments.Keys| == |st.attachments| && |kept.Keys| == |kept|;
  }

  lemma {:induction false} EventsGone(es: seq<AuditEvent>, org: nat, c: Cutoffs)
    ensures |es| == |KeptEvents(es, org, c)| + ExpiredEvents(es, org, c)
  {
    if es != [] { EventsGone(es[..|es| - 1], org, c); }
  }

  lemma AuditGone(audit: map<nat, seq<AuditEvent>>, org: nat, c: Cutoffs)
    ensures Total(EventCounts(audit)) == Total(EventCounts(PurgeAudit(audit, org, c))) + Total(ExpiredBySpace(audit, org, c))
  {
    forall space | space in audit
      ensures |audit[space]| == |KeptEvents(audit[space], org, c)| + ExpiredEvents(audit[space], org, c)
    {
      EventsGone(audit[space], org, c);
    }
    TotalAdd(EventCounts(PurgeAudit(audit, org, c)), ExpiredBySpace(audit, org, c), EventCounts(audit));
  }

  lemma PurgeGone(d: Data, org: nat, c: Cutoffs)
    ensures Gone(d, Purge(d, org, c), Count(d, org, c))
  {
    MessagesGone(d.messages, org, c);
    FilesGone(d.files, org, c.files);
    AuditGone(d.audit, org, c);
  }

  lemma GoneTwice(d: Data, d1: Data, d2: Data, a: Counts, b: Counts)
    requires Gone(d, d1, a) && Gone(d1, d2, b)
    ensures Gone(d, d2, a.Plus(b))
  {
  }

  lemma {:induction false} JobsGone(d: Data, jobs: seq<Option<Job>>)
    ensures Gone(d, RunJobs(d, jobs, false).data, RunJobs(d, jobs, false).counts)
    decreases |jobs|
  {
    if jobs != [] && jobs[0].Some? {
      var org, c := jobs[0].value.organizationId, jobs[0].value.cutoffs;
      var d1 := Purge(d, org, c);
      PurgeGone(d, org, c);
      JobsGone(d1, jobs[1..]);
      GoneTwice(d, d1, RunJobs(d1, jobs[1..], false).data, Count(d, org, c), RunJobs(d1, jobs[1..], false).counts);
    }
  }

  /**
   What a run reports is what it removed, also when an unacceptable policy ends it: the messages,
   the attachments and the audit events of all spaces that were there before and are not afterwards.
   */
  lemma CountsAreRemovals(d: Data, ps: seq<Policy>, now: Moment)
    ensures var o := Run(d, ps, now, false);
            && |d.messages| == |o.data.messages| + o.counts.messages
            && |d.files.attachments| == |o.data.files.attachments| + o.counts.files
            && Total(EventCounts(d.audit)) == Total(EventCounts(o.data.audit)) + o.counts.audit
  {
    JobsGone(d, Plan(ps, now));
  }

  // ---- the share of one organization ----

  lemma {:induction false} OwnEvents(es: seq<AuditEvent>, org: nat, c: Cutoffs)
    ensures EventsOf(KeptEvents(es, org, c), org) == KeptEvents(EventsOf(es, org), org, c)
    ensures ExpiredEvents(EventsOf(es, org), org, c) == ExpiredEvents(es, org, c)
  {
    if es != [] {
      var init, e := es[..|es| - 1], es[|es| - 1];
      OwnEvents(init, org, c);
      assert (EventsOf(init, org) + [e])[..|EventsOf(init, org)|] == EventsOf(init, org);
      assert (KeptEvents(init, org, c) + [e])[..|KeptEvents(init, org, c)|] == KeptEvents(init, org, c);
    }
  }

  lemma OwnAudit(d: Data, org: nat, c: Cutoffs)
    ensures View(Purge(d, org, c), org).audit == Purge(View(d, org), org, c).audit
    ensures ExpiredBySpace(View(d, org).audit, org, c) == ExpiredBySpace(d.audit, org, c)
  {
    forall space | space in d.audit
      ensures EventsOf(KeptEvents(d.audit[space], org, c), org) == KeptEvents(EventsOf(d.audit[space], org), org, c)
      ensures ExpiredEvents(EventsOf(d.audit[space], org), org, c) == ExpiredEvents(d.audit[space], org, c)
    {
      OwnEvents(d.audit[space], org, c);
    }
  }

  lemma OwnMessages(d: Data, org: nat, c: Cutoffs)
    ensures View(Purge(d, org, c), org).messages == Purge(View(d, org), org, c).messages
    ensures ExpiredMessages(View(d, org).messages, org, c) == ExpiredMessages(d.messages, org, c)
  {
  }

  lemma OwnFiles(d: Data, org: nat, c: Cutoffs)
    ensures View(Purge(d, org, c), org).files.attachments == Purge(View(d, org), org, c).files.attachments
    ensures A.ExpiredIds(View(d, org).files, org, c.files) == A.ExpiredIds(d.files, org, c.files)
  {
  }

  lemma SameRecords(d: Data, x: Data, y: Data, n: Counts)
    requires Gone(d, x, n) && x.messages == y.messages && x.files.attachments == y.files.attachments && x.audit == y.audit
    ensures Gone(d, y, n)
  {
  }

  lemma OwnCount(d: Data, org: nat, c: Cutoffs)
    ensures Count(View(d, org), org, c) == Count(d, org, c)
  {
    OwnAudit(d, org, c);
    OwnMessages(d, org, c);
    OwnFiles(d, org, c);
  }

  /** What a purge counts for an organization is what that organization loses. */
  lemma OwnGone(d: Data, org: nat, c: Cutoffs)
    ensures Gone(View(d, org), View(Purge(d, org, c), org), Count(d, org, c))
  {
    var own, left, n := View(d, org), View(Purge(d, org, c), org), Count(d, org, c);
    OwnCount(d, org, c);
    PurgeGone(own, org, c);
    OwnAudit(d, org, c);
    OwnMessages(d, org, c);
    OwnFiles(d, org, c);
    SameRecords(own, Purge(own, org, c), left, n);
  }

  /** Of one organization, a run leaves what the purge for it alone would leave. */
  lemma {:induction false} OwnShare(d: Data, jobs: seq<Option<Job>>, i: nat)
    requires OneJobEach(jobs) && Taken(jobs, i)
    ensures var org, c := jobs[i].value.organizationId, jobs[i].value.cutoffs;
            View(RunJobs(d, jobs, false).data, org) == View(Purge(d, org, c), org)
    decreases |jobs|
  {
    var org, c := jobs[i].value.organizationId, jobs[i].value.cutoffs;
    assert jobs[0].Some?;
    var first, rest := jobs[0].value, jobs[1..];
    RestOfJobs(jobs);
    if i == 0 {
      JobsLeaveOthers(Purge(d, org, c), rest, false, org);
    } else {
      TakenRest(jobs, i - 1);
      OwnShare(Purge(d, first.organizationId, first.cutoffs), rest, i - 1);
      PurgeApart(d, first.organizationId, first.cutoffs, org, c);
      PurgeLeavesOthers(Purge(d, org, c), org, first.organizationId, first.cutoffs);
    }
  }

  /** The counts of an organization that a run comes to are the numbers of its own records that are gone. */
  lemma ShareGone(d: Data, jobs: seq<Option<Job>>, i: nat)
    requires OneJobEach(jobs) && Taken(jobs, i)
    ensures var org, c := jobs[i].value.organizationId, jobs[i].value.cutoffs;
            Gone(View(d, org), View(RunJobs(d, jobs, false).data, org), Count(d, org, c))
  {
    OwnShare(d, jobs, i);
    OwnGone(d, jobs[i].value.organizationId, jobs[i].value.cutoffs);
  }

  // ---- the events that stay ----

  /** Event by event and in order: what is kept of a log is what is kept of its parts. */
  lemma {:induction false} KeptOfParts(a: seq<AuditEvent>, b: seq<AuditEvent>, org: nat, c: Cutoffs)
    ensures KeptEvents(a + b, org, c) == KeptEvents(a, org, c) + KeptEvents(b, org, c)
  {
    if b == [] {
      assert a + b == a;
    } else {
      assert (a + b)[..|a + b| - 1] == a + b[..|b| - 1];
      KeptOfParts(a, b[..|b| - 1], org, c);
    }
  }

  lemma KeptOfOne(e: AuditEvent, org: nat, c: Cutoffs)
    ensures KeptEvents([e], org, c) ==
              if e.organizationId == org && Before(Some(e.createdAt), c.audit) then [] else [e]
  {
    assert KeptEvents([e][..0], org, c) == [];
  }
}
