/** What retention runs do to the stores: later runs absorb earlier ones, and nothing else is touched. */
module RetentionRuns {
  import opened Outcomes
  import opened Sums
  import opened Timestamps
  import opened Retention
  import A = Attachments

  // ---- counting sets and lists ----

  lemma SplitSet(a: set<nat>, b: set<nat>)
    requires a <= b
    ensures |a| + |b - a| == |b|
  {
    assert b == a + (b - a);
  }

  // ---- the texts of the records ----

  ghost predicate MessageTexts(ms: map<nat, Message>, texts: iset<string>) {
    forall id :: id in ms ==> ms[id].createdAt in texts && Within(ms[id].deletedAt, texts)
  }

  ghost predicate FileTexts(st: A.Store, texts: iset<string>) {
    forall id :: id in st.attachments ==> st.attachments[id].createdAt in texts
  }

  ghost predicate EventTexts(es: seq<AuditEvent>, texts: iset<string>) {
    forall i :: 0 <= i < |es| ==> es[i].createdAt in texts
  }

  ghost predicate AuditTexts(audit: map<nat, seq<AuditEvent>>, texts: iset<string>) {
    forall space :: space in audit ==> EventTexts(audit[space], texts)
  }

  /** Every timestamp text of the data is one of some texts. */
  ghost predicate DataTexts(d: Data, texts: iset<string>) {
    MessageTexts(d.messages, texts) && FileTexts(d.files, texts) && AuditTexts(d.audit, texts)
  }

  lemma {:induction false} KeptTexts(es: seq<AuditEvent>, org: nat, c: Cutoffs, texts: iset<string>)
    requires EventTexts(es, texts)
    ensures EventTexts(KeptEvents(es, org, c), texts)
  {
    if es != [] { KeptTexts(es[..|es| - 1], org, c, texts); }
  }

  lemma PurgeKeepsTexts(d: Data, org: nat, c: Cutoffs, texts: iset<string>)
    requires DataTexts(d, texts)
    ensures DataTexts(Purge(d, org, c), texts)
  {
    forall space | space in d.audit ensures EventTexts(KeptEvents(d.audit[space], org, c), texts) {
      KeptTexts(d.audit[space], org, c, texts);
    }
  }

  // ---- one store at a time: the same organization again, later ----

  lemma MessagesAgain(texts: iset<string>, ms: map<nat, Message>, org: nat, c: Cutoffs, c': Cutoffs)
    requires Later(texts, c, c') && MessageTexts(ms, texts)
    ensures PurgeMessages(PurgeMessages(ms, org, c), org, c') == PurgeMessages(ms, org, c')
    ensures |ExpiredMessages(ms, org, c)| + |ExpiredMessages(PurgeMessages(ms, org, c), org, c')| == |ExpiredMessages(ms, org, c')|
  {
    var e, e' := ExpiredMessages(ms, org, c), ExpiredMessages(ms, org, c');
    assert e <= e';
    assert ExpiredMessages(PurgeMessages(ms, org, c), org, c') == e' - e;
    SplitSet(e, e');
  }

  lemma FilesAgain(texts: iset<string>, st: A.Store, org: nat, c: Cutoffs, c': Cutoffs)
    requires Later(texts, c, c') && FileTexts(st, texts)
    ensures A.PurgeStore(A.PurgeStore(st, org, c.files), org, c'.files) == A.PurgeStore(st, org, c'.files)
    ensures |A.ExpiredIds(st, org, c.files)| + |A.ExpiredIds(A.PurgeStore(st, org, c.files), org, c'.files)| ==
              |A.ExpiredIds(st, org, c'.files)|
  {
    var e, e' := A.ExpiredIds(st, org, c.files), A.ExpiredIds(st, org, c'.files);
    forall id | id in e ensures id in e' {
      assert Before(Some(st.attachments[id].createdAt), c.files);
      assert Before(Some(st.attachments[id].createdAt), c'.files);
    }
    assert A.ExpiredIds(A.PurgeStore(st, org, c.files), org, c'.files) == e' - e;
    SplitSet(e, e');
  }

  lemma {:induction false} EventsAgain(texts: iset<string>, es: seq<AuditEvent>, org: nat, c: Cutoffs, c': Cutoffs)
    requires Later(texts, c, c') && EventTexts(es, texts)
    ensures KeptEvents(KeptEvents(es, org, c), org, c') == KeptEvents(es, org, c')
    ensures ExpiredEvents(es, org, c) + ExpiredEvents(KeptEvents(es, org, c), org, c') == ExpiredEvents(es, org, c')
  {
    if es != [] {
      var init, e := es[..|es| - 1], es[|es| - 1];
      EventsAgain(texts, init, org, c, c');
      var k := KeptEvents(init, org, c);
      assert (k + [e])[..|k|] == k;
      assert EventExpired(e, org, c) ==> EventExpired(e, org, c');
    }
  }

  lemma AuditAgain(texts: iset<string>, audit: map<nat, seq<AuditEvent>>, org: nat, c: Cutoffs, c': Cutoffs)
    requires Later(texts, c, c') && AuditTexts(audit, texts)
    ensures PurgeAudit(PurgeAudit(audit, org, c), org, c') == PurgeAudit(audit, org, c')
    ensures Total(ExpiredBySpace(audit, org, c)) + Total(ExpiredBySpace(PurgeAudit(audit, org, c), org, c'))
            == Total(ExpiredBySpace(audit, org, c'))
  {
    forall space | space in audit
      ensures KeptEvents(KeptEvents(audit[space], org, c), org, c') == KeptEvents(audit[space], org, c')
      ensures ExpiredEvents(audit[space], org, c) + ExpiredEvents(KeptEvents(audit[space], org, c), org, c')
              == ExpiredEvents(audit[space], org, c')
    {
      EventsAgain(texts, audit[space], org, c, c');
    }
    TotalAdd(ExpiredBySpace(audit, org, c), ExpiredBySpace(PurgeAudit(audit, org, c), org, c'), ExpiredBySpace(audit, org, c'));
  }

  /** Purging later absorbs purging earlier, and the counts add up. */
  lemma PurgeAgain(texts: iset<string>, d: Data, org: nat, c: Cutoffs, c': Cutoffs)
    requires Later(texts, c, c') && DataTexts(d, texts)
    ensures Purge(Purge(d, org, c), org, c') == Purge(d, org, c')
    ensures Count(d, org, c).Plus(Count(Purge(d, org, c), org, c')) == Count(d, org, c')
  {
    MessagesAgain(texts, d.messages, org, c, c');
    FilesAgain(texts, d.files, org, c, c');
    AuditAgain(texts, d.audit, org, c, c');
  }

  // ---- two organizations do not interfere ----

  lemma {:induction false} EventsApart(es: seq<AuditEvent>, a: nat, c: Cutoffs, b: nat, c': Cutoffs)
    requires a != b
    ensures KeptEvents(KeptEvents(es, a, c), b, c') == KeptEvents(KeptEvents(es, b, c'), a, c)
    ensures ExpiredEvents(KeptEvents(es, a, c), b, c') == ExpiredEvents(es, b, c')
  {
    if es != [] {
      var init, e := es[..|es| - 1], es[|es| - 1];
      EventsApart(init, a, c, b, c');
      var k, l := KeptEvents(init, a, c), KeptEvents(init, b, c');
      assert (k + [e])[..|k|] == k && (l + [e])[..|l|] == l;
    }
  }

  lemma MessagesApart(ms: map<nat, Message>, a: nat, c: Cutoffs, b: nat, c': Cutoffs)
    requires a != b
    ensures PurgeMessages(PurgeMessages(ms, a, c), b, c') == PurgeMessages(PurgeMessages(ms, b, c'), a, c)
    ensures ExpiredMessages(PurgeMessages(ms, a, c), b, c') == ExpiredMessages(ms, b, c')
  {
  }

  lemma FilesApart(st: A.Store, a: nat, c: Option<string>, b: nat, c': Option<string>)
    requires a != b
    ensures A.PurgeStore(A.PurgeStore(st, a, c), b, c') == A.PurgeStore(A.PurgeStore(st, b, c'), a, c)
    ensures A.ExpiredIds(A.PurgeStore(st, a, c), b, c') == A.ExpiredIds(st, b, c')
  {
    assert A.ExpiredIds(A.PurgeStore(st, a, c), b, c') == A.ExpiredIds(st, b, c');
    assert A.ExpiredIds(A.PurgeStore(st, b, c'), a, c) == A.ExpiredIds(st, a, c);
  }

  lemma AuditApart(audit: map<nat, seq<AuditEvent>>, a: nat, c: Cutoffs, b: nat, c': Cutoffs)
    requires a != b
    ensures PurgeAudit(PurgeAudit(audit, a, c), b, c') == PurgeAudit(PurgeAudit(audit, b, c'), a, c)
  {
    var l, r := PurgeAudit(PurgeAudit(audit, a, c), b, c'), PurgeAudit(PurgeAudit(audit, b, c'), a, c);
    assert l.Keys == r.Keys == audit.Keys;
    forall space | space in l ensures l[space] == r[space] {
      EventsApart(audit[space], a, c, b, c');
    }
  }

  lemma AuditCountApart(audit: map<nat, seq<AuditEvent>>, a: nat, c: Cutoffs, b: nat, c': Cutoffs)
    requires a != b
    ensures ExpiredBySpace(PurgeAudit(audit, a, c), b, c') == ExpiredBySpace(audit, b, c')
  {
    var l, r := ExpiredBySpace(PurgeAudit(audit, a, c), b, c'), ExpiredBySpace(audit, b, c');
    assert l.Keys == r.Keys == audit.Keys;
    forall space | space in l ensures l[space] == r[space] {
      EventsApart(audit[space], a, c, b, c');
    }
  }

  lemma PurgeApart(d: Data, a: nat, c: Cutoffs, b: nat, c': Cutoffs)
    requires a != b
    ensures Purge(Purge(d, a, c), b, c') == Purge(Purge(d, b, c'), a, c)
    ensures Count(Purge(d, a, c), b, c') == Count(d, b, c')
  {
    MessagesApart(d.messages, a, c, b, c');
    FilesApart(d.files, a, c.files, b, c'.files);
    AuditApart(d.audit, a, c, b, c');
    AuditCountApart(d.audit, a, c, b, c');
  }

  // ---- runs ----

  ghost predicate OneJobEach(jobs: seq<Option<Job>>) {
    forall i, j :: 0 <= i < j < |jobs| && jobs[i].Some? && jobs[j].Some? ==>
      jobs[i].value.organizationId != jobs[j].value.organizationId
  }

  ghost predicate HasJob(jobs: seq<Option<Job>>, org: nat) {
    exists i :: 0 <= i < |jobs| && jobs[i].Some? && jobs[i].value.organizationId == org
  }

  lemma RestOfJobs(jobs: seq<Option<Job>>)
    requires jobs != [] && jobs[0].Some? && OneJobEach(jobs)
    ensures OneJobEach(jobs[1..]) && !HasJob(jobs[1..], jobs[0].value.organizationId)
  {
    var rest := jobs[1..];
    forall i, j | 0 <= i < j < |rest| && rest[i].Some? && rest[j].Some?
      ensures rest[i].value.organizationId != rest[j].value.organizationId
    {
      assert rest[i] == jobs[i + 1] && rest[j] == jobs[j + 1];
    }
    forall i | 0 <= i < |rest| && rest[i].Some? ensures rest[i].value.organizationId != jobs[0].value.organizationId {
      assert rest[i] == jobs[i + 1];
    }
  }

  lemma TailHasNo(jobs: seq<Option<Job>>, org: nat)
    requires jobs != [] && !HasJob(jobs, org)
    ensures (jobs[0].Some? ==> jobs[0].value.organizationId != org) && !HasJob(jobs[1..], org)
  {
    var rest := jobs[1..];
    forall i | 0 <= i < |rest| && rest[i].Some? ensures rest[i].value.organizationId != org { assert rest[i] == jobs[i + 1]; }
  }

  /** Purging an organization without a job commutes with a run and leaves its counts alone. */
  lemma {:induction false} RunApart(d: Data, jobs: seq<Option<Job>>, dryRun: bool, org: nat, c: Cutoffs)
    requires !HasJob(jobs, org)
    ensures RunJobs(Purge(d, org, c), jobs, dryRun).data == Purge(RunJobs(d, jobs, dryRun).data, org, c)
    ensures RunJobs(Purge(d, org, c), jobs, dryRun).counts == RunJobs(d, jobs, dryRun).counts
    ensures RunJobs(Purge(d, org, c), jobs, dryRun).ok == RunJobs(d, jobs, dryRun).ok
    decreases |jobs|
  {
    if jobs != [] && jobs[0].Some? {
      TailHasNo(jobs, org);
      var job := jobs[0].value;
      PurgeApart(d, org, c, job.organizationId, job.cutoffs);
      RunApart(DataAfter(d, job, dryRun), jobs[1..], dryRun, org, c);
    }
  }

  lemma {:induction false} CountUntouched(d: Data, jobs: seq<Option<Job>>, dryRun: bool, org: nat, c: Cutoffs)
    requires !HasJob(jobs, org)
    ensures Count(RunJobs(d, jobs, dryRun).data, org, c) == Count(d, org, c)
    decreases |jobs|
  {
    if jobs != [] && jobs[0].Some? {
      TailHasNo(jobs, org);
      var job := jobs[0].value;
      PurgeApart(d, job.organizationId, job.cutoffs, org, c);
      CountUntouched(DataAfter(d, job, dryRun), jobs[1..], dryRun, org, c);
    }
  }

  lemma PlusShuffle(a: Counts, b: Counts, c: Counts, d: Counts)
    ensures a.Plus(b).Plus(c.Plus(d)) == a.Plus(c).Plus(b.Plus(d))
  {
  }

  /** The same organizations, with cutoffs that select at least as much. */
  ghost predicate LaterJobs(texts: iset<string>, jobs: seq<Option<Job>>, jobs': seq<Option<Job>>) {
    && |jobs| == |jobs'|
    && forall i :: 0 <= i < |jobs| ==>
         && (jobs[i].Some? <==> jobs'[i].Some?)
         && (jobs[i].Some? ==> jobs[i].value.organizationId == jobs'[i].value.organizationId
                               && Later(texts, jobs[i].value.cutoffs, jobs'[i].value.cutoffs))
  }

  lemma LaterRest(texts: iset<string>, jobs: seq<Option<Job>>, jobs': seq<Option<Job>>)
    requires jobs != [] && LaterJobs(texts, jobs, jobs')
    ensures LaterJobs(texts, jobs[1..], jobs'[1..])
  {
    var rest, rest' := jobs[1..], jobs'[1..];
    forall i | 0 <= i < |rest|
      ensures (rest[i].Some? <==> rest'[i].Some?)
      ensures rest[i].Some? ==> rest[i].value.organizationId == rest'[i].value.organizationId
                                && Later(texts, rest[i].value.cutoffs, rest'[i].value.cutoffs)
    {
      assert rest[i] == jobs[i + 1] && rest'[i] == jobs'[i + 1];
    }
  }

  /** The outcome of a job followed by others. */
  ghost function Then(d: Data, org: nat, c: Cutoffs, rest: seq<Option<Job>>): Outcome {
    var o := RunJobs(Purge(d, org, c), rest, false);
    Outcome(o.data, Count(d, org, c).Plus(o.counts), o.ok)
  }

  /** Two runs in a row come to one run. */
  ghost predicate Composes(first: Outcome, second: Outcome, only: Outcome) {
    second.data == only.data && first.counts.Plus(second.counts) == only.counts && first.ok == second.ok == only.ok
  }

  lemma ComposeHead(texts: iset<string>, d: Data, org: nat, c: Cutoffs, c': Cutoffs, rest: seq<Option<Job>>, rest': seq<Option<Job>>)
    requires Later(texts, c, c') && DataTexts(d, texts) && !HasJob(rest, org) && !HasJob(rest', org)
    requires var first := RunJobs(Purge(d, org, c), rest, false);
             Composes(first, RunJobs(first.data, rest', false), RunJobs(Purge(d, org, c), rest', false))
    ensures var first := Then(d, org, c, rest);
            Composes(first, Then(first.data, org, c', rest'), Then(d, org, c', rest'))
  {
    var d1 := Purge(d, org, c);
    var r1 := RunJobs(d1, rest, false);
    PurgeAgain(texts, d, org, c, c');
    RunApart(d1, rest, false, org, c');
    RunApart(r1.data, rest', false, org, c');
    RunApart(d1, rest', false, org, c');
    RunApart(d, rest', false, org, c);
    RunApart(d, rest', false, org, c');
    CountUntouched(d1, rest, false, org, c');
    PlusShuffle(Count(d, org, c), r1.counts, Count(d1, org, c'), RunJobs(r1.data, rest', false).counts);
  }

  lemma RunHead(d: Data, jobs: seq<Option<Job>>)
    requires jobs != [] && jobs[0].Some?
    ensures RunJobs(d, jobs, false) == Then(d, jobs[0].value.organizationId, jobs[0].value.cutoffs, jobs[1..])
  {
  }

  lemma {:induction false} JobsCompose(texts: iset<string>, d: Data, jobs: seq<Option<Job>>, jobs': seq<Option<Job>>)
    requires OneJobEach(jobs) && OneJobEach(jobs') && LaterJobs(texts, jobs, jobs') && DataTexts(d, texts)
    ensures var first := RunJobs(d, jobs, false);
            Composes(first, RunJobs(first.data, jobs', false), RunJobs(d, jobs', false))
    decreases |jobs|
  {
    if jobs != [] && jobs[0].Some? {
      var org, c, c' := jobs[0].value.organizationId, jobs[0].value.cutoffs, jobs'[0].value.cutoffs;
      RestOfJobs(jobs);
      RestOfJobs(jobs');
      LaterRest(texts, jobs, jobs');
      PurgeKeepsTexts(d, org, c, texts);
      JobsCompose(texts, Purge(d, org, c), jobs[1..], jobs'[1..]);
      ComposeHead(texts, d, org, c, c', jobs[1..], jobs'[1..]);
      RunHead(d, jobs);
      RunHead(RunJobs(d, jobs, false).data, jobs');
      RunHead(d, jobs');
    }
  }

  lemma PlanOneEach(ps: seq<Policy>, now: Moment)
    requires OnePolicyEach(ps)
    ensures OneJobEach(Plan(ps, now))
  {
    var jobs := Plan(ps, now);
    forall i, j | 0 <= i < j < |jobs| && jobs[i].Some? && jobs[j].Some?
      ensures jobs[i].value.organizationId != jobs[j].value.organizationId
    {
      assert jobs[i] == JobOf(ps[i], now) && jobs[j] == JobOf(ps[j], now);
    }
  }

  lemma PlanLater(texts: iset<string>, ps: seq<Policy>, now: Moment, now': Moment)
    requires Comparable(texts, now) && now <= now'
    ensures LaterJobs(texts, Plan(ps, now), Plan(ps, now'))
  {
    forall i | 0 <= i < |ps| && PolicyOk(ps[i]) ensures Later(texts, CutoffsOf(ps[i], now), CutoffsOf(ps[i], now')) {
      CutoffsLater(texts, ps[i], now, now');
    }
  }

  /**
   Running at one time and then at a later one leaves the same stores, and purges the same
   numbers of records in all, as running at the later time only. For records with the texts
   that the service writes this holds for every two run times.
   */
  lemma RunsCompose(texts: iset<string>, d: Data, ps: seq<Policy>, now: Moment, now': Moment)
    requires OnePolicyEach(ps) && DataTexts(d, texts) && Comparable(texts, now) && now <= now'
    ensures var first := Run(d, ps, now, false);
            Composes(first, Run(first.data, ps, now', false), Run(d, ps, now', false))
  {
    PlanOneEach(ps, now);
    PlanOneEach(ps, now');
    PlanLater(texts, ps, now, now');
    JobsCompose(texts, d, Plan(ps, now), Plan(ps, now'));
  }

  lemma {:induction false} DryJobs(d: Data, jobs: seq<Option<Job>>)
    requires OneJobEach(jobs)
    ensures var dry, real_ := RunJobs(d, jobs, true), RunJobs(d, jobs, false);
            dry.data == d && dry.counts == real_.counts && dry.ok == real_.ok
    decreases |jobs|
  {
    if jobs != [] && jobs[0].Some? {
      RestOfJobs(jobs);
      DryJobs(d, jobs[1..]);
      RunApart(d, jobs[1..], false, jobs[0].value.organizationId, jobs[0].value.cutoffs);
    }
  }

  /** A dry run changes nothing and reports the counts a real run would. */
  lemma DryRunReports(d: Data, ps: seq<Policy>, now: Moment)
    requires OnePolicyEach(ps)
    ensures var dry, real_ := Run(d, ps, now, true), Run(d, ps, now, false);
            dry.data == d && dry.counts == real_.counts && dry.ok == real_.ok
  {
    PlanOneEach(ps, now);
    DryJobs(d, Plan(ps, now));
  }

  // ---- organizations without a policy ----

  function EventsOf(es: seq<AuditEvent>, org: nat): seq<AuditEvent> {
    if es == [] then []
    else
      var init, e := EventsOf(es[..|es| - 1], org), es[|es| - 1];
      if e.organizationId == org then init + [e] else init
  }

  /** Everything the three stores hold for one organization. */
  function View(d: Data, org: nat): Data {
    Data(map id | id in d.messages && d.messages[id].organizationId == org :: d.messages[id],
         A.Store(map id | id in d.files.attachments && d.files.attachments[id].place.organizationId == org :: d.files.attachments[id],
                 map id | id in d.files.contents && id in d.files.attachments && d.files.attachments[id].place.organizationId == org :: d.files.contents[id]),
         map space | space in d.audit :: EventsOf(d.audit[space], org))
  }

  lemma {:induction false} EventsOfOthers(es: seq<AuditEvent>, org: nat, other: nat, c: Cutoffs)
    requires org != other
    ensures EventsOf(KeptEvents(es, other, c), org) == EventsOf(es, org)
  {
    if es != [] {
      var init, e := es[..|es| - 1], es[|es| - 1];
      EventsOfOthers(init, org, other, c);
      var k := KeptEvents(init, other, c);
      assert (k + [e])[..|k|] == k;
    }
  }

  lemma AuditLeavesOthers(audit: map<nat, seq<AuditEvent>>, org: nat, other: nat, c: Cutoffs)
    requires org != other
    ensures forall space :: space in audit ==> EventsOf(KeptEvents(audit[space], other, c), org) == EventsOf(audit[space], org)
  {
    forall space | space in audit ensures EventsOf(KeptEvents(audit[space], other, c), org) == EventsOf(audit[space], org) {
      EventsOfOthers(audit[space], org, other, c);
    }
  }

  lemma FilesLeaveOthers(d: Data, org: nat, other: nat, c: Cutoffs)
    requires org != other
    ensures View(Purge(d, other, c), org).files == View(d, org).files
  {
    assert View(Purge(d, other, c), org).files.attachments == View(d, org).files.attachments;
    assert View(Purge(d, other, c), org).files.contents == View(d, org).files.contents;
  }

  lemma PurgeLeavesOthers(d: Data, org: nat, other: nat, c: Cutoffs)
    requires org != other
    ensures View(Purge(d, other, c), org) == View(d, org)
  {
    var d' := Purge(d, other, c);
    AuditLeavesOthers(d.audit, org, other, c);
    FilesLeaveOthers(d, org, other, c);
    assert View(d', org).messages == View(d, org).messages;
    assert View(d', org).audit == View(d, org).audit;
  }

  lemma {:induction false} JobsLeaveOthers(d: Data, jobs: seq<Option<Job>>, dryRun: bool, org: nat)
    requires !HasJob(jobs, org)
    ensures View(RunJobs(d, jobs, dryRun).data, org) == View(d, org)
    decreases |jobs|
  {
    if jobs != [] && jobs[0].Some? {
      TailHasNo(jobs, org);
      var job := jobs[0].value;
      PurgeLeavesOthers(d, org, job.organizationId, job.cutoffs);
      JobsLeaveOthers(DataAfter(d, job, dryRun), jobs[1..], dryRun, org);
    }
  }

  /** What belongs to an organization without a policy is untouched. */
  lemma OthersUntouched(d: Data, ps: seq<Policy>, now: Moment, dryRun: bool, org: nat)
    requires !HasPolicy(ps, org)
    ensures View(Run(d, ps, now, dryRun).data, org) == View(d, org)
  {
    var jobs := Plan(ps, now);
    forall i | 0 <= i < |jobs| && jobs[i].Some? ensures jobs[i].value.organizationId != org {
      assert jobs[i] == JobOf(ps[i], now) && ps[i].organizationId != org;
    }
    JobsLeaveOthers(d, jobs, dryRun, org);
  }

  // ---- what exactly is purged ----

  /** A run takes the jobs up to the first that is missing. */
  ghost predicate Taken(jobs: seq<Option<Job>>, i: nat) {
    i < |jobs| && forall j :: 0 <= j <= i ==> jobs[j].Some?
  }

  /** Some job that the run takes, with its organization and cutoffs, expires the record. */
  ghost predicate Under(jobs: seq<Option<Job>>, expires: (nat, Cutoffs) -> bool) {
    exists i: nat :: Taken(jobs, i) && expires(jobs[i].value.organizationId, jobs[i].value.cutoffs)
  }

  lemma TakenRest(jobs: seq<Option<Job>>, i: nat)
    requires jobs != [] && jobs[0].Some?
    ensures Taken(jobs[1..], i) <==> Taken(jobs, i + 1)
  {
    var rest := jobs[1..];
    assert forall j :: 0 <= j < |rest| ==> rest[j] == jobs[j + 1];
    if Taken(rest, i) {
      forall j | 0 <= j <= i + 1 ensures jobs[j].Some? { if j > 0 { assert rest[j - 1].Some?; } }
    }
  }

  lemma UnderHead(jobs: seq<Option<Job>>, expires: (nat, Cutoffs) -> bool)
    requires jobs != [] && jobs[0].Some?
    ensures Under(jobs, expires) <==> expires(jobs[0].value.organizationId, jobs[0].value.cutoffs) || Under(jobs[1..], expires)
  {
    var rest := jobs[1..];
    assert Taken(jobs, 0);
    if Under(jobs, expires) {
      var i: nat :| Taken(jobs, i) && expires(jobs[i].value.organizationId, jobs[i].value.cutoffs);
      if i > 0 {
        TakenRest(jobs, i - 1);
        assert rest[i - 1] == jobs[i];
      }
    }
    if Under(rest, expires) {
      var i: nat :| Taken(rest, i) && expires(rest[i].value.organizationId, rest[i].value.cutoffs);
      TakenRest(jobs, i);
      assert rest[i] == jobs[i + 1];
    }
  }

  ghost predicate AllThere(jobs: seq<Option<Job>>) {
    forall i :: 0 <= i < |jobs| ==> jobs[i].Some?
  }

  lemma AllThereRest(jobs: seq<Option<Job>>)
    requires jobs != []
    ensures AllThere(jobs) <==> jobs[0].Some? && AllThere(jobs[1..])
  {
    assert forall i :: 0 < i < |jobs| ==> jobs[i] == jobs[1..][i - 1];
  }

  /** A run goes through exactly when no job is missing. */
  lemma {:induction false} OkExactly(d: Data, jobs: seq<Option<Job>>, dryRun: bool)
    ensures RunJobs(d, jobs, dryRun).ok <==> AllThere(jobs)
    decreases |jobs|
  {
    if jobs != [] {
      AllThereRest(jobs);
      if jobs[0].Some? { OkExactly(DataAfter(d, jobs[0].value, dryRun), jobs[1..], dryRun); }
    }
  }

  /** The days are not set, or from 1 to 3650. */
  predicate DaysInRange(days: Option<int>) {
    days.None? || 1 <= days.value <= 3650
  }

  predicate InRange(p: Policy) {
    && DaysInRange(p.messagesRetainDays) && DaysInRange(p.filesRetainDays)
    && DaysInRange(p.auditLogsRetainDays) && DaysInRange(p.deletedMessagePurgeDays)
  }

  /** A run goes through exactly when the periods of every policy are in range. */
  lemma RunOkIff(d: Data, ps: seq<Policy>, now: Moment, dryRun: bool)
    ensures Run(d, ps, now, dryRun).ok <==> forall i :: 0 <= i < |ps| ==> InRange(ps[i])
  {
    OkExactly(d, Plan(ps, now), dryRun);
    assert forall i :: 0 <= i < |ps| ==> (JobOf(ps[i], now).Some? <==> InRange(ps[i]));
  }

  /** The run comes to the policy: it and all before it are in range. */
  ghost predicate ComesTo(ps: seq<Policy>, i: nat) {
    i < |ps| && forall j :: 0 <= j <= i ==> InRange(ps[j])
  }

  function ExpiresMessage(m: Message): (nat, Cutoffs) -> bool {
    (org: nat, c: Cutoffs) => MessageExpired(m, org, c)
  }

  function ExpiresFile(a: A.Attachment): (nat, Cutoffs) -> bool {
    (org: nat, c: Cutoffs) => A.Expired(a, org, c.files)
  }

  function ExpiresEvent(e: AuditEvent): (nat, Cutoffs) -> bool {
    (org: nat, c: Cutoffs) => EventExpired(e, org, c)
  }

  lemma PurgedMessage(ms: map<nat, Message>, org: nat, c: Cutoffs, id: nat)
    ensures id in PurgeMessages(ms, org, c) <==> id in ms && !MessageExpired(ms[id], org, c)
    ensures id in PurgeMessages(ms, org, c) ==> PurgeMessages(ms, org, c)[id] == ms[id]
  {
  }

  lemma PurgedFile(st: A.Store, org: nat, cutoff: Option<string>, id: nat)
    ensures id in A.PurgeStore(st, org, cutoff).attachments <==> id in st.attachments && !A.Expired(st.attachments[id], org, cutoff)
    ensures id in A.PurgeStore(st, org, cutoff).attachments ==> A.PurgeStore(st, org, cutoff).attachments[id] == st.attachments[id]
  {
  }

  lemma {:induction false} KeptEvent(es: seq<AuditEvent>, org: nat, c: Cutoffs, e: AuditEvent)
    ensures e in KeptEvents(es, org, c) <==> e in es && !EventExpired(e, org, c)
  {
    if es != [] {
      KeptEvent(es[..|es| - 1], org, c, e);
      assert es == es[..|es| - 1] + [es[|es| - 1]];
    }
  }

  /** A run keeps exactly the messages that have not expired under any policy it comes to. */
  lemma {:induction false} RunKeepsMessages(d: Data, jobs: seq<Option<Job>>, id: nat)
    ensures var kept := RunJobs(d, jobs, false).data.messages;
            && (id in kept <==> id in d.messages && !Under(jobs, ExpiresMessage(d.messages[id])))
            && (id in kept ==> kept[id] == d.messages[id])
    decreases |jobs|
  {
    if jobs != [] && jobs[0].Some? {
      var job := jobs[0].value;
      PurgedMessage(d.messages, job.organizationId, job.cutoffs, id);
      if id in d.messages { UnderHead(jobs, ExpiresMessage(d.messages[id])); }
      RunKeepsMessages(Purge(d, job.organizationId, job.cutoffs), jobs[1..], id);
    }
  }

  /** The same for attachments. */
  lemma {:induction false} RunKeepsFiles(d: Data, jobs: seq<Option<Job>>, id: nat)
    ensures var kept := RunJobs(d, jobs, false).data.files.attachments;
            && (id in kept <==> id in d.files.attachments && !Under(jobs, ExpiresFile(d.files.attachments[id])))
            && (id in kept ==> kept[id] == d.files.attachments[id])
    decreases |jobs|
  {
    if jobs != [] && jobs[0].Some? {
      var job := jobs[0].value;
      PurgedFile(d.files, job.organizationId, job.cutoffs.files, id);
      if id in d.files.attachments { UnderHead(jobs, ExpiresFile(d.files.attachments[id])); }
      RunKeepsFiles(Purge(d, job.organizationId, job.cutoffs), jobs[1..], id);
    }
  }

  /** The same for the audit events of a space. */
  lemma {:induction false} RunKeepsEvents(d: Data, jobs: seq<Option<Job>>, space: nat, e: AuditEvent)
    requires space in d.audit
    ensures var kept := RunJobs(d, jobs, false).data.audit;
            space in kept && (e in kept[space] <==> e in d.audit[space] && !Under(jobs, ExpiresEvent(e)))
    decreases |jobs|
  {
    if jobs != [] && jobs[0].Some? {
      var job := jobs[0].value;
      KeptEvent(d.audit[space], job.organizationId, job.cutoffs, e);
      UnderHead(jobs, ExpiresEvent(e));
      RunKeepsEvents(Purge(d, job.organizationId, job.cutoffs), jobs[1..], space, e);
    }
  }

  /** With one policy each, only the policy of its own organization can expire a record, if the run comes to it. */
  lemma UnderOwn(ps: seq<Policy>, now: Moment, expires: (nat, Cutoffs) -> bool, i: nat)
    requires OnePolicyEach(ps) && i < |ps| && forall org, c :: expires(org, c) ==> org == ps[i].organizationId
    ensures Under(Plan(ps, now), expires) <==>
              ComesTo(ps, i) && expires(ps[i].organizationId, CutoffsOf(ps[i], now))
  {
    var jobs := Plan(ps, now);
    assert forall j :: 0 <= j < |ps| ==> jobs[j] == JobOf(ps[j], now) && (jobs[j].Some? <==> InRange(ps[j]));
    assert Taken(jobs, i) <==> ComesTo(ps, i);
    forall j: nat | Taken(jobs, j) && expires(jobs[j].value.organizationId, jobs[j].value.cutoffs) ensures j == i {
      assert jobs[j] == JobOf(ps[j], now);
    }
  }

  /** The instant of a record lies more than a period of days, if one is set, before now. */
  predicate OlderThan(at: Instant, days: Option<int>, now: Moment) {
    days.Some? && at / NANOS_PER_MILLI + days.value * MILLIS_PER_DAY < now / NANOS_PER_MILLI
  }

  lemma BeforeIsOlder(now: Moment, days: Option<int>, at: Instant)
    requires DaysOk(days) && at < YEAR_10000
    ensures Before(Some(FormatMillis(at)), Cutoff(now, days)) <==> OlderThan(at, days, now)
  {
    if days.Some? { CutoffExact(now, days.value, at); }
  }

  /**
   A message of an organization with a policy, written at `created` and, if it is deleted,
   deleted at `deleted`: a run that comes to that policy keeps it exactly when neither period has
   passed. A run that ends before keeps it.
   */
  lemma MessageKeptIff(d: Data, ps: seq<Policy>, now: Moment, id: nat, created: Instant, deleted: Option<Instant>, i: nat)
    requires OnePolicyEach(ps) && id in d.messages && i < |ps|
    requires created < YEAR_10000 && (deleted.Some? ==> deleted.value < YEAR_10000)
    requires var m := d.messages[id];
             && m.organizationId == ps[i].organizationId && m.createdAt == FormatMillis(created)
             && m.deletedAt == (if deleted.Some? then Some(FormatMillis(deleted.value)) else None)
    ensures id in Run(d, ps, now, false).data.messages <==>
              (ComesTo(ps, i) ==>
                 && !OlderThan(created, ps[i].messagesRetainDays, now)
                 && !(deleted.Some? && OlderThan(deleted.value, ps[i].deletedMessagePurgeDays, now)))
  {
    RunKeepsMessages(d, Plan(ps, now), id);
    UnderOwn(ps, now, ExpiresMessage(d.messages[id]), i);
    if ComesTo(ps, i) {
      BeforeIsOlder(now, ps[i].messagesRetainDays, created);
      if deleted.Some? { BeforeIsOlder(now, ps[i].deletedMessagePurgeDays, deleted.value); }
    }
  }

  /** An attachment of such an organization: a run keeps it exactly while it is within the period for files. */
  lemma AttachmentKeptIff(d: Data, ps: seq<Policy>, now: Moment, id: nat, created: Instant, i: nat)
    requires OnePolicyEach(ps) && id in d.files.attachments && i < |ps|
    requires created < YEAR_10000
    requires var a := d.files.attachments[id];
             a.place.organizationId == ps[i].organizationId && a.createdAt == FormatMillis(created)
    ensures id in Run(d, ps, now, false).data.files.attachments <==>
              (ComesTo(ps, i) ==> !OlderThan(created, ps[i].filesRetainDays, now))
  {
    RunKeepsFiles(d, Plan(ps, now), id);
    UnderOwn(ps, now, ExpiresFile(d.files.attachments[id]), i);
    if ComesTo(ps, i) { BeforeIsOlder(now, ps[i].filesRetainDays, created); }
  }

  /** An audit event of such an organization, in whichever space it is logged. */
  lemma AuditEventKeptIff(d: Data, ps: seq<Policy>, now: Moment, space: nat, e: AuditEvent, created: Instant, i: nat)
    requires OnePolicyEach(ps) && space in d.audit && e in d.audit[space] && i < |ps|
    requires created < YEAR_10000
    requires e.organizationId == ps[i].organizationId && e.createdAt == FormatMillis(created)
    ensures var kept := Run(d, ps, now, false).data.audit;
            space in kept && (e in kept[space] <==> (ComesTo(ps, i) ==> !OlderThan(created, ps[i].auditLogsRetainDays, now)))
  {
    RunKeepsEvents(d, Plan(ps, now), space, e);
    UnderOwn(ps, now, ExpiresEvent(e), i);
    if ComesTo(ps, i) { BeforeIsOlder(now, ps[i].auditLogsRetainDays, created); }
  }
}
