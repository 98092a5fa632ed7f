/** The stores and the worker as objects: the loops behind the functions of the retention model. */
module RetentionWorker {
  import opened Outcomes
  import opened Sums
  import opened Timestamps
  import opened Retention
  import opened RetentionRuns
  import opened RetentionCounts
  import A = Attachments

  class MemoryMessageStore {
    var messagesById: map<nat, Message>

    constructor ()
      ensures messagesById == map[]
    {
      messagesById := map[];
    }

    method PurgeForRetention(org: nat, c: Cutoffs, dryRun: bool) returns (purged: nat)
      modifies this
      ensures purged == |ExpiredMessages(old(messagesById), org, c)|
      ensures messagesById == if dryRun then old(messagesById) else PurgeMessages(old(messagesById), org, c)
    {
      var expired := ExpiredMessages(messagesById, org, c);
      purged := |expired|;
      if !dryRun {
        var rest := expired;
        while rest != {}
          invariant rest <= expired
          invariant messagesById == old(messagesById) - (expired - rest)
          decreases |rest|
        {
          var id :| id in rest;
          messagesById := messagesById - {id};
          rest := rest - {id};
        }
      }
    }
  }

  class MemoryAuditStore {
    var eventsBySpaceId: map<nat, seq<AuditEvent>>

    constructor ()
      ensures eventsBySpaceId == map[]
    {
      eventsBySpaceId := map[];
    }

    /** One space: its expired events are counted and, unless dry, dropped. */
    method PurgeSpace(space: nat, org: nat, c: Cutoffs, dryRun: bool) returns (count: nat)
      requires space in eventsBySpaceId
      modifies this
      ensures count == ExpiredEvents(old(eventsBySpaceId)[space], org, c)
      ensures eventsBySpaceId ==
                if dryRun then old(eventsBySpaceId)
                else old(eventsBySpaceId)[space := KeptEvents(old(eventsBySpaceId)[space], org, c)]
    {
      var events := eventsBySpaceId[space];
      count := ExpiredEvents(events, org, c);
      if !dryRun {
        eventsBySpaceId := eventsBySpaceId[space := KeptEvents(events, org, c)];
      }
    }

    /** The sweep over all spaces, against what each is to be left with and how many events it loses. */
    method Sweep(org: nat, c: Cutoffs, dryRun: bool, ghost kept: Events, ghost counts: map<nat, nat>) returns (purged: nat)
      requires eventsBySpaceId.Keys == kept.Keys == counts.Keys
      requires forall space :: space in kept ==>
                 && kept[space] == KeptEvents(eventsBySpaceId[space], org, c)
                 && counts[space] == ExpiredEvents(eventsBySpaceId[space], org, c)
      modifies this
      ensures purged == Total(counts) && eventsBySpaceId == if dryRun then old(eventsBySpaceId) else kept
    {
      purged := 0;
      var rest := eventsBySpaceId.Keys;
      ghost var olds := eventsBySpaceId;
      StartSweep(olds, kept, counts, dryRun);
      while rest != {}
        invariant rest <= olds.Keys
        invariant Sweeping(olds, kept, counts, rest, dryRun, eventsBySpaceId, purged)
        decreases |rest|
      {
        var space :| space in rest;
        SweepOne(olds, kept, counts, rest, dryRun, eventsBySpaceId, purged, space);
        var expiredCount := PurgeSpace(space, org, c, dryRun);
        purged := purged + expiredCount;
        rest := rest - {space};
      }
      EndSweep(olds, kept, counts, dryRun, eventsBySpaceId, purged);
    }

    method PurgeForRetention(org: nat, c: Cutoffs, dryRun: bool) returns (purged: nat)
      modifies this
      ensures purged == Total(ExpiredBySpace(old(eventsBySpaceId), org, c))
      ensures eventsBySpaceId == if dryRun then old(eventsBySpaceId) else PurgeAudit(old(eventsBySpaceId), org, c)
    {
      purged := Sweep(org, c, dryRun, PurgeAudit(eventsBySpaceId, org, c), ExpiredBySpace(eventsBySpaceId, org, c));
    }
  }

  type Events = map<nat, seq<AuditEvent>>

  /** Where the sweep over the spaces stands: all but the spaces in `rest` are done. */
  ghost predicate Sweeping(olds: Events, kept: Events, counts: map<nat, nat>, rest: set<nat>, dryRun: bool, now: Events, purged: nat) {
    && olds.Keys == kept.Keys == counts.Keys == now.Keys
    && (forall space :: space in now ==> now[space] == if dryRun || space in rest then olds[space] else kept[space])
    && purged == Total(counts - rest)
  }

  lemma StartSweep(olds: Events, kept: Events, counts: map<nat, nat>, dryRun: bool)
    requires olds.Keys == kept.Keys == counts.Keys
    ensures Sweeping(olds, kept, counts, olds.Keys, dryRun, olds, 0)
  {
    assert counts - olds.Keys == map[];
  }

  lemma SweepOne(olds: Events, kept: Events, counts: map<nat, nat>, rest: set<nat>, dryRun: bool, now: Events, purged: nat, space: nat)
    requires Sweeping(olds, kept, counts, rest, dryRun, now, purged) && space in rest && rest <= olds.Keys
    ensures now[space] == olds[space]
    ensures Sweeping(olds, kept, counts, rest - {space}, dryRun, if dryRun then now else now[space := kept[space]], purged + counts[space])
  {
    TotalPut(counts - rest, space, counts[space]);
    assert counts - (rest - {space}) == (counts - rest)[space := counts[space]];
  }

  lemma EndSweep(olds: Events, kept: Events, counts: map<nat, nat>, dryRun: bool, now: Events, purged: nat)
    requires Sweeping(olds, kept, counts, {}, dryRun, now, purged)
    ensures now == (if dryRun then olds else kept) && purged == Total(counts)
  {
    assert counts - {} == counts;
  }

  datatype RetentionRun = RetentionRun(organizationId: nat, dryRun: bool, counts: Counts, ranAt: string)

  function Recorded(runs: map<nat, seq<RetentionRun>>, r: RetentionRun): map<nat, seq<RetentionRun>> {
    runs[r.organizationId := (if r.organizationId in runs then runs[r.organizationId] else []) + [r]]
  }

  /** The policies in the order in which a run takes them: by organization, each once. */
  ghost predicate IsListing(policies: map<nat, Policy>, ps: seq<Policy>) {
    && (forall i, j :: 0 <= i < j < |ps| ==> ps[i].organizationId < ps[j].organizationId)
    && (forall i :: 0 <= i < |ps| ==> ps[i].organizationId in policies && policies[ps[i].organizationId] == ps[i])
    && (forall org :: org in policies ==> policies[org] in ps)
  }

  method Smallest(s: set<nat>) returns (m: nat)
    requires s != {}
    ensures m in s && forall x :: x in s ==> m <= x
  {
    m :| m in s;
    var rest := s - {m};
    while rest != {}
      invariant rest <= s && m in s && forall x :: x in s && x !in rest ==> m <= x
      decreases |rest|
    {
      var x :| x in rest;
      if x < m {
        m := x;
      }
      rest := rest - {x};
    }
  }

  class MemoryRetentionStore {
    var policies: map<nat, Policy>
    var runs: map<nat, seq<RetentionRun>>

    ghost predicate Valid()
      reads this
    {
      forall org :: org in policies ==> policies[org].organizationId == org
    }

    constructor ()
      ensures Valid() && policies == map[] && runs == map[]
    {
      policies, runs := map[], map[];
    }

    method UpsertPolicy(p: Policy) returns (ok: bool)
      requires Valid()
      modifies this
      ensures Valid() && runs == old(runs) && ok == PolicyOk(p) == InRange(p)
      ensures policies == if ok then old(policies)[p.organizationId := p] else old(policies)
    {
      ok := PolicyOk(p);
      if ok {
        policies := policies[p.organizationId := p];
      }
    }

    method ListPolicies() returns (ps: seq<Policy>)
      requires Valid()
      ensures IsListing(policies, ps)
    {
      ps := [];
      var rest := policies.Keys;
      while rest != {}
        invariant rest <= policies.Keys
        invariant forall i, j :: 0 <= i < j < |ps| ==> ps[i].organizationId < ps[j].organizationId
        invariant forall i :: 0 <= i < |ps| ==>
                    && ps[i].organizationId in policies && policies[ps[i].organizationId] == ps[i]
                    && (forall x :: x in rest ==> ps[i].organizationId < x)
        invariant forall org :: org in policies && org !in rest ==> policies[org] in ps
        decreases |rest|
      {
        var org := Smallest(rest);
        ps := ps + [policies[org]];
        rest := rest - {org};
      }
    }

    method RecordRun(r: RetentionRun)
      modifies this
      ensures runs == Recorded(old(runs), r) && policies == old(policies)
    {
      var earlier := if r.organizationId in runs then runs[r.organizationId] else [];
      runs := runs[r.organizationId := earlier + [r]];
    }
  }

  ghost function RecordOf(d: Data, job: Job, dryRun: bool, ranAt: string): RetentionRun {
    RetentionRun(job.organizationId, dryRun, Count(d, job.organizationId, job.cutoffs), ranAt)
  }

  datatype Summary = Summary(organizationsScanned: nat, counts: Counts, dryRun: bool)

  datatype RetentionError = InvalidInput

  class Worker {
    const retention: MemoryRetentionStore
    const messages: MemoryMessageStore
    const attachments: A.MemoryAttachmentStore
    const audit: MemoryAuditStore

    ghost function Stores(): Data
      reads messages, attachments, audit
    {
      Data(messages.messagesById, attachments.Contents(), audit.eventsBySpaceId)
    }

    constructor (retention: MemoryRetentionStore, messages: MemoryMessageStore, attachments: A.MemoryAttachmentStore, audit: MemoryAuditStore)
      ensures this.retention == retention && this.messages == messages && this.attachments == attachments && this.audit == audit
    {
      this.retention, this.messages, this.attachments, this.audit := retention, messages, attachments, audit;
    }

    /**
     One run at a given time; a time that is not RFC 3339 is absent. An unacceptable policy
     ends the run with an error after the organizations before it have been purged.
     */
    method RunOnceAt(now: Option<Moment>, dryRun: bool) returns (r: Result<Summary, RetentionError>, ghost ps: seq<Policy>)
      requires retention.Valid()
      modifies retention, messages, attachments, audit
      ensures retention.Valid() && retention.policies == old(retention.policies)
      ensures IsListing(old(retention.policies), ps)
      ensures now.None? ==> r.Err? && Stores() == old(Stores()) && retention.runs == old(retention.runs)
      ensures now.Some? ==>
                var o := Run(old(Stores()), ps, now.value, dryRun);
                && Stores() == o.data
                && retention.runs == RunFold(Started(old(Stores()), old(retention.runs)), Plan(ps, now.value), dryRun, MillisText(now.value)).runs
                && r == if o.ok then Ok(Summary(|ps|, o.counts, dryRun)) else Err(InvalidInput)
      ensures r.Ok? <==> now.Some? && forall i :: 0 <= i < |ps| ==> InRange(ps[i])
      ensures r.Ok? ==> r.value.organizationsScanned == |ps| && r.value.dryRun == dryRun
      ensures dryRun ==> Stores() == old(Stores())
      ensures r.Ok? && !dryRun ==> Gone(old(Stores()), Stores(), r.value.counts)
    {
      var policies := retention.ListPolicies();
      ps := policies;
      if now.None? {
        return Err(InvalidInput), ps;
      }
      var ranAt := MillisText(now.value);
      ghost var jobs := Plan(ps, now.value);
      FoldIsRun(Started(Stores(), retention.runs), jobs, dryRun, ranAt);
      RunMeans(Stores(), ps, now.value, dryRun);
      var ok, counts := RunAll(policies, now.value, dryRun, ranAt, jobs);
      return if ok then Ok(Summary(|policies|, counts, dryRun)) else Err(InvalidInput), ps;
    }

    /** The loop over the policies, against the jobs they stand for. */
    method RunAll(policies: seq<Policy>, now: Moment, dryRun: bool, ranAt: string, ghost jobs: seq<Option<Job>>)
      returns (ok: bool, counts: Counts)
      requires retention.Valid() && IsPlan(policies, now, jobs)
      modifies retention, messages, attachments, audit
      ensures retention.Valid() && retention.policies == old(retention.policies)
      ensures Carry(Stores(), counts, retention.runs, ok)
              == RunFold(Started(old(Stores()), old(retention.runs)), jobs, dryRun, ranAt)
    {
      counts := Counts(0, 0, 0);
      ghost var start := Started(Stores(), retention.runs);
      for i := 0 to |policies|
        invariant retention.Valid() && retention.policies == old(retention.policies)
        invariant Carry(Stores(), counts, retention.runs, true) == RunFold(start, jobs[..i], dryRun, ranAt)
      {
        var job := JobFor(policies, i, now, jobs);
        ok, counts := PurgeOne(job, dryRun, ranAt, counts);
        FoldSnoc(StepOf(dryRun), CountOf(), RecorderOf(dryRun, ranAt), start, jobs, i);
        if !ok {
          FoldStopped(StepOf(dryRun), CountOf(), RecorderOf(dryRun, ranAt), start, jobs, i + 1);
          return;
        }
      }
      assert jobs[..|policies|] == jobs;
      ok := true;
    }

    /** The work for one policy, if it is acceptable: three purges and a record of them. */
    method PurgeOne(job: Option<Job>, dryRun: bool, ranAt: string, counts: Counts) returns (ok: bool, total: Counts)
      requires retention.Valid()
      modifies retention, messages, attachments, audit
      ensures retention.Valid() && retention.policies == old(retention.policies)
      ensures Carry(Stores(), total, retention.runs, ok)
              == Advance(StepOf(dryRun), CountOf(), RecorderOf(dryRun, ranAt), Carry(old(Stores()), counts, old(retention.runs), true), job)
    {
      ok, total := job.Some?, counts;
      if ok {
        var org, c := job.value.organizationId, job.value.cutoffs;
        var messagesPurged := messages.PurgeForRetention(org, c, dryRun);
        var filesPurged := attachments.PurgeForRetention(org, c.files, dryRun);
        var eventsPurged := audit.PurgeForRetention(org, c, dryRun);
        var purged := Counts(messagesPurged, filesPurged, eventsPurged);
        total := counts.Plus(purged);
        retention.RecordRun(RetentionRun(org, dryRun, purged, ranAt));
        assert purged == Count(old(Stores()), org, c);
        OneJob(Carry(old(Stores()), counts, old(retention.runs), true), job.value, dryRun, ranAt);
        assert Stores() == DataAfter(old(Stores()), job.value, dryRun);
      }
    }
  }

  /** A run from what it does to the stores. */
  lemma RunMeans(d: Data, ps: seq<Policy>, now: Moment, dryRun: bool)
    requires forall i, j :: 0 <= i < j < |ps| ==> ps[i].organizationId < ps[j].organizationId
    ensures var o := Run(d, ps, now, dryRun);
            && (o.ok <==> forall i :: 0 <= i < |ps| ==> InRange(ps[i]))
            && (if dryRun then o.data == d else Gone(d, o.data, o.counts))
  {
    RunOkIff(d, ps, now, dryRun);
    if dryRun { DryRunReports(d, ps, now); } else { CountsAreRemovals(d, ps, now); }
  }

  lemma OneJob(s: Carry<Data, Runs>, job: Job, dryRun: bool, ranAt: string)
    requires s.ok
    ensures var n := Count(s.data, job.organizationId, job.cutoffs);
            Advance(StepOf(dryRun), CountOf(), RecorderOf(dryRun, ranAt), s, Some(job)) ==
              Carry(DataAfter(s.data, job, dryRun), s.counts.Plus(n),
                    Recorded(s.runs, RetentionRun(job.organizationId, dryRun, n, ranAt)), true)
  {
    assert StepOf(dryRun)(s.data, job) == DataAfter(s.data, job, dryRun);
    assert CountOf()(s.data, job) == Count(s.data, job.organizationId, job.cutoffs);
    assert RecorderOf(dryRun, ranAt)(s.runs, s.data, job) == Recorded(s.runs, RecordOf(s.data, job, dryRun, ranAt));
  }

  /** The jobs are those of the policies, one by one. */
  ghost predicate IsPlan(ps: seq<Policy>, now: Moment, jobs: seq<Option<Job>>) {
    |jobs| == |ps| && forall i {:trigger JobOf(ps[i], now)} :: 0 <= i < |ps| ==> jobs[i] == JobOf(ps[i], now)
  }

  /** Checks a policy and works out its cutoffs. */
  method JobFor(ps: seq<Policy>, i: nat, now: Moment, ghost jobs: seq<Option<Job>>) returns (job: Option<Job>)
    requires i < |ps| && IsPlan(ps, now, jobs)
    ensures job == jobs[i]
  {
    job := JobOf(ps[i], now);
  }

  // ---- a run from its first job on and one job at a time ----

  /** What is carried from job to job: the data, the counts and the records so far. */
  datatype Carry<D, R> = Carry(data: D, counts: Counts, runs: R, ok: bool)

  /** One job on the data, the counts and the records so far. */
  ghost function Advance<D, R, J>(step: (D, J) -> D, count: (D, J) -> Counts, record: (R, D, J) -> R, s: Carry<D, R>, job: Option<J>): Carry<D, R> {
    if !s.ok then s
    else if job.None? then s.(ok := false)
    else Carry(step(s.data, job.value), s.counts.Plus(count(s.data, job.value)), record(s.runs, s.data, job.value), true)
  }

  ghost function Fold<D, R, J>(step: (D, J) -> D, count: (D, J) -> Counts, record: (R, D, J) -> R, s: Carry<D, R>, jobs: seq<Option<J>>): Carry<D, R>
    decreases |jobs|
  {
    if jobs == [] then s else Fold(step, count, record, Advance(step, count, record, s, jobs[0]), jobs[1..])
  }

  lemma {:induction false} FoldSnoc<D, R, J>(step: (D, J) -> D, count: (D, J) -> Counts, record: (R, D, J) -> R,
                                             s: Carry<D, R>, jobs: seq<Option<J>>, i: nat)
    requires i < |jobs|
    ensures Fold(step, count, record, s, jobs[..i + 1])
            == Advance(step, count, record, Fold(step, count, record, s, jobs[..i]), jobs[i])
    decreases i
  {
    var rest := jobs[1..];
    if i == 0 {
      assert jobs[..1][1..] == [];
    } else {
      assert jobs[..i][1..] == rest[..i - 1] && jobs[..i + 1][1..] == rest[..i];
      FoldSnoc(step, count, record, Advance(step, count, record, s, jobs[0]), rest, i - 1);
    }
  }

  /** Once a run has stopped, the remaining jobs change nothing. */
  lemma {:induction false} FoldStopped<D, R, J>(step: (D, J) -> D, count: (D, J) -> Counts, record: (R, D, J) -> R,
                                                s: Carry<D, R>, jobs: seq<Option<J>>, i: nat)
    requires i <= |jobs| && !Fold(step, count, record, s, jobs[..i]).ok
    ensures Fold(step, count, record, s, jobs) == Fold(step, count, record, s, jobs[..i])
    decreases |jobs| - i
  {
    if i == |jobs| {
      assert jobs[..i] == jobs;
    } else {
      FoldSnoc(step, count, record, s, jobs, i);
      FoldStopped(step, count, record, s, jobs, i + 1);
    }
  }

  ghost function StepOf(dryRun: bool): (Data, Job) -> Data {
    (d: Data, job: Job) => DataAfter(d, job, dryRun)
  }

  ghost function CountOf(): (Data, Job) -> Counts {
    (d: Data, job: Job) => Count(d, job.organizationId, job.cutoffs)
  }

  type Runs = map<nat, seq<RetentionRun>>

  ghost function RecorderOf(dryRun: bool, ranAt: string): (Runs, Data, Job) -> Runs {
    (runs: Runs, d: Data, job: Job) => Recorded(runs, RecordOf(d, job, dryRun, ranAt))
  }

  /** A run, as the loop of the worker carries it along. */
  ghost function RunFold(s: Carry<Data, Runs>, jobs: seq<Option<Job>>, dryRun: bool, ranAt: string): Carry<Data, Runs> {
    Fold(StepOf(dryRun), CountOf(), RecorderOf(dryRun, ranAt), s, jobs)
  }

  ghost function Started(d: Data, runs: Runs): Carry<Data, Runs> {
    Carry(d, Counts(0, 0, 0), runs, true)
  }

  lemma {:induction false} FoldKeepsStop(s: Carry<Data, Runs>, jobs: seq<Option<Job>>, dryRun: bool, ranAt: string)
    requires !s.ok
    ensures RunFold(s, jobs, dryRun, ranAt) == s
    decreases |jobs|
  {
    if jobs != [] { FoldKeepsStop(s, jobs[1..], dryRun, ranAt); }
  }

  /** Carrying a run along gives the same data and counts as the run defined from its first job on. */
  lemma {:induction false} FoldIsRun(s: Carry<Data, Runs>, jobs: seq<Option<Job>>, dryRun: bool, ranAt: string)
    requires s.ok
    ensures var o, f := RunJobs(s.data, jobs, dryRun), RunFold(s, jobs, dryRun, ranAt);
            f.data == o.data && f.ok == o.ok && f.counts == s.counts.Plus(o.counts)
    decreases |jobs|
  {
    if jobs != [] {
      var s' := Advance(StepOf(dryRun), CountOf(), RecorderOf(dryRun, ranAt), s, jobs[0]);
      if jobs[0].None? {
        FoldKeepsStop(s', jobs[1..], dryRun, ranAt);
      } else {
        FoldIsRun(s', jobs[1..], dryRun, ranAt);
      }
    }
  }
}
