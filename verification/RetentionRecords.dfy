/** The records that retention runs leave: one for each organization a run comes to. */
module RetentionRecords {
  import opened Outcomes
  import opened Timestamps
  import opened Retention
  import opened RetentionRuns
  import opened RetentionWorker
  import opened RetentionCounts

  function RecordsOf(runs: Runs, org: nat): seq<RetentionRun> {
    if org in runs then runs[org] else []
  }

  /** The state after the first job. */
  ghost function AfterFirst(s: Carry<Data, Runs>, job: Job, dryRun: bool, ranAt: string): Carry<Data, Runs> {
    Carry(DataAfter(s.data, job, dryRun), s.counts.Plus(Count(s.data, job.organizationId, job.cutoffs)),
          Recorded(s.runs, RecordOf(s.data, job, dryRun, ranAt)), true)
  }

  lemma FoldFirst(s: Carry<Data, Runs>, jobs: seq<Option<Job>>, dryRun: bool, ranAt: string)
    requires s.ok && jobs != [] && jobs[0].Some?
    ensures RunFold(s, jobs, dryRun, ranAt) == RunFold(AfterFirst(s, jobs[0].value, dryRun, ranAt), jobs[1..], dryRun, ranAt)
  {
    OneJob(s, jobs[0].value, dryRun, ranAt);
  }

  /** No job that the run takes is for the organization. */
  ghost predicate NoneTaken(jobs: seq<Option<Job>>, org: nat) {
    forall i: nat :: Taken(jobs, i) ==> jobs[i].value.organizationId != org
  }

  lemma NoneTakenRest(jobs: seq<Option<Job>>, org: nat)
    requires jobs != [] && jobs[0].Some? && NoneTaken(jobs, org)
    ensures jobs[0].value.organizationId != org && NoneTaken(jobs[1..], org)
  {
    assert Taken(jobs, 0);
    forall i: nat | Taken(jobs[1..], i) ensures jobs[1..][i].value.organizationId != org {
      TakenRest(jobs, i);
      assert jobs[1..][i] == jobs[i + 1];
    }
  }

  /** An organization that the run does not come to gets no record. */
  lemma {:induction false} NoRecord(s: Carry<Data, Runs>, jobs: seq<Option<Job>>, dryRun: bool, ranAt: string, org: nat)
    requires s.ok && NoneTaken(jobs, org)
    ensures RecordsOf(RunFold(s, jobs, dryRun, ranAt).runs, org) == RecordsOf(s.runs, org)
    decreases |jobs|
  {
    if jobs != [] {
      if jobs[0].None? {
        FoldKeepsStop(s.(ok := false), jobs[1..], dryRun, ranAt);
      } else {
        NoneTakenRest(jobs, org);
        FoldFirst(s, jobs, dryRun, ranAt);
        NoRecord(AfterFirst(s, jobs[0].value, dryRun, ranAt), jobs[1..], dryRun, ranAt, org);
      }
    }
  }

  lemma NoJobNoneTaken(jobs: seq<Option<Job>>, org: nat)
    requires !HasJob(jobs, org)
    ensures NoneTaken(jobs, org)
  {
  }

  /** One record for the job of an organization, with what the first data would count for it. */
  lemma {:induction false} OneRecord(s: Carry<Data, Runs>, jobs: seq<Option<Job>>, dryRun: bool, ranAt: string, i: nat)
    requires s.ok && OneJobEach(jobs) && Taken(jobs, i)
    ensures var org, c := jobs[i].value.organizationId, jobs[i].value.cutoffs;
            RecordsOf(RunFold(s, jobs, dryRun, ranAt).runs, org)
            == RecordsOf(s.runs, org) + [RetentionRun(org, dryRun, Count(s.data, org, c), ranAt)]
    decreases |jobs|
  {
    var org, c := jobs[i].value.organizationId, jobs[i].value.cutoffs;
    assert jobs[0].Some?;
    var first, rest := jobs[0].value, jobs[1..];
    var s' := AfterFirst(s, first, dryRun, ranAt);
    RestOfJobs(jobs);
    FoldFirst(s, jobs, dryRun, ranAt);
    if i == 0 {
      NoJobNoneTaken(rest, org);
      NoRecord(s', rest, dryRun, ranAt, org);
    } else {
      TakenRest(jobs, i - 1);
      OneRecord(s', rest, dryRun, ranAt, i - 1);
      PurgeApart(s.data, first.organizationId, first.cutoffs, org, c);
    }
  }

  /**
   A run adds one record for an organization whose policy it comes to: with the numbers of that
   organization's own messages, attachments and audit events that a real run removes. The others
   get none.
   */
  lemma RecordsAreRemovals(d: Data, runs: Runs, ps: seq<Policy>, now: Moment, dryRun: bool, ranAt: string, i: nat)
    requires OnePolicyEach(ps) && i < |ps|
    ensures var org := ps[i].organizationId;
            var records := RecordsOf(RunFold(Started(d, runs), Plan(ps, now), dryRun, ranAt).runs, org);
            if ComesTo(ps, i) then
              exists n :: records == RecordsOf(runs, org) + [RetentionRun(org, dryRun, n, ranAt)]
                          && Gone(View(d, org), View(Run(d, ps, now, false).data, org), n)
            else records == RecordsOf(runs, org)
  {
    var jobs, org := Plan(ps, now), ps[i].organizationId;
    PlanOneEach(ps, now);
    assert forall j :: 0 <= j < |ps| ==> jobs[j] == JobOf(ps[j], now) && (jobs[j].Some? <==> InRange(ps[j]));
    assert Taken(jobs, i) <==> ComesTo(ps, i);
    if ComesTo(ps, i) {
      OneRecord(Started(d, runs), jobs, dryRun, ranAt, i);
      ShareGone(d, jobs, i);
    } else {
      NoneTakenFor(ps, now, i);
      NoRecord(Started(d, runs), jobs, dryRun, ranAt, org);
    }
  }

  lemma NoneTakenFor(ps: seq<Policy>, now: Moment, i: nat)
    requires OnePolicyEach(ps) && i < |ps| && !ComesTo(ps, i)
    ensures NoneTaken(Plan(ps, now), ps[i].organizationId)
  {
    var jobs := Plan(ps, now);
    assert forall j :: 0 <= j < |ps| ==> jobs[j] == JobOf(ps[j], now) && (jobs[j].Some? <==> InRange(ps[j]));
    forall j: nat | Taken(jobs, j) ensures jobs[j].value.organizationId != ps[i].organizationId {
      assert ComesTo(ps, j);
      assert jobs[j] == JobOf(ps[j], now);
    }
  }

  /** An organization without a policy gets no record. */
  lemma NoPolicyNoRecord(d: Data, runs: Runs, ps: seq<Policy>, now: Moment, dryRun: bool, ranAt: string, org: nat)
    requires !HasPolicy(ps, org)
    ensures RecordsOf(RunFold(Started(d, runs), Plan(ps, now), dryRun, ranAt).runs, org) == RecordsOf(runs, org)
  {
    var jobs := Plan(ps, now);
    forall j: nat | Taken(jobs, j) ensures jobs[j].value.organizationId != org {
      assert jobs[j] == JobOf(ps[j], now);
    }
    NoRecord(Started(d, runs), jobs, dryRun, ranAt, org);
  }
}
