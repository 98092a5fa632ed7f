/**
 Retention: per organization, records older than the policy's periods are purged from three
 stores. Timestamps are compared as text.
 */
module Retention {
  import opened Outcomes
  import opened Sums
  import opened Timestamps
  import T = Text
  import A = Attachments

  datatype Message = Message(organizationId: nat, createdAt: string, deletedAt: Option<string>, body: nat)

  datatype AuditEvent = AuditEvent(id: nat, organizationId: nat, createdAt: string)

  /** The three stores: messages by id, attachments, audit events by space. */
  datatype Data = Data(messages: map<nat, Message>, files: A.Store, audit: map<nat, seq<AuditEvent>>)

  datatype Policy = Policy(
    organizationId: nat,
    messagesRetainDays: Option<int>,
    filesRetainDays: Option<int>,
    auditLogsRetainDays: Option<int>,
    deletedMessagePurgeDays: Option<int>
  )

  const MAX_RETENTION_DAYS: int := 3650

  predicate DaysOk(days: Option<int>) {
    days.Some? ==> 1 <= days.value <= MAX_RETENTION_DAYS
  }

  predicate PolicyOk(p: Policy) {
    && DaysOk(p.messagesRetainDays) && DaysOk(p.filesRetainDays)
    && DaysOk(p.auditLogsRetainDays) && DaysOk(p.deletedMessagePurgeDays)
  }

  // ---- cutoffs ----

  function CutoffText(now: Moment, days: nat): string {
    MillisText(now - days * NANOS_PER_DAY)
  }

  function Cutoff(now: Moment, days: Option<int>): Option<string>
    requires DaysOk(days)
  {
    if days.None? then None else Some(CutoffText(now, days.value))
  }

  datatype Cutoffs = Cutoffs(created: Option<string>, deleted: Option<string>, files: Option<string>, audit: Option<string>)

  function CutoffsOf(p: Policy, now: Moment): Cutoffs
    requires PolicyOk(p)
  {
    Cutoffs(Cutoff(now, p.messagesRetainDays), Cutoff(now, p.deletedMessagePurgeDays),
            Cutoff(now, p.filesRetainDays), Cutoff(now, p.auditLogsRetainDays))
  }

  // ---- one organization, store by store ----

  predicate Before(text: Option<string>, cutoff: Option<string>) {
    text.Some? && cutoff.Some? && T.Less(text.value, cutoff.value)
  }

  predicate MessageExpired(m: Message, org: nat, c: Cutoffs) {
    m.organizationId == org && (Before(Some(m.createdAt), c.created) || Before(m.deletedAt, c.deleted))
  }

  function ExpiredMessages(ms: map<nat, Message>, org: nat, c: Cutoffs): set<nat> {
    set id | id in ms && MessageExpired(ms[id], org, c)
  }

  function PurgeMessages(ms: map<nat, Message>, org: nat, c: Cutoffs): map<nat, Message> {
    ms - ExpiredMessages(ms, org, c)
  }

  predicate EventExpired(e: AuditEvent, org: nat, c: Cutoffs) {
    e.organizationId == org && Before(Some(e.createdAt), c.audit)
  }

  /** The events that stay, in order. */
  function KeptEvents(es: seq<AuditEvent>, org: nat, c: Cutoffs): seq<AuditEvent> {
    if es == [] then []
    else
      var init, e := KeptEvents(es[..|es| - 1], org, c), es[|es| - 1];
      if EventExpired(e, org, c) then init else init + [e]
  }

  function ExpiredEvents(es: seq<AuditEvent>, org: nat, c: Cutoffs): nat {
    if es == [] then 0
    else ExpiredEvents(es[..|es| - 1], org, c) + (if EventExpired(es[|es| - 1], org, c) then 1 else 0)
  }

  function PurgeAudit(audit: map<nat, seq<AuditEvent>>, org: nat, c: Cutoffs): map<nat, seq<AuditEvent>> {
    map space | space in audit :: KeptEvents(audit[space], org, c)
  }

  function ExpiredBySpace(audit: map<nat, seq<AuditEvent>>, org: nat, c: Cutoffs): map<nat, nat> {
    map space | space in audit :: ExpiredEvents(audit[space], org, c)
  }

  function Purge(d: Data, org: nat, c: Cutoffs): Data {
    Data(PurgeMessages(d.messages, org, c), A.PurgeStore(d.files, org, c.files), PurgeAudit(d.audit, org, c))
  }

  datatype Counts = Counts(messages: nat, files: nat, audit: nat) {
    function Plus(other: Counts): Counts {
      Counts(messages + other.messages, files + other.files, audit + other.audit)
    }
  }

  ghost function Count(d: Data, org: nat, c: Cutoffs): Counts {
    Counts(|ExpiredMessages(d.messages, org, c)|, |A.ExpiredIds(d.files, org, c.files)|,
           Total(ExpiredBySpace(d.audit, org, c)))
  }

  // ---- a run over all policies ----

  datatype Outcome = Outcome(data: Data, counts: Counts, ok: bool)

  /** What a run does for one organization. */
  datatype Job = Job(organizationId: nat, cutoffs: Cutoffs)

  /** The job of a policy; an unacceptable policy has none. */
  function JobOf(p: Policy, now: Moment): Option<Job> {
    if PolicyOk(p) then Some(Job(p.organizationId, CutoffsOf(p, now))) else None
  }

  function Plan(ps: seq<Policy>, now: Moment): (jobs: seq<Option<Job>>)
    ensures |jobs| == |ps|
    ensures forall i :: 0 <= i < |ps| ==> jobs[i] == JobOf(ps[i], now)
  {
    seq(|ps|, i requires 0 <= i < |ps| => JobOf(ps[i], now))
  }

  function DataAfter(d: Data, job: Job, dryRun: bool): Data {
    if dryRun then d else Purge(d, job.organizationId, job.cutoffs)
  }

  /** The jobs in order; a missing one ends the run and leaves what was purged before it. */
  ghost function RunJobs(d: Data, jobs: seq<Option<Job>>, dryRun: bool): Outcome
    decreases |jobs|
  {
    if jobs == [] then Outcome(d, Counts(0, 0, 0), true)
    else if jobs[0].None? then Outcome(d, Counts(0, 0, 0), false)
    else
      var job := jobs[0].value;
      var rest := RunJobs(DataAfter(d, job, dryRun), jobs[1..], dryRun);
      Outcome(rest.data, Count(d, job.organizationId, job.cutoffs).Plus(rest.counts), rest.ok)
  }

  /** A run over the policies of all organizations. */
  ghost function Run(d: Data, ps: seq<Policy>, now: Moment, dryRun: bool): Outcome {
    RunJobs(d, Plan(ps, now), dryRun)
  }

  ghost predicate OnePolicyEach(ps: seq<Policy>) {
    forall i, j :: 0 <= i < j < |ps| ==> ps[i].organizationId != ps[j].organizationId
  }

  ghost predicate HasPolicy(ps: seq<Policy>, org: nat) {
    exists i :: 0 <= i < |ps| && ps[i].organizationId == org
  }

  // ---- later cutoffs ----

  /** Whatever the first cutoffs select among some texts, the second do too. */
  ghost predicate Later(texts: iset<string>, c: Cutoffs, c': Cutoffs) {
    && (forall t: Option<string> {:trigger Before(t, c.created)} :: Within(t, texts) && Before(t, c.created) ==> Before(t, c'.created))
    && (forall t: Option<string> {:trigger Before(t, c.deleted)} :: Within(t, texts) && Before(t, c.deleted) ==> Before(t, c'.deleted))
    && (forall t: Option<string> {:trigger Before(t, c.files)} :: Within(t, texts) && Before(t, c.files) ==> Before(t, c'.files))
    && (forall t: Option<string> {:trigger Before(t, c.audit)} :: Within(t, texts) && Before(t, c.audit) ==> Before(t, c'.audit))
  }

  ghost predicate Within(t: Option<string>, texts: iset<string>) {
    t.Some? ==> t.value in texts
  }

  /** The texts that the service writes: millisecond texts of the years up to 9999. */
  ghost function Stamps(): iset<string> {
    iset i: Instant | i < YEAR_10000 :: FormatMillis(i)
  }

  lemma TextLater(t: string, a: Instant, b: Instant)
    requires a < YEAR_10000 && b < YEAR_10000 && a / NANOS_PER_MILLI <= b / NANOS_PER_MILLI
    requires T.Less(t, FormatMillis(a))
    ensures T.Less(t, FormatMillis(b))
  {
    MillisTextOrder(b, a);
    T.LessTransitive(t, FormatMillis(a), FormatMillis(b));
  }

  function Back(now: Moment, days: nat): Instant
    requires days * NANOS_PER_DAY <= now
  {
    now - days * NANOS_PER_DAY
  }

  lemma CutoffShape(now: Moment, days: nat)
    requires 1 <= days <= MAX_RETENTION_DAYS && days * NANOS_PER_DAY <= now
    ensures Cutoff(now, Some(days)) == Some(FormatMillis(Back(now, days)))
  {
  }

  lemma BackLater(now: Moment, now': Moment, days: nat)
    requires 1 <= days && days * NANOS_PER_DAY <= now <= now'
    ensures Back(now, days) < YEAR_10000 && Back(now', days) < YEAR_10000
    ensures Back(now, days) / NANOS_PER_MILLI <= Back(now', days) / NANOS_PER_MILLI
  {
    DaysBack(now, days);
    DaysBack(now', days);
  }

  lemma LongAgo(now: Moment, days: nat)
    requires days <= MAX_RETENTION_DAYS && MAX_RETENTION_DAYS * NANOS_PER_DAY <= now
    ensures days * NANOS_PER_DAY <= now
  {
  }

  lemma CutoffLater(now: Moment, now': Moment, days: Option<int>, t: Option<string>)
    requires DaysOk(days) && MAX_RETENTION_DAYS * NANOS_PER_DAY <= now <= now'
    requires Before(t, Cutoff(now, days))
    ensures Before(t, Cutoff(now', days))
  {
    LongAgo(now, days.value);
    CutoffShape(now, days.value);
    CutoffShape(now', days.value);
    BackLater(now, now', days.value);
    TextLater(t.value, Back(now, days.value), Back(now', days.value));
  }

  /** The clock bound is not needed for the texts that the service writes. */
  lemma StampLater(now: Moment, now': Moment, days: Option<int>, t: Option<string>)
    requires DaysOk(days) && now <= now' && Within(t, Stamps()) && Before(t, Cutoff(now, days))
    ensures Before(t, Cutoff(now', days))
  {
    var i: Instant :| i < YEAR_10000 && FormatMillis(i) == t.value;
    CutoffExact(now, days.value, i);
    CutoffExact(now', days.value, i);
  }

  /** Late enough for every cutoff to fall after the start of year 0, or only texts that the service writes. */
  ghost predicate Comparable(texts: iset<string>, now: Moment) {
    MAX_RETENTION_DAYS * NANOS_PER_DAY <= now || texts <= Stamps()
  }

  lemma AnyLater(texts: iset<string>, now: Moment, now': Moment, days: Option<int>, t: Option<string>)
    requires DaysOk(days) && Comparable(texts, now) && now <= now'
    requires Within(t, texts) && Before(t, Cutoff(now, days))
    ensures Before(t, Cutoff(now', days))
  {
    if MAX_RETENTION_DAYS * NANOS_PER_DAY <= now {
      CutoffLater(now, now', days, t);
    } else {
      StampLater(now, now', days, t);
    }
  }

  lemma CutoffsLater(texts: iset<string>, p: Policy, now: Moment, now': Moment)
    requires PolicyOk(p) && Comparable(texts, now) && now <= now'
    ensures Later(texts, CutoffsOf(p, now), CutoffsOf(p, now'))
  {
    var c, c' := CutoffsOf(p, now), CutoffsOf(p, now');
    forall t: Option<string> | Within(t, texts) && Before(t, c.created) ensures Before(t, c'.created) {
      AnyLater(texts, now, now', p.messagesRetainDays, t);
    }
    forall t: Option<string> | Within(t, texts) && Before(t, c.deleted) ensures Before(t, c'.deleted) {
      AnyLater(texts, now, now', p.deletedMessagePurgeDays, t);
    }
    forall t: Option<string> | Within(t, texts) && Before(t, c.files) ensures Before(t, c'.files) {
      AnyLater(texts, now, now', p.filesRetainDays, t);
    }
    forall t: Option<string> | Within(t, texts) && Before(t, c.audit) ensures Before(t, c'.audit) {
      AnyLater(texts, now, now', p.auditLogsRetainDays, t);
    }
  }

  /**
   A cutoff selects exactly the records older than the period: those whose instant, to the
   millisecond, lies more than `days` days before now.
   */
  lemma CutoffExact(now: Moment, days: int, created: Instant)
    requires 1 <= days <= MAX_RETENTION_DAYS && created < YEAR_10000
    ensures Before(Some(FormatMillis(created)), Cutoff(now, Some(days)))
            <==> created / NANOS_PER_MILLI + days * MILLIS_PER_DAY < now / NANOS_PER_MILLI
  {
    if days * NANOS_PER_DAY <= now {
      ExactAfterYearZero(now, days, created);
    } else {
      ExactBeforeYearZero(now, days, created);
    }
  }

  lemma ExactAfterYearZero(now: Moment, days: nat, created: Instant)
    requires 1 <= days <= MAX_RETENTION_DAYS && created < YEAR_10000
    requires days * NANOS_PER_DAY <= now
    ensures Before(Some(FormatMillis(created)), Cutoff(now, Some(days)))
            <==> created / NANOS_PER_MILLI + days * MILLIS_PER_DAY < now / NANOS_PER_MILLI
  {
    DaysBack(now, days);
    BackLater(now, now, days);
    CutoffShape(now, days);
    MillisTextOrder(created, Back(now, days));
  }

  /** A cutoff before year 0 comes before every text of the years up to 9999. */
  lemma ExactBeforeYearZero(now: Moment, days: nat, created: Instant)
    requires 1 <= days <= MAX_RETENTION_DAYS && created < YEAR_10000 && now < days * NANOS_PER_DAY
    ensures !Before(Some(FormatMillis(created)), Cutoff(now, Some(days)))
    ensures now / NANOS_PER_MILLI < days * MILLIS_PER_DAY
  {
    NothingThatOld(now, days);
    EarlyYearsSortFirst(now - days * NANOS_PER_DAY, created);
    T.LessIsLessEq(CutoffText(now, days), FormatMillis(created));
  }

  lemma NothingThatOld(now: Moment, days: nat)
    requires days <= MAX_RETENTION_DAYS && now < days * NANOS_PER_DAY
    ensures now / NANOS_PER_MILLI < days * MILLIS_PER_DAY
  {
  }
}
