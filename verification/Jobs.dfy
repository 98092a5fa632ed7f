/**
 Background jobs: an idempotency key is claimed before the handler runs and never released,
 and a failed job is retried with a doubling, saturating backoff or sent to the dead letters.
 */
module Jobs {
  import opened Outcomes
  import opened Lists
  import opened Numbers

  const U64_MAX: nat := 0xFFFF_FFFF_FFFF_FFFF

  function Min(a: nat, b: nat): nat { if a <= b then a else b }

  function Power2(e: nat): nat {
    if e == 0 then 1 else 2 * Power2(e - 1)
  }

  // ---- backoff ----

  function SaturatingMul(a: nat, b: nat): nat {
    Min(a * b, U64_MAX)
  }

  /** Doubling step by step, held at the largest 64-bit number. */
  function SaturatingPow2(e: nat): nat {
    if e == 0 then 1 else SaturatingMul(2, SaturatingPow2(e - 1))
  }

  datatype RetryPolicy = RetryPolicy(maxAttempts: nat, initialBackoffMs: nat)

  datatype RetryDecision = Retry(backoffMs: nat) | DeadLetter

  function Decide(policy: RetryPolicy, attempt: nat): RetryDecision {
    if attempt >= policy.maxAttempts then DeadLetter
    else Retry(SaturatingMul(policy.initialBackoffMs, SaturatingPow2(SaturatingSub(attempt, 1))))
  }

  lemma {:induction false} PowSaturates(e: nat)
    ensures SaturatingPow2(e) == Min(Power2(e), U64_MAX) && Power2(e) >= 1
  {
    if e > 0 { PowSaturates(e - 1); }
  }

  /** Saturating twice is saturating once. */
  lemma MulSaturates(initial: nat, p: nat)
    ensures SaturatingMul(initial, Min(p, U64_MAX)) == Min(initial * p, U64_MAX)
  {
    if p > U64_MAX && initial >= 1 {
      assert initial * p >= p by { MulAtLeast(initial, p); }
      assert initial * U64_MAX >= U64_MAX by { MulAtLeast(initial, U64_MAX); }
    }
  }

  lemma MulAtLeast(a: nat, b: nat)
    requires a >= 1
    ensures a * b >= b
  {
  }

  lemma {:induction false} PowerMonotone(a: nat, b: nat)
    requires a <= b
    ensures Power2(a) <= Power2(b)
  {
    if a < b { PowerMonotone(a, b - 1); }
  }

  /**
   Before the last attempt the backoff is initial * 2^(attempt - 1), held at the largest
   64-bit number; from the last attempt on there is none.
   */
  lemma BackoffExact(policy: RetryPolicy, attempt: nat)
    ensures attempt >= policy.maxAttempts ==> Decide(policy, attempt) == DeadLetter
    ensures 1 <= attempt < policy.maxAttempts ==>
              Decide(policy, attempt) == Retry(Min(policy.initialBackoffMs * Power2(attempt - 1), U64_MAX))
    ensures attempt == 0 < policy.maxAttempts ==> Decide(policy, attempt) == Retry(Min(policy.initialBackoffMs, U64_MAX))
  {
    var e := SaturatingSub(attempt, 1);
    PowSaturates(e);
    MulSaturates(policy.initialBackoffMs, Power2(e));
  }

  /** Later attempts never wait less. */
  lemma BackoffNeverDecreases(policy: RetryPolicy, a: nat, b: nat)
    requires 1 <= a <= b < policy.maxAttempts
    ensures Decide(policy, a).Retry? && Decide(policy, b).Retry? && Decide(policy, a).backoffMs <= Decide(policy, b).backoffMs
  {
    BackoffExact(policy, a);
    BackoffExact(policy, b);
    PowerMonotone(a - 1, b - 1);
    MulMonotone(Power2(a - 1), Power2(b - 1), policy.initialBackoffMs);
  }

  // ---- processing ----

  datatype Envelope = Envelope(eventId: nat, idempotencyKey: nat)

  datatype JobOutcome = Completed | Duplicate | RetryLater(backoffMs: nat) | Dead

  datatype Entry = Entry(eventId: nat, idempotencyKey: nat, attempt: nat, reason: string)

  /** A call: the envelope, its attempt number, and what the handler would answer. */
  datatype Call = Call(envelope: Envelope, attempt: nat, answer: Result<(), string>, policy: RetryPolicy, withSink: bool)

  /** `handled` remembers, in order, the keys whose handler ran. */
  datatype State = State(claimed: set<nat>, deadLetters: seq<Entry>, handled: seq<nat>)

  function OutcomeOf(call: Call): JobOutcome {
    if call.answer.Ok? then Completed
    else
      match Decide(call.policy, call.attempt)
      case Retry(backoffMs) => RetryLater(backoffMs)
      case DeadLetter => Dead
  }

  function EntriesOf(call: Call): seq<Entry> {
    if call.withSink && OutcomeOf(call).Dead? && call.answer.Err?
    then [Entry(call.envelope.eventId, call.envelope.idempotencyKey, call.attempt, call.answer.error)] else []
  }

  function Process(st: State, call: Call): (State, JobOutcome) {
    var key := call.envelope.idempotencyKey;
    if key in st.claimed then (st, Duplicate)
    else (State(st.claimed + {key}, st.deadLetters + EntriesOf(call), st.handled + [key]), OutcomeOf(call))
  }

  class Worker {
    var claimedKeys: set<nat>
    var entries: seq<Entry>
    ghost var handled: seq<nat>

    ghost function Contents(): State
      reads this
    {
      State(claimedKeys, entries, handled)
    }

    constructor ()
      ensures Contents() == State({}, [], [])
    {
      claimedKeys, entries, handled := {}, [], [];
    }

    method Claim(key: nat) returns (fresh_: bool)
      modifies this`claimedKeys
      ensures fresh_ == (key !in old(claimedKeys)) && claimedKeys == old(claimedKeys) + {key}
    {
      fresh_ := key !in claimedKeys;
      claimedKeys := claimedKeys + {key};
    }

    /** Runs the handler unless the key has been claimed before; with a sink, dead letters are recorded. */
    method ProcessJob(call: Call) returns (outcome: JobOutcome)
      modifies this
      ensures (Contents(), outcome) == Process(old(Contents()), call)
    {
      var fresh_ := Claim(call.envelope.idempotencyKey);
      if !fresh_ {
        assert claimedKeys == old(claimedKeys);
        return Duplicate;
      }
      handled := handled + [call.envelope.idempotencyKey];
      assert entries + [] == entries;
      if call.answer.Ok? {
        return Completed;
      }
      match Decide(call.policy, call.attempt) {
        case Retry(backoffMs) => return RetryLater(backoffMs);
        case DeadLetter =>
          if call.withSink {
            entries := entries + [Entry(call.envelope.eventId, call.envelope.idempotencyKey, call.attempt, call.answer.error)];
          }
          return Dead;
      }
    }
  }

  // ---- any sequence of calls ----

  function After(calls: seq<Call>): State {
    if calls == [] then State({}, [], []) else Process(After(calls[..|calls| - 1]), calls[|calls| - 1]).0
  }

  function OutcomeAt(calls: seq<Call>, i: nat): JobOutcome
    requires i < |calls|
  {
    Process(After(calls[..i]), calls[i]).1
  }

  ghost predicate Earlier(calls: seq<Call>, i: nat)
    requires i < |calls|
  {
    exists j :: 0 <= j < i && calls[j].envelope.idempotencyKey == calls[i].envelope.idempotencyKey
  }

  /** How a call is answered: Duplicate after an earlier one, and otherwise by what its handler did. */
  ghost predicate Answers(outcome: JobOutcome, earlier: bool, call: Call) {
    var last := call.attempt >= call.policy.maxAttempts;
    && (outcome == Duplicate <==> earlier)
    && (outcome == Completed <==> !earlier && call.answer.Ok?)
    && (outcome == Dead <==> !earlier && call.answer.Err? && last)
    && (outcome.RetryLater? <==> !earlier && call.answer.Err? && !last)
    && (outcome.RetryLater? ==>
          outcome.backoffMs == Min(call.policy.initialBackoffMs * Power2(if call.attempt == 0 then 0 else call.attempt - 1), U64_MAX))
  }

  lemma OutcomeAnswers(call: Call)
    ensures Answers(OutcomeOf(call), false, call)
  {
    BackoffExact(call.policy, call.attempt);
  }

  /** The claimed keys are those of the calls, and each was handled exactly once. */
  lemma {:induction false} RunKeeps(calls: seq<Call>)
    ensures forall key :: key in After(calls).claimed <==> exists i :: 0 <= i < |calls| && calls[i].envelope.idempotencyKey == key
    ensures Distinct(After(calls).handled)
    ensures forall key :: key in After(calls).handled <==> key in After(calls).claimed
  {
    if calls != [] {
      var init, c := calls[..|calls| - 1], calls[|calls| - 1];
      RunKeeps(init);
      assert calls == init + [c];
      forall key ensures key in After(calls).claimed <==> exists i :: 0 <= i < |calls| && calls[i].envelope.idempotencyKey == key {
        if key in After(init).claimed {
          var i :| 0 <= i < |init| && init[i].envelope.idempotencyKey == key;
          assert calls[i].envelope.idempotencyKey == key;
        }
        if exists i :: 0 <= i < |calls| && calls[i].envelope.idempotencyKey == key {
          var i :| 0 <= i < |calls| && calls[i].envelope.idempotencyKey == key;
          if i < |init| { assert init[i].envelope.idempotencyKey == key; }
        }
      }
    }
  }

  /**
   Over any sequence of calls on one guard the handler runs at most once for each key: the
   first call on a key runs it and answers by its result, every later call answers Duplicate. A
   failed first call is retried with a doubling backoff before the last attempt, and dead from it on.
   This holds also when the first call was told to retry.
   */
  lemma HandledOnce(calls: seq<Call>, i: nat)
    requires i < |calls|
    ensures Distinct(After(calls).handled)
    ensures Answers(OutcomeAt(calls, i), Earlier(calls, i), calls[i])
  {
    RunKeeps(calls);
    RunKeeps(calls[..i]);
    var before := calls[..i];
    OutcomeAnswers(calls[i]);
    if Earlier(calls, i) {
      var j :| 0 <= j < i && calls[j].envelope.idempotencyKey == calls[i].envelope.idempotencyKey;
      assert before[j] == calls[j];
    } else {
      forall j | 0 <= j < |before| ensures before[j].envelope.idempotencyKey != calls[i].envelope.idempotencyKey {
        assert before[j] == calls[j];
      }
    }
  }

  /** The call leaves a dead letter: it runs the handler, which fails on the last attempt, and there is a sink. */
  ghost predicate LeavesLetter(calls: seq<Call>, i: nat)
    requires i < |calls|
  {
    !Earlier(calls, i) && calls[i].answer.Err? && calls[i].attempt >= calls[i].policy.maxAttempts && calls[i].withSink
  }

  /** One entry for each call that leaves a dead letter, in order. */
  ghost function Letters(calls: seq<Call>): seq<Entry> {
    if calls == [] then []
    else
      var n := |calls| - 1;
      var c := calls[n];
      Letters(calls[..n])
      + (if LeavesLetter(calls, n) then [Entry(c.envelope.eventId, c.envelope.idempotencyKey, c.attempt, c.answer.error)] else [])
  }

  /** The dead letters are exactly those of the first calls on their keys, in order. */
  lemma {:induction false} DeadLettersExact(calls: seq<Call>)
    ensures After(calls).deadLetters == Letters(calls)
  {
    if calls != [] {
      var n := |calls| - 1;
      DeadLettersExact(calls[..n]);
      HandledOnce(calls, n);
      RunKeeps(calls[..n]);
      var before := calls[..n];
      assert Earlier(calls, n) <==> calls[n].envelope.idempotencyKey in After(before).claimed by {
        if Earlier(calls, n) {
          var j :| 0 <= j < n && calls[j].envelope.idempotencyKey == calls[n].envelope.idempotencyKey;
          assert before[j] == calls[j];
        }
        if calls[n].envelope.idempotencyKey in After(before).claimed {
          var j :| 0 <= j < |before| && before[j].envelope.idempotencyKey == calls[n].envelope.idempotencyKey;
          assert calls[j] == before[j];
        }
      }
    }
  }
}
