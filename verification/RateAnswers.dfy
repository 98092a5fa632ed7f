/** What the answers of the rate limiter mean for the calls that follow. */
module RateAnswers {
  import opened RateLimit

  lemma OneCheck(limit: nat, window: nat, calls: seq<Call>, bucket: BucketName, at: nat)
    ensures StateAfter(limit, window, calls + [Call(bucket, at)]) == Check(limit, window, StateAfter(limit, window, calls), bucket, at).0
    ensures LastDecision(limit, window, calls + [Call(bucket, at)]) == Check(limit, window, StateAfter(limit, window, calls), bucket, at).1
  {
    assert (calls + [Call(bucket, at)])[..|calls|] == calls;
  }

  /** The bucket after a call at `at`: its window is not over yet, and this much of it is used. */
  ghost predicate UsedUp(limit: nat, window: nat, calls: seq<Call>, bucket: BucketName, at: nat, used: nat) {
    && bucket in StateAfter(limit, window, calls)
    && var b := StateAfter(limit, window, calls)[bucket];
       at < b.startedAt + window && b.count == used
  }

  lemma AfterCall(limit: nat, window: nat, calls: seq<Call>, bucket: BucketName, at: nat)
    requires window >= 1
    ensures var run := calls + [Call(bucket, at)];
            var d := LastDecision(limit, window, run);
            && (d.allowed ==> d.remaining < limit && UsedUp(limit, window, run, bucket, at, limit - d.remaining))
            && (!d.allowed ==> d.remaining == 0 && exists used :: used >= limit && UsedUp(limit, window, run, bucket, at, used))
  {
    OneCheck(limit, window, calls, bucket, at);
    var run := calls + [Call(bucket, at)];
    if !LastDecision(limit, window, run).allowed {
      assert UsedUp(limit, window, run, bucket, at, StateAfter(limit, window, run)[bucket].count);
    }
  }

  lemma NextCall(limit: nat, window: nat, calls: seq<Call>, bucket: BucketName, at: nat, used: nat)
    requires window >= 1 && UsedUp(limit, window, calls, bucket, at, used)
    ensures var run := calls + [Call(bucket, at)];
            && (LastDecision(limit, window, run).allowed <==> used < limit)
            && UsedUp(limit, window, run, bucket, at, if used < limit then used + 1 else used)
  {
    OneCheck(limit, window, calls, bucket, at);
  }

  /** The answer to the last of `m` more calls at one instant. */
  ghost predicate Allows(limit: nat, window: nat, calls: seq<Call>, bucket: BucketName, at: nat, m: nat)
    requires m >= 1
  {
    LastDecision(limit, window, calls + Repeat(bucket, at, m)).allowed
  }

  lemma RepeatSnoc(calls: seq<Call>, bucket: BucketName, at: nat, m: nat)
    requires m >= 1
    ensures calls + Repeat(bucket, at, m) == (calls + Repeat(bucket, at, m - 1)) + [Call(bucket, at)]
  {
  }

  lemma NextRepeat(limit: nat, window: nat, calls: seq<Call>, bucket: BucketName, at: nat, used: nat, m: nat)
    requires m >= 1 && window >= 1 && UsedUp(limit, window, calls + Repeat(bucket, at, m - 1), bucket, at, used)
    ensures Allows(limit, window, calls, bucket, at, m) <==> used < limit
    ensures used < limit ==> UsedUp(limit, window, calls + Repeat(bucket, at, m), bucket, at, used + 1)
  {
    var before := calls + Repeat(bucket, at, m - 1);
    RepeatSnoc(calls, bucket, at, m);
    NextCall(limit, window, before, bucket, at, used);
  }

  lemma {:induction false} Repeated(limit: nat, window: nat, calls: seq<Call>, bucket: BucketName, at: nat, used: nat, m: nat)
    requires window >= 1 && UsedUp(limit, window, calls, bucket, at, used) && used + m <= limit
    ensures UsedUp(limit, window, calls + Repeat(bucket, at, m), bucket, at, used + m)
    ensures m >= 1 ==> Allows(limit, window, calls, bucket, at, m)
  {
    if m == 0 {
      assert calls + Repeat(bucket, at, 0) == calls;
    } else {
      Repeated(limit, window, calls, bucket, at, used, m - 1);
      NextRepeat(limit, window, calls, bucket, at, used + m - 1, m);
    }
  }

  lemma OneTooMany(limit: nat, window: nat, calls: seq<Call>, bucket: BucketName, at: nat, used: nat)
    requires window >= 1 && UsedUp(limit, window, calls, bucket, at, used) && used <= limit
    ensures !Allows(limit, window, calls, bucket, at, limit - used + 1)
  {
    var m := limit - used;
    Repeated(limit, window, calls, bucket, at, used, m);
    NextRepeat(limit, window, calls, bucket, at, limit, m + 1);
  }

  /**
   After an allowed call that is told `remaining`, exactly that many further calls on the bucket at
   the same instant are allowed, and the one after them is refused.
   */
  lemma RemainingMeans(limit: nat, window: nat, calls: seq<Call>, bucket: BucketName, at: nat)
    requires window >= 1 && LastDecision(limit, window, calls + [Call(bucket, at)]).allowed
    ensures var run := calls + [Call(bucket, at)];
            var r := LastDecision(limit, window, run).remaining;
            && (forall m: nat :: 1 <= m <= r ==> Allows(limit, window, run, bucket, at, m))
            && !Allows(limit, window, run, bucket, at, r + 1)
  {
    var run := calls + [Call(bucket, at)];
    var r := LastDecision(limit, window, run).remaining;
    AfterCall(limit, window, calls, bucket, at);
    forall m: nat | 1 <= m <= r ensures Allows(limit, window, run, bucket, at, m) {
      Repeated(limit, window, run, bucket, at, limit - r, m);
    }
    OneTooMany(limit, window, run, bucket, at, limit - r);
  }

  /** What is left of the window that a call was counted or refused in. */
  function LeftAfter(limit: nat, window: nat, calls: seq<Call>, bucket: BucketName, at: nat): int
    requires bucket in StateAfter(limit, window, calls)
  {
    StateAfter(limit, window, calls)[bucket].startedAt + window - at
  }

  lemma MulStep(s: nat, n: nat)
    ensures (s + 1) * n == s * n + n
  {
  }

  /**
   After a refused call that is told to wait: a next call on the bucket is allowed exactly from the
   end of the window on. Waiting one second longer than told is always enough; waiting as long as
   told is enough exactly when what was left were full seconds, or less than one.
   */
  lemma WaitMeans(limit: nat, window: nat, calls: seq<Call>, bucket: BucketName, at: nat, wait: nat)
    requires limit >= 1 && InOrder(calls + [Call(bucket, at)])
    requires !LastDecision(limit, window, calls + [Call(bucket, at)]).allowed
    ensures var run := calls + [Call(bucket, at)];
            var s := LastDecision(limit, window, run).resetAfterSeconds;
            && bucket in StateAfter(limit, window, run)
            && var left := LeftAfter(limit, window, run, bucket, at);
               && 0 < left
               && (LastDecision(limit, window, run + [Call(bucket, at + wait)]).allowed <==> wait >= left)
               && (wait == (s + 1) * NANOS_PER_SECOND ==> wait >= left)
               && (wait == s * NANOS_PER_SECOND ==>
                     (wait >= left <==> left < NANOS_PER_SECOND || left == s * NANOS_PER_SECOND))
  {
    var run := calls + [Call(bucket, at)];
    OneCheck(limit, window, calls, bucket, at);
    OneCheck(limit, window, run, bucket, at + wait);
    StartsBefore(limit, window, calls, bucket, at);
    RefusedTells(limit, window, StateAfter(limit, window, calls), bucket, at);
    MulStep(LastDecision(limit, window, run).resetAfterSeconds, NANOS_PER_SECOND);
  }

  /** A refusal finds a window that is not over, and tells its full seconds. */
  lemma RefusedTells(limit: nat, window: nat, state: map<BucketName, BucketState>, bucket: BucketName, at: nat)
    requires limit >= 1 && !Check(limit, window, state, bucket, at).1.allowed && bucket in state && state[bucket].startedAt <= at
    ensures var (state', d) := Check(limit, window, state, bucket, at);
            && state' == state && at < state[bucket].startedAt + window
            && TellsSeconds(d.resetAfterSeconds, state[bucket].startedAt + window - at)
  {
    var left: nat := state[bucket].startedAt + window - at;
    assert Check(limit, window, state, bucket, at).1.resetAfterSeconds == AtLeastOne(left / NANOS_PER_SECOND);
  }

  /** On a clock that does not run backwards no window starts after the last call. */
  lemma {:induction false} StartsBefore(limit: nat, window: nat, calls: seq<Call>, bucket: BucketName, at: nat)
    requires InOrder(calls + [Call(bucket, at)])
    ensures bucket in StateAfter(limit, window, calls) ==> StateAfter(limit, window, calls)[bucket].startedAt <= at
    decreases |calls|
  {
    if calls != [] {
      var init, c := calls[..|calls| - 1], calls[|calls| - 1];
      var all := calls + [Call(bucket, at)];
      assert all[|init|] == c && all[|calls|] == Call(bucket, at);
      forall i, j | 0 <= i < j < |init + [Call(bucket, at)]|
        ensures (init + [Call(bucket, at)])[i].at <= (init + [Call(bucket, at)])[j].at
      {
        assert all[i].at <= (if j < |init| then all[j].at else at);
      }
      StartsBefore(limit, window, init, bucket, at);
      assert c.at <= at;
    }
  }
}
