/**
 The fixed-window rate limiter shared by the REST and gateway endpoints, and the frame
 limiter of a gateway socket, with exact counting bounds over whole runs. Times are
 nanoseconds on a clock that does not run backwards.
 */
module RateLimit {
  import opened Numbers

  const NANOS_PER_SECOND: nat := 1_000_000_000

  /** Bucket keys are only compared. */
  type BucketName = nat

  datatype BucketState = BucketState(startedAt: nat, count: nat)

  datatype Decision = Decision(bucket: BucketName, allowed: bool, limit: nat, remaining: nat, resetAfterSeconds: nat)

  /** Elapsed time, zero if the clock reads earlier than the start. */
  function Since(now: nat, start: nat): nat { if now >= start then now - start else 0 }

  function AtLeastOne(n: nat): nat { if n == 0 then 1 else n }

  /** One call on one bucket: reopen the window if it is over, then count the call if it fits. */
  function Tick(limit: nat, window: nat, b: BucketState, now: nat): (BucketState, bool) {
    var b' := if Since(now, b.startedAt) >= window then BucketState(now, 0) else b;
    if b'.count >= limit then (b', false) else (b'.(count := b'.count + 1), true)
  }

  function Check(limit: nat, window: nat, state: map<BucketName, BucketState>, bucket: BucketName, now: nat)
    : (map<BucketName, BucketState>, Decision)
  {
    var b := if bucket in state then state[bucket] else BucketState(now, 0);
    var (b', allowed) := Tick(limit, window, b, now);
    var reset := AtLeastOne(SaturatingSub(window, Since(now, b'.startedAt)) / NANOS_PER_SECOND);
    (state[bucket := b'], Decision(bucket, allowed, limit, if allowed then SaturatingSub(limit, b'.count) else 0, reset))
  }

  // ---- what a call finds and is told ----

  /** A call on the bucket opens a new window: there is none, or it is over. */
  predicate OpensWindow(window: nat, state: map<BucketName, BucketState>, bucket: BucketName, now: nat) {
    bucket !in state || window == 0 || state[bucket].startedAt + window <= now
  }

  /** When the window of the call was opened. */
  function OpenedAt(window: nat, state: map<BucketName, BucketState>, bucket: BucketName, now: nat): nat {
    if OpensWindow(window, state, bucket, now) then now else state[bucket].startedAt
  }

  /** The calls counted in the window so far. */
  function UsedAt(window: nat, state: map<BucketName, BucketState>, bucket: BucketName, now: nat): nat {
    if OpensWindow(window, state, bucket, now) then 0 else state[bucket].count
  }

  /** What is left of a window; all of it on a clock that reads earlier than its start. */
  function TimeLeft(window: nat, openedAt: nat, now: nat): int {
    if now < openedAt then window else openedAt + window - now
  }

  /** The full seconds of a time, but at least one. */
  predicate TellsSeconds(seconds: nat, time: int) {
    && seconds >= 1
    && (time >= NANOS_PER_SECOND ==> seconds * NANOS_PER_SECOND <= time < (seconds + 1) * NANOS_PER_SECOND)
    && (time < NANOS_PER_SECOND ==> seconds == 1)
  }

  class FixedWindowRateLimiter {
    const limit: nat
    const window: nat
    var state: map<BucketName, BucketState>

    constructor (limit: nat, window: nat)
      ensures this.limit == limit && this.window == window && state == map[]
    {
      this.limit, this.window, state := limit, window, map[];
    }

    /** A call is allowed while its window holds fewer than the limit; what remains and when it ends are told. */
    method CheckBucket(bucket: BucketName, now: nat) returns (d: Decision)
      modifies this
      ensures (state, d) == Check(limit, window, old(state), bucket, now)
      ensures var used := UsedAt(window, old(state), bucket, now);
              && d.bucket == bucket && d.limit == limit
              && (d.allowed <==> used < limit)
              && d.remaining == (if used < limit then limit - used - 1 else 0)
              && state == old(state)[bucket := BucketState(OpenedAt(window, old(state), bucket, now),
                                                           if used < limit then used + 1 else used)]
      ensures TellsSeconds(d.resetAfterSeconds, TimeLeft(window, OpenedAt(window, old(state), bucket, now), now))
    {
      var b := if bucket in state then state[bucket] else BucketState(now, 0);
      if Since(now, b.startedAt) >= window {
        b := BucketState(now, 0);
      }
      var reset := AtLeastOne(SaturatingSub(window, Since(now, b.startedAt)) / NANOS_PER_SECOND);
      if b.count >= limit {
        state := state[bucket := b];
        return Decision(bucket, false, limit, 0, reset);
      }
      b := b.(count := b.count + 1);
      state := state[bucket := b];
      return Decision(bucket, true, limit, SaturatingSub(limit, b.count), reset);
    }

    method Clear() returns (cleared: nat)
      modifies this
      ensures state == map[] && cleared == |old(state)|
    {
      cleared := |state|;
      state := map[];
    }
  }

  // ---- runs of check calls ----

  datatype Call = Call(bucket: BucketName, at: nat)

  function StateAfter(limit: nat, window: nat, calls: seq<Call>): map<BucketName, BucketState> {
    if calls == [] then map[]
    else
      var c := calls[|calls| - 1];
      Check(limit, window, StateAfter(limit, window, calls[..|calls| - 1]), c.bucket, c.at).0
  }

  function LastDecision(limit: nat, window: nat, calls: seq<Call>): Decision
    requires calls != []
  {
    var c := calls[|calls| - 1];
    Check(limit, window, StateAfter(limit, window, calls[..|calls| - 1]), c.bucket, c.at).1
  }

  /** The decisions a run makes on one bucket, in order. */
  function DecisionsFor(limit: nat, window: nat, calls: seq<Call>, bucket: BucketName): seq<Decision> {
    if calls == [] then []
    else
      DecisionsFor(limit, window, calls[..|calls| - 1], bucket)
      + (if calls[|calls| - 1].bucket == bucket then [LastDecision(limit, window, calls)] else [])
  }

  function Only(calls: seq<Call>, bucket: BucketName): seq<Call> {
    if calls == [] then []
    else
      Only(calls[..|calls| - 1], bucket)
      + (if calls[|calls| - 1].bucket == bucket then [calls[|calls| - 1]] else [])
  }

  /** How many calls on a bucket were allowed in the half-open interval [from, to). */
  function AllowedIn(limit: nat, window: nat, calls: seq<Call>, bucket: BucketName, from: nat, to: nat): nat {
    if calls == [] then 0
    else
      var c := calls[|calls| - 1];
      AllowedIn(limit, window, calls[..|calls| - 1], bucket, from, to)
      + (if c.bucket == bucket && from <= c.at < to && LastDecision(limit, window, calls).allowed then 1 else 0)
  }

  ghost predicate InOrder(calls: seq<Call>) {
    forall i, j :: 0 <= i < j < |calls| ==> calls[i].at <= calls[j].at
  }

  lemma {:induction false} BucketIsolated(limit: nat, window: nat, calls: seq<Call>, bucket: BucketName)
    ensures var all, own := StateAfter(limit, window, calls), StateAfter(limit, window, Only(calls, bucket));
            (bucket in all <==> bucket in own) && (bucket in all ==> all[bucket] == own[bucket])
    ensures DecisionsFor(limit, window, calls, bucket) == DecisionsFor(limit, window, Only(calls, bucket), bucket)
  {
    if calls != [] {
      var init, c := calls[..|calls| - 1], calls[|calls| - 1];
      BucketIsolated(limit, window, init, bucket);
      if c.bucket == bucket {
        var own := Only(init, bucket) + [c];
        assert Only(calls, bucket) == own && own[..|own| - 1] == Only(init, bucket) && own[|own| - 1] == c;
      } else {
        assert Only(calls, bucket) == Only(init, bucket);
      }
    }
  }

  // ---- the counting bound ----

  /**
   What an interval starting at `from` may have been charged so far, given the bucket's
   window. Windows that opened inside the interval are a window length apart, so the j-th
   of them starts at or after from + j * window; `d` is 1 if the call that opened a window
   is always counted in it.
   */
  ghost predicate Budget(limit: nat, window: nat, b: BucketState, n: nat, from: nat, d: nat) {
    && d <= b.count <= limit
    && (b.startedAt < from ==> n + d <= b.count)
    && (b.startedAt >= from ==> exists j: nat :: Charged(limit, window, b, n, from, d, j))
  }

  ghost predicate Charged(limit: nat, window: nat, b: BucketState, n: nat, from: nat, d: nat, j: nat) {
    from + j * window <= b.startedAt && n + d <= limit + j * limit + b.count
  }

  lemma NextCharged(limit: nat, window: nat, b: BucketState, n: nat, from: nat, d: nat, j: nat, now: nat)
    requires Charged(limit, window, b, n, from, d, j) && b.count <= limit && now >= b.startedAt + window
    ensures Charged(limit, window, BucketState(now, 1), n + 1, from, d, j + 1)
  {
    MulSucc(j, window);
    MulSucc(j, limit);
  }

  lemma TickBudget(limit: nat, window: nat, b: BucketState, n: nat, from: nat, d: nat, now: nat)
    requires Budget(limit, window, b, n, from, d) && d <= 1 <= limit && b.startedAt <= now
    requires now < from ==> n == 0
    ensures var (b', allowed) := Tick(limit, window, b, now);
            && b'.startedAt <= now
            && Budget(limit, window, b', n + (if allowed && now >= from then 1 else 0), from, d)
  {
    if now - b.startedAt >= window {
      if b.startedAt >= from {
        var j: nat :| Charged(limit, window, b, n, from, d, j);
        NextCharged(limit, window, b, n, from, d, j, now);
      } else if now >= from {
        assert Charged(limit, window, BucketState(now, 1), n + 1, from, d, 0);
      }
    } else if b.startedAt >= from {
      var j: nat :| Charged(limit, window, b, n, from, d, j);
      assert b.count < limit ==> Charged(limit, window, b.(count := b.count + 1), n + 1, from, d, j);
    }
  }

  lemma MulSucc(k: nat, m: nat)
    ensures (k + 1) * m == k * m + m
  {
  }

  lemma ChargedBound(j: nat, k: nat, limit: nat)
    requires j < k
    ensures limit + j * limit + limit <= (k + 1) * limit
  {
    MulSucc(k, limit);
    MulSucc(j, limit);
    MulMonotone(j + 1, k, limit);
  }

  lemma BudgetBound(limit: nat, window: nat, b: BucketState, n: nat, from: nat, d: nat, k: nat)
    requires Budget(limit, window, b, n, from, d) && k >= 1 && b.startedAt < from + k * window
    ensures n + d <= (k + 1) * limit
  {
    ChargedBound(0, k, limit);
    if b.startedAt >= from {
      var j: nat :| Charged(limit, window, b, n, from, d, j);
      MulMonotone(k, j, window);
      ChargedBound(j, k, limit);
    }
  }

  lemma {:induction false} NothingBefore(limit: nat, window: nat, calls: seq<Call>, bucket: BucketName, from: nat, to: nat)
    requires forall i :: 0 <= i < |calls| ==> calls[i].at < from
    ensures AllowedIn(limit, window, calls, bucket, from, to) == 0
  {
    if calls != [] { NothingBefore(limit, window, calls[..|calls| - 1], bucket, from, to); }
  }

  lemma {:induction false} RunBudget(limit: nat, window: nat, calls: seq<Call>, bucket: BucketName, from: nat, to: nat)
    requires limit >= 1 && InOrder(calls) && forall i :: 0 <= i < |calls| ==> calls[i].at < to
    ensures var n, state := AllowedIn(limit, window, calls, bucket, from, to), StateAfter(limit, window, calls);
            if bucket in state then
              calls != [] && state[bucket].startedAt <= calls[|calls| - 1].at && Budget(limit, window, state[bucket], n, from, 1)
            else n == 0
  {
    if calls != [] {
      var init, c := calls[..|calls| - 1], calls[|calls| - 1];
      RunBudget(limit, window, init, bucket, from, to);
      if c.bucket == bucket {
        var state, n := StateAfter(limit, window, init), AllowedIn(limit, window, init, bucket, from, to);
        if c.at < from { NothingBefore(limit, window, init, bucket, from, to); }
        if bucket in state {
          TickBudget(limit, window, state[bucket], n, from, 1, c.at);
        } else {
          FirstBudget(limit, window, from, c.at);
        }
      }
    }
  }

  lemma FirstBudget(limit: nat, window: nat, from: nat, now: nat)
    requires limit >= 1
    ensures Tick(limit, window, BucketState(now, 0), now) == (BucketState(now, 1), true)
    ensures Budget(limit, window, BucketState(now, 1), if now >= from then 1 else 0, from, 1)
  {
    if now >= from { assert Charged(limit, window, BucketState(now, 1), 1, from, 1, 0); }
  }

  /**
   In every run, on every bucket, any half-open interval of k windows holds at most
   (k + 1) * limit - 1 allowed calls (none at all for a limit of zero).
   */
  lemma {:induction false} AllowedBound(limit: nat, window: nat, calls: seq<Call>, bucket: BucketName, from: nat, k: nat)
    requires InOrder(calls) && k >= 1
    ensures limit >= 1 ==> AllowedIn(limit, window, calls, bucket, from, from + k * window) <= (k + 1) * limit - 1
    ensures limit == 0 ==> AllowedIn(limit, window, calls, bucket, from, from + k * window) == 0
  {
    var to := from + k * window;
    ChargedBound(0, k, limit);
    if calls == [] {
    } else if calls[|calls| - 1].at >= to || limit == 0 {
      AllowedBound(limit, window, calls[..|calls| - 1], bucket, from, k);
    } else {
      assert forall i :: 0 <= i < |calls| ==> calls[i].at <= calls[|calls| - 1].at;
      RunBudget(limit, window, calls, bucket, from, to);
      var state := StateAfter(limit, window, calls);
      if bucket in state {
        BudgetBound(limit, window, state[bucket], AllowedIn(limit, window, calls, bucket, from, to), from, 1, k);
      }
    }
  }

  // ---- the bound is reached ----

  function Repeat(bucket: BucketName, at: nat, m: nat): seq<Call> {
    if m == 0 then [] else Repeat(bucket, at, m - 1) + [Call(bucket, at)]
  }

  /** k times a number, added up. */
  function Times(n: nat, k: nat): nat {
    if k == 0 then 0 else Times(n, k - 1) + n
  }

  lemma {:induction false} TimesIsProduct(n: nat, k: nat)
    ensures Times(n, k) == k * n
  {
    if k > 0 {
      TimesIsProduct(n, k - 1);
      MulSucc(k - 1, n);
    }
  }

  /** One call, then the rest of the first window at its very end, then k full windows. */
  function Burst(bucket: BucketName, limit: nat, window: nat, k: nat): seq<Call>
    requires limit >= 1 && window >= 1
  {
    if k == 0 then [Call(bucket, 0)] + Repeat(bucket, window - 1, limit - 1)
    else Burst(bucket, limit, window, k - 1) + Repeat(bucket, Times(window, k), limit)
  }

  /** The bucket as a call at time `at` finds it, its window reopened if that is over. */
  predicate Found(limit: nat, window: nat, calls: seq<Call>, bucket: BucketName, at: nat, b: BucketState) {
    && bucket in StateAfter(limit, window, calls)
    && var s := StateAfter(limit, window, calls)[bucket];
       b == if Since(at, s.startedAt) >= window then BucketState(at, 0) else s
  }

  /** A run whose next call on the bucket at `at` finds it in state `b`, with `n` calls allowed so far. */
  ghost predicate Stands(limit: nat, window: nat, calls: seq<Call>, bucket: BucketName, at: nat, from: nat, to: nat, b: BucketState, n: nat) {
    Found(limit, window, calls, bucket, at, b) && AllowedIn(limit, window, calls, bucket, from, to) == n
  }

  lemma OneMoreAllowed(limit: nat, window: nat, calls: seq<Call>, bucket: BucketName, at: nat, from: nat, to: nat, b: BucketState, n: nat)
    requires Stands(limit, window, calls, bucket, at, from, to, b, n) && window >= 1
    requires b.count < limit && from <= at < to
    ensures Stands(limit, window, calls + [Call(bucket, at)], bucket, at, from, to, b.(count := b.count + 1), n + 1)
  {
    var run := calls + [Call(bucket, at)];
    assert run[..|run| - 1] == calls;
  }

  /** A bucket in use is found as it was left. */
  lemma FoundInUse(limit: nat, window: nat, calls: seq<Call>, bucket: BucketName, at: nat, b: BucketState)
    requires Found(limit, window, calls, bucket, at, b) && b.count >= 1
    ensures bucket in StateAfter(limit, window, calls) && StateAfter(limit, window, calls)[bucket] == b
  {
  }

  lemma Regroup(a: seq<Call>, b: seq<Call>, c: seq<Call>)
    ensures a + (b + c) == (a + b) + c
  {
  }

  lemma {:induction false} RepeatAllowed(limit: nat, window: nat, calls: seq<Call>, bucket: BucketName, at: nat, m: nat,
                                         from: nat, to: nat, b: BucketState, n: nat)
    requires window >= 1 && Stands(limit, window, calls, bucket, at, from, to, b, n)
    requires b.count + m <= limit && from <= at < to
    ensures Stands(limit, window, calls + Repeat(bucket, at, m), bucket, at, from, to, b.(count := b.count + m), n + m)
  {
    if m == 0 {
      assert calls + Repeat(bucket, at, 0) == calls;
    } else {
      RepeatAllowed(limit, window, calls, bucket, at, m - 1, from, to, b, n);
      OneMoreAllowed(limit, window, calls + Repeat(bucket, at, m - 1), bucket, at, from, to, b.(count := b.count + m - 1), n + m - 1);
      Regroup(calls, Repeat(bucket, at, m - 1), [Call(bucket, at)]);
    }
  }

  lemma BurstStart(bucket: BucketName, limit: nat, window: nat, to: nat)
    requires limit >= 1 && window >= 2 && window - 1 < to
    ensures BurstReached(bucket, limit, window, Burst(bucket, limit, window, 0), 0, to, limit - 1)
  {
    var first := [Call(bucket, 0)];
    assert first[..0] == [];
    assert StateAfter(limit, window, first)[bucket] == BucketState(0, 1);
    assert AllowedIn(limit, window, first, bucket, window - 1, to) == 0;
    RepeatAllowed(limit, window, first, bucket, window - 1, limit - 1, window - 1, to, BucketState(0, 1), 0);
    FoundInUse(limit, window, first + Repeat(bucket, window - 1, limit - 1), bucket, window - 1, BucketState(0, limit));
  }

  /** All windows used up to `at`, with `n` calls allowed from the end of the first one on. */
  ghost predicate BurstReached(bucket: BucketName, limit: nat, window: nat, calls: seq<Call>, at: nat, to: nat, n: nat)
    requires window >= 1
  {
    && bucket in StateAfter(limit, window, calls)
    && StateAfter(limit, window, calls)[bucket] == BucketState(at, limit)
    && AllowedIn(limit, window, calls, bucket, window - 1, to) == n
  }

  lemma BurstNext(bucket: BucketName, limit: nat, window: nat, calls: seq<Call>, at: nat, to: nat, n: nat)
    requires limit >= 1 && window >= 2 && at + window < to && BurstReached(bucket, limit, window, calls, at, to, n)
    ensures BurstReached(bucket, limit, window, calls + Repeat(bucket, at + window, limit), at + window, to, n + limit)
  {
    RepeatAllowed(limit, window, calls, bucket, at + window, limit, window - 1, to, BucketState(at + window, 0), n);
    FoundInUse(limit, window, calls + Repeat(bucket, at + window, limit), bucket, at + window, BucketState(at + window, limit));
  }

  lemma {:induction false} BurstAllowed(bucket: BucketName, limit: nat, window: nat, k: nat, to: nat)
    requires limit >= 1 && window >= 2 && Times(window, k) < to && window - 1 < to
    ensures BurstReached(bucket, limit, window, Burst(bucket, limit, window, k), Times(window, k), to, Times(limit, k) + limit - 1)
  {
    if k == 0 {
      BurstStart(bucket, limit, window, to);
    } else {
      BurstAllowed(bucket, limit, window, k - 1, to);
      BurstNext(bucket, limit, window, Burst(bucket, limit, window, k - 1), Times(window, k - 1), to, Times(limit, k - 1) + limit - 1);
    }
  }

  lemma {:induction false} BurstTimes(bucket: BucketName, limit: nat, window: nat, k: nat)
    requires limit >= 1 && window >= 2
    ensures InOrder(Burst(bucket, limit, window, k))
    ensures forall i :: 0 <= i < |Burst(bucket, limit, window, k)| ==>
              Burst(bucket, limit, window, k)[i].at < Times(window, k + 1)
  {
    if k == 0 {
      RepeatTimes(bucket, window - 1, limit - 1);
    } else {
      BurstTimes(bucket, limit, window, k - 1);
      RepeatTimes(bucket, Times(window, k), limit);
    }
  }

  lemma {:induction false} RepeatTimes(bucket: BucketName, at: nat, m: nat)
    ensures |Repeat(bucket, at, m)| == m && forall i :: 0 <= i < m ==> Repeat(bucket, at, m)[i] == Call(bucket, at)
  {
    if m > 0 { RepeatTimes(bucket, at, m - 1); }
  }

  /**
   For every limit from 1 on, every window of at least two nanoseconds and every k there is a run
   that reaches the bound. (A window of one nanosecond has no room before its end for the early call.)
   */
  lemma BoundIsReached(bucket: BucketName, limit: nat, window: nat, k: nat)
    requires limit >= 1 && window >= 2 && k >= 1
    ensures var calls, from := Burst(bucket, limit, window, k), window - 1;
            InOrder(calls) && AllowedIn(limit, window, calls, bucket, from, from + k * window) == (k + 1) * limit - 1
  {
    MulMonotone(1, k, window);
    TimesIsProduct(window, k);
    TimesIsProduct(limit, k);
    BurstTimes(bucket, limit, window, k);
    MulSucc(k, limit);
    BurstAllowed(bucket, limit, window, k, window - 1 + k * window);
  }

  // ---- frames on a gateway socket ----

  const GATEWAY_CLIENT_FRAME_LIMIT: nat := 5
  const GATEWAY_CLIENT_FRAME_WINDOW: nat := NANOS_PER_SECOND

  class GatewayClientFrameRateLimiter {
    var windowStartedAt: nat
    var count: nat

    ghost function Bucket(): BucketState
      reads this
    {
      BucketState(windowStartedAt, count)
    }

    constructor (now: nat)
      ensures Bucket() == BucketState(now, 0)
    {
      windowStartedAt, count := now, 0;
    }

    method Allow(now: nat) returns (allowed: bool)
      modifies this
      ensures (Bucket(), allowed) == Tick(GATEWAY_CLIENT_FRAME_LIMIT, GATEWAY_CLIENT_FRAME_WINDOW, old(Bucket()), now)
      ensures var over := old(windowStartedAt) + NANOS_PER_SECOND <= now;
              var used := if over then 0 else old(count);
              && (allowed <==> used < 5)
              && windowStartedAt == (if over then now else old(windowStartedAt))
              && count == if allowed then used + 1 else used
    {
      if Since(now, windowStartedAt) >= GATEWAY_CLIENT_FRAME_WINDOW {
        windowStartedAt, count := now, 0;
      }
      if count >= GATEWAY_CLIENT_FRAME_LIMIT {
        return false;
      }
      count := count + 1;
      return true;
    }
  }

  function FrameBucket(start: nat, frames: seq<nat>): BucketState {
    if frames == [] then BucketState(start, 0)
    else Tick(GATEWAY_CLIENT_FRAME_LIMIT, GATEWAY_CLIENT_FRAME_WINDOW,
              FrameBucket(start, frames[..|frames| - 1]), frames[|frames| - 1]).0
  }

  function FramesIn(start: nat, frames: seq<nat>, from: nat, to: nat): nat {
    if frames == [] then 0
    else
      var at := frames[|frames| - 1];
      FramesIn(start, frames[..|frames| - 1], from, to)
      + (if from <= at < to && Tick(GATEWAY_CLIENT_FRAME_LIMIT, GATEWAY_CLIENT_FRAME_WINDOW,
                                    FrameBucket(start, frames[..|frames| - 1]), at).1 then 1 else 0)
  }

  ghost predicate FramesInOrder(start: nat, frames: seq<nat>) {
    && (forall i :: 0 <= i < |frames| ==> start <= frames[i])
    && (forall i, j :: 0 <= i < j < |frames| ==> frames[i] <= frames[j])
  }

  lemma {:induction false} NoFramesBefore(start: nat, frames: seq<nat>, from: nat, to: nat)
    requires forall i :: 0 <= i < |frames| ==> frames[i] < from
    ensures FramesIn(start, frames, from, to) == 0
  {
    if frames != [] { NoFramesBefore(start, frames[..|frames| - 1], from, to); }
  }

  lemma {:induction false} FrameRunBudget(start: nat, frames: seq<nat>, from: nat, to: nat)
    requires FramesInOrder(start, frames) && forall i :: 0 <= i < |frames| ==> frames[i] < to
    ensures var b := FrameBucket(start, frames);
            && start <= b.startedAt && (frames == [] || b.startedAt <= frames[|frames| - 1])
            && (frames == [] ==> b.startedAt == start)
            && Budget(GATEWAY_CLIENT_FRAME_LIMIT, GATEWAY_CLIENT_FRAME_WINDOW, b, FramesIn(start, frames, from, to), from, 0)
  {
    if frames == [] {
      if start >= from {
        assert Charged(GATEWAY_CLIENT_FRAME_LIMIT, GATEWAY_CLIENT_FRAME_WINDOW, BucketState(start, 0), 0, from, 0, 0);
      }
    } else {
      var init, at := frames[..|frames| - 1], frames[|frames| - 1];
      FrameRunBudget(start, init, from, to);
      if at < from { NoFramesBefore(start, init, from, to); }
      TickBudget(GATEWAY_CLIENT_FRAME_LIMIT, GATEWAY_CLIENT_FRAME_WINDOW, FrameBucket(start, init),
                 FramesIn(start, init, from, to), from, 0, at);
    }
  }

  /** A socket accepts at most 5 * (k + 1) client frames in any k seconds. */
  lemma {:induction false} FrameBound(start: nat, frames: seq<nat>, from: nat, k: nat)
    requires FramesInOrder(start, frames) && k >= 1
    ensures FramesIn(start, frames, from, from + k * GATEWAY_CLIENT_FRAME_WINDOW) <= (k + 1) * GATEWAY_CLIENT_FRAME_LIMIT
  {
    var to := from + k * GATEWAY_CLIENT_FRAME_WINDOW;
    if frames == [] {
    } else if frames[|frames| - 1] >= to {
      FrameBound(start, frames[..|frames| - 1], from, k);
    } else {
      assert forall i :: 0 <= i < |frames| ==> frames[i] <= frames[|frames| - 1];
      FrameRunBudget(start, frames, from, to);
      BudgetBound(GATEWAY_CLIENT_FRAME_LIMIT, GATEWAY_CLIENT_FRAME_WINDOW, FrameBucket(start, frames),
                  FramesIn(start, frames, from, to), from, 0, k);
    }
  }

  // ---- the frame bound is reached ----

  /** The frame bucket as a frame at `at` finds it, with `n` frames accepted so far. */
  ghost predicate FrameStands(frames: seq<nat>, at: nat, from: nat, to: nat, b: BucketState, n: nat) {
    && FramesIn(0, frames, from, to) == n
    && var s := FrameBucket(0, frames);
       b == if Since(at, s.startedAt) >= GATEWAY_CLIENT_FRAME_WINDOW then BucketState(at, 0) else s
  }

  lemma OneMoreFrame(frames: seq<nat>, at: nat, from: nat, to: nat, b: BucketState, n: nat)
    requires FrameStands(frames, at, from, to, b, n) && b.count < GATEWAY_CLIENT_FRAME_LIMIT && from <= at < to
    ensures FrameStands(frames + [at], at, from, to, b.(count := b.count + 1), n + 1)
  {
    assert (frames + [at])[..|frames|] == frames;
  }

  /** A full window at one instant. */
  function Five(frames: seq<nat>, at: nat): seq<nat> {
    frames + [at] + [at] + [at] + [at] + [at]
  }

  lemma FiveMore(frames: seq<nat>, at: nat, from: nat, to: nat, b: BucketState, n: nat)
    requires FrameStands(frames, at, from, to, b, n) && b.count == 0 && from <= at < to
    ensures FrameBucket(0, Five(frames, at)) == b.(count := 5) && FramesIn(0, Five(frames, at), from, to) == n + 5
  {
    OneMoreFrame(frames, at, from, to, b, n);
    OneMoreFrame(frames + [at], at, from, to, b.(count := 1), n + 1);
    OneMoreFrame(frames + [at] + [at], at, from, to, b.(count := 2), n + 2);
    OneMoreFrame(frames + [at] + [at] + [at], at, from, to, b.(count := 3), n + 3);
    OneMoreFrame(frames + [at] + [at] + [at] + [at], at, from, to, b.(count := 4), n + 4);
  }

  /** The first window used at its very end, then k full windows. */
  function FrameBurst(k: nat): seq<nat> {
    if k == 0 then Five([], GATEWAY_CLIENT_FRAME_WINDOW - 1)
    else Five(FrameBurst(k - 1), Times(GATEWAY_CLIENT_FRAME_WINDOW, k))
  }

  lemma {:induction false} FrameBurstAccepted(k: nat, to: nat)
    requires Times(GATEWAY_CLIENT_FRAME_WINDOW, k) < to && GATEWAY_CLIENT_FRAME_WINDOW - 1 < to
    ensures FrameBucket(0, FrameBurst(k)) == BucketState(Times(GATEWAY_CLIENT_FRAME_WINDOW, k), 5)
    ensures FramesIn(0, FrameBurst(k), GATEWAY_CLIENT_FRAME_WINDOW - 1, to) == Times(5, k) + 5
  {
    var from := GATEWAY_CLIENT_FRAME_WINDOW - 1;
    if k == 0 {
      FiveMore([], from, from, to, BucketState(0, 0), 0);
    } else {
      var at := Times(GATEWAY_CLIENT_FRAME_WINDOW, k);
      FrameBurstAccepted(k - 1, to);
      FiveMore(FrameBurst(k - 1), at, from, to, BucketState(at, 0), Times(5, k - 1) + 5);
    }
  }

  lemma {:induction false} FrameBurstInOrder(k: nat)
    ensures FramesInOrder(0, FrameBurst(k))
    ensures forall i :: 0 <= i < |FrameBurst(k)| ==> FrameBurst(k)[i] < Times(GATEWAY_CLIENT_FRAME_WINDOW, k + 1)
  {
    if k > 0 { FrameBurstInOrder(k - 1); }
  }

  /** For every k there is a run of frames that reaches the bound. */
  lemma FrameBoundIsReached(k: nat)
    requires k >= 1
    ensures var frames, from := FrameBurst(k), GATEWAY_CLIENT_FRAME_WINDOW - 1;
            && FramesInOrder(0, frames)
            && FramesIn(0, frames, from, from + k * GATEWAY_CLIENT_FRAME_WINDOW) == (k + 1) * GATEWAY_CLIENT_FRAME_LIMIT
  {
    TimesIsProduct(GATEWAY_CLIENT_FRAME_WINDOW, k);
    TimesIsProduct(5, k);
    FrameBurstInOrder(k);
    FrameBurstAccepted(k, GATEWAY_CLIENT_FRAME_WINDOW - 1 + k * GATEWAY_CLIENT_FRAME_WINDOW);
  }
}
