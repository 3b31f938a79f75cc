/** When the expiry of a breaker record can be noticed by later calls. */
module BreakerExpiry {
  import opened Domain
  import opened CircuitBreakers

  /** The counted failures can no longer be added to. */
  predicate Quiet(c: Config, cb: Record, now: int) {
    cb.failures == 0 || !InWindow(c, cb, now)
  }

  /** The record could be dropped at `now` without a trace. */
  predicate Droppable(c: Config, cb: Record, now: int) {
    cb.state.Closed? && Quiet(c, cb, now)
  }

  function Dropped(s: Stored): Stored {
    s.(record := None)
  }

  /** Two stores no later call can tell apart. */
  predicate Alike(c: Config, a: Stored, b: Stored, now: int) {
    var ca, cb := Current(a, now), Current(b, now);
    && a.lockedUntil == b.lockedUntil
    && ca.state == cb.state && ca.successes == cb.successes && ca.nextProbeAt == cb.nextProbeAt
    && (!ca.state.Closed? ==> ca.stateChangedAt == cb.stateChangedAt)
    && ((ca.failures == cb.failures && ca.lastFailureAt == cb.lastFailureAt)
        || (ca.state.Closed? && Quiet(c, ca, now) && Quiet(c, cb, now)))
  }

  lemma StepKeepsAlike(c: Config, a: Stored, b: Stored, from: int, call: Call)
    requires Alike(c, a, b, from) && from <= call.at
    ensures Step(c, a, call).1 == Step(c, b, call).1
    ensures Alike(c, Step(c, a, call).0, Step(c, b, call).0, call.at)
  {
  }

  lemma {:induction false} AlikeReplies(c: Config, a: Stored, b: Stored, from: int, calls: seq<Call>)
    requires Alike(c, a, b, from) && Timely(calls, from)
    ensures Replies(c, a, calls) == Replies(c, b, calls)
    decreases |calls|
  {
    if calls != [] {
      StepKeepsAlike(c, a, b, from, calls[0]);
      AlikeReplies(c, Step(c, a, calls[0]).0, Step(c, b, calls[0]).0, calls[0].at, calls[1..]);
    }
  }

  /** A burst of failures at one instant. */
  function Burst(n: nat, now: int): seq<Call> {
    if n == 0 then [] else [RecordFailure(now)] + Burst(n - 1, now)
  }

  lemma {:induction false} BurstTimely(n: nat, now: int)
    ensures Timely(Burst(n, now), now) && |Burst(n, now)| == n
  {
    if n > 0 {
      BurstTimely(n - 1, now);
      assert Burst(n, now)[1..] == Burst(n - 1, now);
    }
  }

  /** A burst on a closed circuit with recent failures opens it exactly when it brings the count to the threshold. */
  lemma {:induction false} BurstReply(c: Config, s: Stored, n: nat, now: int)
    requires 0 < c.failureWindow && 1 <= n
    requires s.record.Some? && s.record.value.state.Closed? && 1 <= s.record.value.failures
    requires InWindow(c, s.record.value, now) && s.record.value.failures + n <= c.failureThreshold
    ensures |Replies(c, s, Burst(n, now))| == n
    ensures Replies(c, s, Burst(n, now))[n - 1] ==
            Told(if s.record.value.failures + n == c.failureThreshold then Open else Closed)
    decreases n
  {
    var s' := Step(c, s, RecordFailure(now)).0;
    assert Burst(n, now)[1..] == Burst(n - 1, now);
    if n > 1 {
      BurstReply(c, s', n - 1, now);
    } else {
      assert Replies(c, s', Burst(0, now)) == [];
    }
  }

  lemma RecentFailuresShow(c: Config, s: Stored, now: int)
    requires 0 < c.failureWindow
    requires s.record.Some? && WellShaped(c, s.record.value) && s.record.value.state.Closed?
    requires 0 < s.record.value.failures && InWindow(c, s.record.value, now)
    ensures var n := c.failureThreshold - s.record.value.failures;
            n > 0 && Timely(Burst(n, now), now) && Replies(c, s, Burst(n, now)) != Replies(c, Dropped(s), Burst(n, now))
  {
    var n := c.failureThreshold - s.record.value.failures;
    BurstTimely(n, now);
    BurstReply(c, s, n, now);
    var d' := Step(c, Dropped(s), RecordFailure(now)).0;
    assert Burst(n, now)[1..] == Burst(n - 1, now);
    if n > 1 {
      BurstReply(c, d', n - 1, now);
      assert Replies(c, Dropped(s), Burst(n, now))[n - 1] == Told(Closed);
    } else {
      assert Replies(c, Dropped(s), Burst(n, now))[0] == Told(Closed);
    }
  }

  lemma NotClosedShows(c: Config, s: Stored, now: int)
    requires s.record.Some? && !s.record.value.state.Closed?
    ensures Timely([ShouldAllow(now)], now) &&
        Replies(c, s, [ShouldAllow(now)]) != Replies(c, Dropped(s), [ShouldAllow(now)])
  {
    var calls := [ShouldAllow(now)];
    assert calls[1..] == [];
    assert Replies(c, s, calls)[0] != Replies(c, Dropped(s), calls)[0];
  }

  ghost predicate Unobservable(c: Config, s: Stored, now: int) {
    forall calls :: Timely(calls, now) ==> Replies(c, s, calls) == Replies(c, Dropped(s), calls)
  }

  /** Main result: no later sequence of calls can tell a record from its expiry at `now`, if and only if the circuit is
      closed and has no failure inside the failure window. */
  lemma ExpiryUnobservableIff(c: Config, s: Stored, now: int)
    requires 0 < c.failureWindow
    requires s.record.Some? && WellShaped(c, s.record.value)
    ensures Unobservable(c, s, now) <==> Droppable(c, s.record.value, now)
  {
    var cb := s.record.value;
    if Droppable(c, cb, now) {
      forall calls | Timely(calls, now) ensures Replies(c, s, calls) == Replies(c, Dropped(s), calls) {
        AlikeReplies(c, s, Dropped(s), now, calls);
      }
    } else if !cb.state.Closed? {
      NotClosedShows(c, s, now);
    } else {
      RecentFailuresShow(c, s, now);
    }
  }

  /** The record of a closed circuit with no failures, which is kept only twice the recovery timeout, may expire at any
      time. */
  lemma IdleRecordMayExpire(c: Config, s: Stored, now: int, calls: seq<Call>)
    requires s.record.Some? && WellShaped(c, s.record.value)
    requires s.record.value.state.Closed? && s.record.value.failures == 0 && Timely(calls, now)
    ensures Replies(c, s, calls) == Replies(c, Dropped(s), calls)
  {
    AlikeReplies(c, s, Dropped(s), now, calls);
  }
}
