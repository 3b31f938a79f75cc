/** How far apart the breaker grants probes, with every call atomic and no record expiring. */
module BreakerSpacing {
  import opened Domain
  import opened CircuitBreakers

  /** The call is granted as a probe. */
  predicate IsGrant(c: Config, s: Stored, call: Call) {
    call.ShouldAllow? && Allow(c, s, call.at).1 == Answer(true, true)
  }

  /** A success is reported while the circuit is open. */
  predicate IsLateSuccess(s: Stored, call: Call) {
    call.RecordSuccess? && s.record.Some? && s.record.value.state.Open?
  }

  predicate NoLateSuccess(c: Config, s: Stored, calls: seq<Call>)
    decreases |calls|
  {
    calls == [] || (!IsLateSuccess(s, calls[0]) && NoLateSuccess(c, Step(c, s, calls[0]).0, calls[1..]))
  }

  function Shorter(c: Config): int {
    if c.probeInterval < c.recoveryTimeout then c.probeInterval else c.recoveryTimeout
  }

  /** No probe is granted before `from` plus the shorter of the two intervals. */
  predicate Spaced(c: Config, s: Stored, from: int) {
    s.record.Some? && match s.record.value.state
                      case Closed => true
                      case Open => from <= s.record.value.stateChangedAt
                      case HalfOpen =>
                        && s.record.value.nextProbeAt.Some?
                        && from + c.probeInterval <= s.record.value.nextProbeAt.value
  }

  lemma GrantSpaces(c: Config, s: Stored, call: Call)
    requires IsGrant(c, s, call)
    ensures Spaced(c, Step(c, s, call).0, call.at)
  {
  }

  lemma StepKeepsSpaced(c: Config, s: Stored, call: Call, from: int)
    requires Spaced(c, s, from) && from <= call.at && !IsLateSuccess(s, call)
    ensures Spaced(c, Step(c, s, call).0, from)
    ensures IsGrant(c, s, call) ==> from + Shorter(c) < call.at
  {
  }

  lemma {:induction false} CallsKeepSpaced(c: Config, s: Stored, calls: seq<Call>, from: int, at: int)
    requires Spaced(c, s, from) && from <= at && Timely(calls, at) && NoLateSuccess(c, s, calls)
    ensures Spaced(c, AfterCalls(c, s, calls), from)
    decreases |calls|
  {
    if calls != [] {
      StepKeepsSpaced(c, s, calls[0], from);
      CallsKeepSpaced(c, Step(c, s, calls[0]).0, calls[1..], from, calls[0].at);
    }
  }

  /** Main result: two probes, granted by either branch and with anything but a late success in between, are more than
      the shorter of the probe interval and the recovery timeout apart. */
  lemma ProbesSpaced(c: Config, s: Stored, first: Call, between: seq<Call>, second: Call)
    requires IsGrant(c, s, first) && Timely(between, first.at) && first.at <= second.at
    requires var s1 := Step(c, s, first).0;
             NoLateSuccess(c, s1, between) && IsGrant(c, AfterCalls(c, s1, between), second)
    ensures first.at + Shorter(c) < second.at
  {
    var s1 := Step(c, s, first).0;
    GrantSpaces(c, s, first);
    CallsKeepSpaced(c, s1, between, first.at, first.at);
    StepKeepsSpaced(c, AfterCalls(c, s1, between), second, first.at);
  }

  /** The probe lock is held until a probe interval after `from`, and no opening is older. */
  predicate LockHeld(c: Config, s: Stored, from: int) {
    && s.lockedUntil.Some? && from + c.probeInterval <= s.lockedUntil.value
    && (s.record.Some? && s.record.value.state.Open? ==> from <= s.record.value.stateChangedAt)
  }

  lemma StepKeepsLock(c: Config, s: Stored, call: Call, from: int)
    requires LockHeld(c, s, from) && from <= call.at
    ensures LockHeld(c, Step(c, s, call).0, from)
    ensures IsGrant(c, s, call) ==> from + Shorter(c) <= call.at
  {
  }

  lemma {:induction false} CallsKeepLock(c: Config, s: Stored, calls: seq<Call>, from: int, at: int)
    requires LockHeld(c, s, from) && from <= at && Timely(calls, at)
    ensures LockHeld(c, AfterCalls(c, s, calls), from)
    decreases |calls|
  {
    if calls != [] {
      StepKeepsLock(c, s, calls[0], from);
      CallsKeepLock(c, Step(c, s, calls[0]).0, calls[1..], from, calls[0].at);
    }
  }

  /** Main result: after a probe granted in HALF_OPEN, which takes the lock, the same spacing holds whatever comes in
      between, late successes included. Only a late success after a probe granted by leaving OPEN brings two probes
      closer. */
  lemma ProbesSpacedByLock(c: Config, s: Stored, first: Call, between: seq<Call>, second: Call)
    requires IsGrant(c, s, first) && s.record.Some? && s.record.value.state.HalfOpen?
    requires Timely(between, first.at) && first.at <= second.at
    requires IsGrant(c, AfterCalls(c, Step(c, s, first).0, between), second)
    ensures first.at + Shorter(c) <= second.at
  {
    var s1 := Step(c, s, first).0;
    CallsKeepLock(c, s1, between, first.at, first.at);
    StepKeepsLock(c, AfterCalls(c, s1, between), second, first.at);
  }

  /** A late success undoes the spacing: the circuit it half-opens has no probe time, so the next request is a probe at
      once, however recent the failed one. */
  lemma LateSuccessProbesAtOnce(c: Config, s: Stored, now: int)
    requires s.record.Some? && s.record.value.state.Open? && s.record.value.nextProbeAt.None?
    requires now > s.record.value.stateChangedAt + c.recoveryTimeout && s.lockedUntil.None?
    ensures var s1 := Step(c, s, ShouldAllow(now)).0;
            var s2 := AfterCalls(c, s1, [RecordFailure(now), RecordSuccess(now)]);
            IsGrant(c, s, ShouldAllow(now)) && IsGrant(c, s2, ShouldAllow(now))
  {
    var s1 := Step(c, s, ShouldAllow(now)).0;
    var calls := [RecordFailure(now), RecordSuccess(now)];
    assert calls[1..] == [RecordSuccess(now)] && calls[1..][1..] == [];
    var s2 := Step(c, s1, RecordFailure(now)).0;
    var s3 := Step(c, s2, RecordSuccess(now)).0;
    assert AfterCalls(c, s1, calls) == AfterCalls(c, s2, calls[1..]) == AfterCalls(c, s3, []) == s3;
  }
}
