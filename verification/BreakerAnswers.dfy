/** What the breaker answers a request, told by the calls before it: every call atomic and no record expiring. */
module BreakerAnswers {
  import opened Domain
  import opened CircuitBreakers
  import opened BreakerHistory

  function AnswerAt(c: Config, calls: seq<Call>, now: int): Answer {
    Allow(c, At(c, calls), now).1
  }

  /** When the circuit last opened. */
  function OpenedAt(c: Config, calls: seq<Call>): int {
    if calls == [] then 0
    else
      var front := calls[..|calls| - 1];
      if StateAt(c, calls).Open? && !StateAt(c, front).Open? then calls[|calls| - 1].at else OpenedAt(c, front)
  }

  /** The last call is a request that is granted as a probe. */
  predicate ProbedLast(c: Config, calls: seq<Call>) {
    && calls != [] && calls[|calls| - 1].ShouldAllow?
    && AnswerAt(c, calls[..|calls| - 1], calls[|calls| - 1].at) == Answer(true, true)
  }

  /** The last probe since the circuit left OPEN, the one that left it included. */
  function LastProbe(c: Config, calls: seq<Call>): Option<int> {
    if calls == [] || !StateAt(c, calls).HalfOpen? then None
    else if ProbedLast(c, calls) then Some(calls[|calls| - 1].at)
    else LastProbe(c, calls[..|calls| - 1])
  }

  /** The last probe granted while half-open, which took the lock. */
  function LastLock(c: Config, calls: seq<Call>): Option<int> {
    if calls == [] then None
    else if ProbedLast(c, calls) && StateAt(c, calls[..|calls| - 1]).HalfOpen? then Some(calls[|calls| - 1].at)
    else LastLock(c, calls[..|calls| - 1])
  }

  // ---------------------------------------------------------------- the record against the calls

  lemma {:induction false} OpenRecord(c: Config, calls: seq<Call>)
    requires StateAt(c, calls).Open?
    ensures At(c, calls).record.Some? && At(c, calls).record.value.stateChangedAt == OpenedAt(c, calls)
  {
    var front := calls[..|calls| - 1];
    if StateAt(c, front).Open? {
      OpenRecord(c, front);
    }
  }

  /** Only a half-open record has a probe time. */
  lemma {:induction false} NoProbeTime(c: Config, calls: seq<Call>)
    requires !StateAt(c, calls).HalfOpen?
    ensures Current(At(c, calls), 0).nextProbeAt.None?
  {
    if calls != [] {
      var front := calls[..|calls| - 1];
      if !StateAt(c, front).HalfOpen? {
        NoProbeTime(c, front);
      }
    }
  }

  lemma {:induction false} ProbeTime(c: Config, calls: seq<Call>)
    requires StateAt(c, calls).HalfOpen?
    ensures At(c, calls).record.Some?
    ensures At(c, calls).record.value.nextProbeAt ==
            if LastProbe(c, calls).Some? then Some(LastProbe(c, calls).value + c.probeInterval) else None
  {
    var front := calls[..|calls| - 1];
    if StateAt(c, front).HalfOpen? {
      ProbeTime(c, front);
    } else {
      NoProbeTime(c, front);
    }
  }

  lemma {:induction false} LockTime(c: Config, calls: seq<Call>)
    ensures At(c, calls).lockedUntil ==
            if LastLock(c, calls).Some? then Some(LastLock(c, calls).value + c.probeInterval) else None
  {
    if calls != [] {
      LockTime(c, calls[..|calls| - 1]);
    }
  }

  // ---------------------------------------------------------------- answers

  /** Main result: after any calls, a request is let through as an ordinary one exactly while the circuit is closed.
      Open, it is refused until the recovery timeout has passed since the circuit opened, and a probe afterwards.
      Half-open, it is a probe exactly when more than the probe interval has passed since the last one, and at least it
      since the lock was last taken; otherwise it is refused. */
  lemma AnswersTold(c: Config, calls: seq<Call>, now: int)
    ensures AnswerAt(c, calls, now) ==
            match StateAt(c, calls)
            case Closed => Answer(true, false)
            case Open =>
              if OpenedAt(c, calls) + c.recoveryTimeout < now then Answer(true, true) else Answer(false, false)
            case HalfOpen =>
              if (LastProbe(c, calls).Some? ==> LastProbe(c, calls).value + c.probeInterval < now)
                 && (LastLock(c, calls).Some? ==> LastLock(c, calls).value + c.probeInterval <= now)
              then Answer(true, true) else Answer(false, false)
    ensures AnswerAt(c, calls, now) == Answer(true, false) <==> StateAt(c, calls).Closed?
  {
    if StateAt(c, calls).Open? {
      OpenRecord(c, calls);
    } else if StateAt(c, calls).HalfOpen? {
      ProbeTime(c, calls);
      LockTime(c, calls);
    }
  }

  function FailureCount(calls: seq<Call>): nat {
    if calls == [] then 0
    else FailureCount(calls[..|calls| - 1]) + (if calls[|calls| - 1].RecordFailure? then 1 else 0)
  }

  /** Main result: an endpoint with fewer failures than the threshold, in all its history, is never refused a
      request. */
  lemma {:induction false} FewFailuresNeverRefused(c: Config, calls: seq<Call>, now: int)
    requires FailureCount(calls) < c.failureThreshold
    ensures AnswerAt(c, calls, now) == Answer(true, false)
    ensures StateAt(c, calls).Closed? && Current(At(c, calls), 0).failures <= FailureCount(calls)
  {
    if calls != [] {
      FewFailuresNeverRefused(c, calls[..|calls| - 1], now);
    }
  }

  // ---------------------------------------------------------------- times

  /** The record remembers when its state last changed, and when the last outcomes of either kind were recorded. */
  lemma TimesTold(c: Config, calls: seq<Call>)
    requires calls != [] && !calls[|calls| - 1].ShouldAllow?
    ensures var front, last := calls[..|calls| - 1], calls[|calls| - 1];
            var before, cb := Current(At(c, front), last.at), At(c, calls).record;
            && cb.Some?
            && cb.value.lastSuccessAt == (if last.RecordSuccess? then Some(last.at) else before.lastSuccessAt)
            && cb.value.lastFailureAt == (if last.RecordFailure? then Some(last.at) else before.lastFailureAt)
            && cb.value.stateChangedAt == (if cb.value.state != before.state then last.at else before.stateChangedAt)
  {
  }
}
