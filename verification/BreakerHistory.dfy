/** The breaker's counters against the history of delivery outcomes, with every call atomic and no record expiring. */
module BreakerHistory {
  import opened Domain
  import opened CircuitBreakers

  datatype Delivery = Good(at: int) | Bad(at: int)

  /** The store after a history of calls on a fresh endpoint. */
  function At(c: Config, calls: seq<Call>): Stored {
    if calls == [] then Stored(None, None) else Step(c, At(c, calls[..|calls| - 1]), calls[|calls| - 1]).0
  }

  function StateAt(c: Config, calls: seq<Call>): CircuitState {
    Current(At(c, calls), 0).state
  }

  function DeliveryOf(call: Call): seq<Delivery> {
    match call
    case ShouldAllow(_) => []
    case RecordSuccess(at) => [Good(at)]
    case RecordFailure(at) => [Bad(at)]
  }

  /** All recorded outcomes, in order. */
  function Deliveries(calls: seq<Call>): seq<Delivery> {
    if calls == [] then [] else Deliveries(calls[..|calls| - 1]) + DeliveryOf(calls[|calls| - 1])
  }

  /** The outcomes since the circuit last closed; none while it is not closed. */
  function SinceClosing(c: Config, calls: seq<Call>): seq<Delivery> {
    if calls == [] then []
    else
      var front := calls[..|calls| - 1];
      if StateAt(c, front).Closed? && StateAt(c, calls).Closed?
      then SinceClosing(c, front) + DeliveryOf(calls[|calls| - 1])
      else []
  }

  // ---------------------------------------------------------------- leaving CLOSED

  /** How many failures, each within the window of the one before, the history ends with. */
  function Streak(window: int, h: seq<Delivery>): nat {
    if h == [] || h[|h| - 1].Good? then 0
    else if |h| >= 2 && h[|h| - 2].Bad? && h[|h| - 2].at > h[|h| - 1].at - window then 1 + Streak(window, h[..|h| - 1])
    else 1
  }

  /** The last `n` outcomes are failures whose consecutive gaps are under the window. */
  ghost predicate EndsWithFailures(window: int, h: seq<Delivery>, n: nat) {
    && n <= |h|
    && (forall i :: |h| - n <= i < |h| ==> h[i].Bad?)
    && (forall i :: |h| - n <= i < |h| - 1 ==> h[i].at > h[i + 1].at - window)
  }

  lemma {:induction false} StreakMeaning(window: int, h: seq<Delivery>, n: nat)
    requires 1 <= n
    ensures Streak(window, h) >= n <==> EndsWithFailures(window, h, n)
  {
    if h != [] && h[|h| - 1].Bad? && n > 1 {
      var front := h[..|h| - 1];
      StreakMeaning(window, front, n - 1);
      if EndsWithFailures(window, h, n) {
        assert h[|h| - 2].Bad? && h[|h| - 2].at > h[|h| - 1].at - window;
        forall i | |front| - (n - 1) <= i < |front| ensures front[i].Bad? {
          assert front[i] == h[i];
        }
        forall i | |front| - (n - 1) <= i < |front| - 1 ensures front[i].at > front[i + 1].at - window {
          assert front[i] == h[i] && front[i + 1] == h[i + 1];
        }
      }
      if Streak(window, h) >= n {
        assert EndsWithFailures(window, front, n - 1);
        forall i | |h| - n <= i < |h| ensures h[i].Bad? {
          if i < |h| - 1 {
            assert h[i] == front[i];
          }
        }
        forall i | |h| - n <= i < |h| - 1 ensures h[i].at > h[i + 1].at - window {
          if i < |h| - 2 {
            assert h[i] == front[i] && h[i + 1] == front[i + 1];
          }
        }
      }
    }
  }

  /** While the circuit is closed its failure count is the streak of the outcomes since it closed. */
  lemma {:induction false} FailuresAreStreak(c: Config, calls: seq<Call>)
    requires StateAt(c, calls).Closed?
    ensures var cb := Current(At(c, calls), 0);
            var h := SinceClosing(c, calls);
            && cb.failures == Streak(c.failureWindow, h)
            && (h != [] && h[|h| - 1].Bad? ==> cb.lastFailureAt == Some(h[|h| - 1].at))
  {
    if calls != [] {
      var front, last := calls[..|calls| - 1], calls[|calls| - 1];
      if StateAt(c, front).Closed? {
        FailuresAreStreak(c, front);
        StreakFollows(c, At(c, front), last, SinceClosing(c, front));
      }
    }
  }

  /** One more outcome on a closed record whose counters tell the streak `h`. */
  lemma StreakFollows(c: Config, s: Stored, call: Call, h: seq<Delivery>)
    requires Current(s, 0).state.Closed? && Current(s, 0).failures == Streak(c.failureWindow, h)
    requires h != [] && h[|h| - 1].Bad? ==> Current(s, 0).lastFailureAt == Some(h[|h| - 1].at)
    requires Current(Step(c, s, call).0, 0).state.Closed?
    ensures var cb, h' := Current(Step(c, s, call).0, 0), h + DeliveryOf(call);
            && cb.failures == Streak(c.failureWindow, h')
            && (h' != [] && h'[|h'| - 1].Bad? ==> cb.lastFailureAt == Some(h'[|h'| - 1].at))
  {
    var h' := h + DeliveryOf(call);
    if call.ShouldAllow? {
      assert h' == h;
    } else {
      assert h'[..|h'| - 1] == h;
    }
  }

  /** A call leaves CLOSED exactly when it is a failure that brings the streak to the threshold. */
  lemma StreakOpens(c: Config, s: Stored, call: Call, h: seq<Delivery>)
    requires Current(s, 0).state.Closed? && Current(s, 0).failures == Streak(c.failureWindow, h)
    requires h != [] && h[|h| - 1].Bad? ==> Current(s, 0).lastFailureAt == Some(h[|h| - 1].at)
    ensures !Current(Step(c, s, call).0, 0).state.Closed? <==>
              call.RecordFailure? && Streak(c.failureWindow, h + [Bad(call.at)]) >= c.failureThreshold
  {
    var h' := h + [Bad(call.at)];
    assert h'[..|h'| - 1] == h;
  }

  /** Main result: a closed circuit leaves CLOSED exactly on a failure that makes the last `FailureThreshold` outcomes
      since closing failures with consecutive gaps under the window. */
  lemma LeavesClosedIff(c: Config, calls: seq<Call>)
    requires 1 <= c.failureThreshold && calls != [] && StateAt(c, calls[..|calls| - 1]).Closed?
    ensures var front, last := calls[..|calls| - 1], calls[|calls| - 1];
            !StateAt(c, calls).Closed? <==>
              last.RecordFailure? &&
                  EndsWithFailures(c.failureWindow, SinceClosing(c, front) + [Bad(last.at)], c.failureThreshold)
  {
    var front, last := calls[..|calls| - 1], calls[|calls| - 1];
    FailuresAreStreak(c, front);
    StreakOpens(c, At(c, front), last, SinceClosing(c, front));
    StreakMeaning(c.failureWindow, SinceClosing(c, front) + [Bad(last.at)], c.failureThreshold);
  }

  // ---------------------------------------------------------------- closing again

  /** The outcomes since the circuit last left OPEN, the success that moved it included; none unless it is half-open. */
  function SinceOpen(c: Config, calls: seq<Call>): seq<Delivery> {
    if calls == [] || !StateAt(c, calls).HalfOpen? then []
    else
      var front := calls[..|calls| - 1];
      (if StateAt(c, front).HalfOpen? then SinceOpen(c, front) else []) + DeliveryOf(calls[|calls| - 1])
  }

  predicate AllGood(h: seq<Delivery>) {
    forall i :: 0 <= i < |h| ==> h[i].Good?
  }

  /** While the circuit is half-open its success count is the number of outcomes since it left OPEN, all successes. */
  lemma {:induction false} SuccessesAreCounted(c: Config, calls: seq<Call>)
    requires StateAt(c, calls).HalfOpen?
    ensures Current(At(c, calls), 0).successes == |SinceOpen(c, calls)| && AllGood(SinceOpen(c, calls))
  {
    var front := calls[..|calls| - 1];
    if StateAt(c, front).HalfOpen? {
      SuccessesAreCounted(c, front);
    }
  }

  ghost predicate IsSuffix(h: seq<Delivery>, all: seq<Delivery>) {
    |h| <= |all| && h == all[|all| - |h|..]
  }

  lemma SuffixAppend(h: seq<Delivery>, all: seq<Delivery>, more: seq<Delivery>)
    requires IsSuffix(h, all)
    ensures IsSuffix(h + more, all + more) && IsSuffix([], all) && IsSuffix(more, all + more)
  {
  }

  lemma {:induction false} SinceOpenIsSuffix(c: Config, calls: seq<Call>)
    ensures IsSuffix(SinceOpen(c, calls), Deliveries(calls))
  {
    if calls != [] {
      var front := calls[..|calls| - 1];
      SinceOpenIsSuffix(c, front);
      SuffixAppend(SinceOpen(c, front), Deliveries(front), DeliveryOf(calls[|calls| - 1]));
      assert [] + DeliveryOf(calls[|calls| - 1]) == DeliveryOf(calls[|calls| - 1]);
    }
  }

  /** Main result: a circuit that is not closed closes exactly on a success while half-open that brings the successes
      since it left OPEN to the threshold. */
  lemma ClosesIff(c: Config, calls: seq<Call>)
    requires calls != [] && !StateAt(c, calls[..|calls| - 1]).Closed?
    ensures var front, last := calls[..|calls| - 1], calls[|calls| - 1];
            StateAt(c, calls).Closed? <==>
              last.RecordSuccess? && StateAt(c, front).HalfOpen? && |SinceOpen(c, front)| + 1 >= c.successThreshold
  {
    var front := calls[..|calls| - 1];
    if StateAt(c, front).HalfOpen? {
      SuccessesAreCounted(c, front);
    }
  }

  /** Main result: when the circuit closes again, the last `SuccessThreshold` outcomes recorded for the endpoint are
      successes. */
  lemma ClosesOnlyAfterSuccesses(c: Config, calls: seq<Call>)
    requires calls != [] && !StateAt(c, calls[..|calls| - 1]).Closed? && StateAt(c, calls).Closed?
    ensures var all := Deliveries(calls);
            c.successThreshold <= |all| && forall i :: 0 <= i < |all| && |all| - c.successThreshold <= i ==>
                all[i].Good?
  {
    var front, last := calls[..|calls| - 1], calls[|calls| - 1];
    ClosesIff(c, calls);
    SuccessesAreCounted(c, front);
    SinceOpenIsSuffix(c, front);
    SuffixGood(Deliveries(front), SinceOpen(c, front), last.at, c.successThreshold);
  }

  lemma SuffixGood(all: seq<Delivery>, h: seq<Delivery>, at: int, n: int)
    requires IsSuffix(h, all) && AllGood(h) && |h| + 1 >= n
    ensures forall i :: 0 <= i < |all| + 1 && |all| + 1 - n <= i ==> (all + [Good(at)])[i].Good?
  {
    forall i | 0 <= i < |all| && |all| + 1 - n <= i ensures all[i].Good? {
      assert all[i] == h[i - (|all| - |h|)];
    }
  }
}
