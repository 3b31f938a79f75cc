/** The per-endpoint circuit breaker over its Redis record, with every call atomic. Times are integers on one clock. */
module CircuitBreakers {
  import opened Domain

  datatype Record = Record(
    state: CircuitState,
    failures: int,
    successes: int,
    lastFailureAt: Option<int>,
    lastSuccessAt: Option<int>,
    stateChangedAt: int,
    nextProbeAt: Option<int>
  )

  datatype Config = Config(
    failureThreshold: int,
    failureWindow: int,
    recoveryTimeout: int,
    probeInterval: int,
    successThreshold: int
  )

  /** The stored record, if any, and until when the probe lock is held. */
  datatype Stored = Stored(record: Option<Record>, lockedUntil: Option<int>)

  /** `Get`: a missing key reads as a closed circuit with nothing counted. */
  function Current(s: Stored, now: int): Record {
    if s.record.Some? then s.record.value else Record(Closed, 0, 0, None, None, now, None)
  }

  predicate Locked(s: Stored, now: int) {
    s.lockedUntil.Some? && now < s.lockedUntil.value
  }

  datatype Answer = Answer(allowed: bool, probe: bool)

  /** `ShouldAllow`. */
  function Allow(c: Config, s: Stored, now: int): (Stored, Answer) {
    var cb := Current(s, now);
    match cb.state
    case Closed => (s, Answer(true, false))
    case Open =>
      if now > cb.stateChangedAt + c.recoveryTimeout then
        (s.(record := Some(cb.(state := HalfOpen, stateChangedAt := now, successes := 0,
                               nextProbeAt := Some(now + c.probeInterval)))), Answer(true, true))
      else (s, Answer(false, false))
    case HalfOpen =>
      if (cb.nextProbeAt.None? || now > cb.nextProbeAt.value) && !Locked(s, now) then
        (Stored(Some(cb.(nextProbeAt := Some(now + c.probeInterval))), Some(now + c.probeInterval)), Answer(true, true))
      else (s, Answer(false, false))
  }

  /** `RecordSuccess` on the record read. */
  function Succeeded(c: Config, cb: Record, now: int): Record {
    var cb' := cb.(lastSuccessAt := Some(now));
    match cb.state
    case Closed => cb'.(failures := 0)
    case HalfOpen =>
      if cb.successes + 1 >= c.successThreshold
      then cb'.(state := Closed, stateChangedAt := now, failures := 0, successes := 0, nextProbeAt := None)
      else cb'.(successes := cb.successes + 1)
    case Open => cb'.(state := HalfOpen, stateChangedAt := now, successes := 1)
  }

  /** The previous failure is still inside the failure window. */
  predicate InWindow(c: Config, cb: Record, now: int) {
    cb.lastFailureAt.Some? && cb.lastFailureAt.value > now - c.failureWindow
  }

  /** `RecordFailure` on the record read. */
  function Failed(c: Config, cb: Record, now: int): Record {
    var cb' := cb.(lastFailureAt := Some(now), failures := if InWindow(c, cb, now) then cb.failures + 1 else 1);
    match cb.state
    case Closed => if cb'.failures >= c.failureThreshold then cb'.(state := Open, stateChangedAt := now) else cb'
    case HalfOpen => cb'.(state := Open, stateChangedAt := now, successes := 0, nextProbeAt := None)
    case Open => cb'
  }

  class CircuitBreaker {
    const config: Config
    var record: Option<Record>
    var lockedUntil: Option<int>

    function State(): Stored
      reads this
    {
      Stored(record, lockedUntil)
    }

    constructor (config: Config)
      ensures this.config == config && State() == Stored(None, None)
    {
      this.config := config;
      record, lockedUntil := None, None;
    }

    method ShouldAllow(now: int) returns (allowed: bool, probe: bool)
      modifies this
      ensures (State(), Answer(allowed, probe)) == Allow(config, old(State()), now)
    {
      var cb := Current(Stored(record, lockedUntil), now);
      if cb.state == Closed {
        return true, false;
      }
      if cb.state == Open {
        if now > cb.stateChangedAt + config.recoveryTimeout {
          cb := cb.(state := HalfOpen, stateChangedAt := now, successes := 0);
          record := Some(cb.(nextProbeAt := Some(now + config.probeInterval)));
          return true, true;
        }
        return false, false;
      }
      if cb.nextProbeAt.None? || now > cb.nextProbeAt.value {
        if lockedUntil.Some? && now < lockedUntil.value {
          return false, false;
        }
        lockedUntil := Some(now + config.probeInterval);
        record := Some(cb.(nextProbeAt := Some(now + config.probeInterval)));
        return true, true;
      }
      return false, false;
    }

    method RecordSuccess(now: int) returns (state: CircuitState)
      modifies this`record
      ensures record == Some(Succeeded(config, Current(old(State()), now), now))
      ensures state == record.value.state
    {
      var cb := Current(Stored(record, lockedUntil), now);
      cb := cb.(lastSuccessAt := Some(now));
      if cb.state == Closed {
        cb := cb.(failures := 0);
      } else if cb.state == HalfOpen {
        cb := cb.(successes := cb.successes + 1);
        if cb.successes >= config.successThreshold {
          cb := cb.(state := Closed, stateChangedAt := now, failures := 0, successes := 0, nextProbeAt := None);
        }
      } else {
        cb := cb.(state := HalfOpen, stateChangedAt := now, successes := 1);
      }
      record := Some(cb);
      state := cb.state;
    }

    method RecordFailure(now: int) returns (state: CircuitState)
      modifies this`record
      ensures record == Some(Failed(config, Current(old(State()), now), now))
      ensures state == record.value.state
    {
      var cb := Current(Stored(record, lockedUntil), now);
      var lastFailureAt := cb.lastFailureAt;
      cb := cb.(lastFailureAt := Some(now));
      if lastFailureAt.Some? && lastFailureAt.value > now - config.failureWindow {
        cb := cb.(failures := cb.failures + 1);
      } else {
        cb := cb.(failures := 1);
      }
      if cb.state == Closed {
        if cb.failures >= config.failureThreshold {
          cb := cb.(state := Open, stateChangedAt := now);
        }
      } else if cb.state == HalfOpen {
        cb := cb.(state := Open, stateChangedAt := now, successes := 0, nextProbeAt := None);
      }
      record := Some(cb);
      state := cb.state;
    }
  }

  // ---------------------------------------------------------------- sequences of calls

  datatype Call = ShouldAllow(at: int) | RecordSuccess(at: int) | RecordFailure(at: int)

  /** What a caller sees of one call. */
  datatype Reply = Asked(answer: Answer) | Told(state: CircuitState)

  function Step(c: Config, s: Stored, call: Call): (Stored, Reply) {
    match call
    case ShouldAllow(now) => var (s', a) := Allow(c, s, now); (s', Asked(a))
    case RecordSuccess(now) => var cb := Succeeded(c, Current(s, now), now); (s.(record := Some(cb)), Told(cb.state))
    case RecordFailure(now) => var cb := Failed(c, Current(s, now), now); (s.(record := Some(cb)), Told(cb.state))
  }

  function AfterCalls(c: Config, s: Stored, calls: seq<Call>): Stored
    decreases |calls|
  {
    if calls == [] then s else AfterCalls(c, Step(c, s, calls[0]).0, calls[1..])
  }

  function Replies(c: Config, s: Stored, calls: seq<Call>): seq<Reply>
    decreases |calls|
  {
    if calls == [] then [] else var (s', r) := Step(c, s, calls[0]); [r] + Replies(c, s', calls[1..])
  }

  /** No call reads the clock earlier than `from`, or earlier than the call before it. */
  predicate Timely(calls: seq<Call>, from: int)
    decreases |calls|
  {
    calls == [] || (from <= calls[0].at && Timely(calls[1..], calls[0].at))
  }

  // ---------------------------------------------------------------- the shape of every stored record

  /** Closed and open records have no probe time and no successes; a half-open one has not reached the threshold. */
  predicate WellShaped(c: Config, cb: Record) {
    && cb.failures >= 0
    && (!cb.state.HalfOpen? ==> cb.nextProbeAt.None? && cb.successes == 0)
    && (cb.state.HalfOpen? ==> 0 <= cb.successes < c.successThreshold)
    && (cb.state.Closed? && cb.failures > 0 ==> cb.lastFailureAt.Some? && cb.failures < c.failureThreshold)
  }

  predicate StoredShape(c: Config, s: Stored) {
    s.record.Some? ==> WellShaped(c, s.record.value)
  }

  lemma StepKeepsShape(c: Config, s: Stored, call: Call)
    requires 2 <= c.successThreshold && StoredShape(c, s)
    ensures StoredShape(c, Step(c, s, call).0)
  {
  }

  /** Every record any sequence of calls stores is well shaped, for success thresholds of at least 2. */
  lemma {:induction false} CallsKeepShape(c: Config, s: Stored, calls: seq<Call>)
    requires 2 <= c.successThreshold && StoredShape(c, s)
    ensures StoredShape(c, AfterCalls(c, s, calls))
    decreases |calls|
  {
    if calls != [] {
      StepKeepsShape(c, s, calls[0]);
      CallsKeepShape(c, Step(c, s, calls[0]).0, calls[1..]);
    }
  }

  /** With a threshold of 1 the shape fails: one success on an open circuit stores a half-open record at its
      threshold. */
  lemma ShapeNeedsThreshold(c: Config, s: Stored, now: int)
    requires c.successThreshold <= 1 && s.record.Some? && s.record.value.state.Open?
    ensures !StoredShape(c, Step(c, s, RecordSuccess(now)).0)
  {
  }
}
