/** The breaker with its calls split into Redis commands and interleaved by any number of callers: optimistic
    transactions, the probe lock, and the half-open save that overwrites without a transaction. */
module BreakerProbes {
  import opened Domain
  import opened CircuitBreakers

  /** What one write does to the record: the three transactions, and the probe time set after winning the lock. */
  datatype Change = OpenToHalf | Success | Failure | Probe

  /** A committed write; `version` is how often the key had been written before. */
  datatype Write = Write(change: Change, now: int, version: nat)

  /** Where a caller is between two commands. `now` is its own clock reading, `cb` the record it has read at `version`.
      `openings` and `seen` are history: the openings, and the writes the record reflected, at that read. */
  datatype Point =
    | SawOpen(now: int, openings: nat)
    | SawHalfOpen(now: int, cb: Record, version: nat, seen: seq<Write>)
    | WonLock(now: int, cb: Record, version: nat, seen: seq<Write>)
    | Watching(change: Change, now: int, cb: Record, version: nat, openings: nat)

  datatype Shared = Shared(
    record: Option<Record>,
    version: nat,              // counts writes of the key; WATCH compares it
    lockedUntil: Option<int>,  // expiry of probe_lock on the Redis clock
    clock: int,                // the Redis clock
    callers: map<nat, Point>,
    moves: seq<nat>,           // versions at which a caller was granted by moving OPEN to HALF_OPEN
    openedAt: seq<int>,        // the times at which the circuit was opened
    wins: seq<int>,            // Redis times at which a caller won the probe lock
    applied: seq<Write>,       // the writes the record reflects, oldest first
    blindAt: nat               // the version left by the last save or expiry
  )

  const FRESH := Shared(None, 0, None, 0, map[], [], [], [], [], 0)

  datatype Command =
    | Get(caller: nat, now: int)                       // first read of ShouldAllow
    | WatchOpen(caller: nat)                           // WATCH and read again
    | WatchOutcome(caller: nat, now: int, good: bool)  // RecordSuccess, RecordFailure
    | Exec(caller: nat)
    | SetNX(caller: nat)
    | Save(caller: nat)
    | Abandon(caller: nat)                             // an error, or the caller crashes
    | Expire                                           // the record's TTL runs out
    | Tick(elapsed: nat)

  function Read(s: Shared, now: int): Record {
    Current(Stored(s.record, None), now)
  }

  predicate IsOpen(record: Option<Record>) {
    record.Some? && record.value.state.Open?
  }

  predicate Enabled(s: Shared, m: Command) {
    match m
    case Get(p, _) => p !in s.callers
    case WatchOpen(p) => p in s.callers && s.callers[p].SawOpen?
    case WatchOutcome(p, _, _) => p !in s.callers
    case Exec(p) => p in s.callers && s.callers[p].Watching?
    case SetNX(p) => p in s.callers && s.callers[p].SawHalfOpen?
    case Save(p) => p in s.callers && s.callers[p].WonLock?
    case Abandon(p) => p in s.callers
    case Expire => true
    case Tick(_) => true
  }

  function Written(c: Config, change: Change, cb: Record, now: int): Record {
    match change
    case OpenToHalf => cb.(state := HalfOpen, stateChangedAt := now, successes := 0,
      nextProbeAt := Some(now + c.probeInterval))
    case Success => Succeeded(c, cb, now)
    case Failure => Failed(c, cb, now)
    case Probe => cb.(nextProbeAt := Some(now + c.probeInterval))
  }

  function Got(c: Config, s: Shared, p: nat, now: int): Shared {
    var cb := Read(s, now);
    if cb.state.Open? && now > cb.stateChangedAt + c.recoveryTimeout
    then s.(callers := s.callers[p := SawOpen(now, |s.openedAt|)])
    else if cb.state.HalfOpen? && ProbeDue(cb, now)
    then s.(callers := s.callers[p := SawHalfOpen(now, cb, s.version, s.applied)])
    else s
  }

  predicate ProbeDue(cb: Record, now: int) {
    cb.nextProbeAt.None? || now > cb.nextProbeAt.value
  }

  /** A transaction writes only if nobody has written since its read. */
  function Committed(c: Config, s: Shared, w: Point): Shared
    requires w.Watching?
  {
    var cb := Written(c, w.change, w.cb, w.now);
    s.(record := Some(cb), version := s.version + 1,
       applied := s.applied + [Write(w.change, w.now, s.version)],
       openedAt := if cb.state.Open? && !IsOpen(s.record) then s.openedAt + [w.now] else s.openedAt,
       moves := if w.change.OpenToHalf? then s.moves + [s.version] else s.moves)
  }

  function Apply(c: Config, s: Shared, m: Command): Shared
    requires Enabled(s, m)
  {
    match m
    case Get(p, now) => Got(c, s, p, now)
    case WatchOpen(p) =>
      var w := s.callers[p];
      var cb := Read(s, w.now);
      if cb.state.Open? then s.(callers := s.callers[p := Watching(OpenToHalf, w.now, cb, s.version, w.openings)])
      else s.(callers := s.callers - {p})
    case WatchOutcome(p, now, good) =>
      s.(callers := s.callers[p :=
          Watching(if good then Success else Failure, now, Read(s, now), s.version, |s.openedAt|)])
    case Exec(p) =>
      var w := s.callers[p];
      var s1 := s.(callers := s.callers - {p});
      if w.version != s.version then s1 else Committed(c, s1, w)
    case SetNX(p) =>
      var w := s.callers[p];
      if s.lockedUntil.Some? && s.clock < s.lockedUntil.value then s.(callers := s.callers - {p})
      else s.(lockedUntil := Some(s.clock + c.probeInterval), wins := s.wins + [s.clock],
              callers := s.callers[p := WonLock(w.now, w.cb, w.version, w.seen)])
    case Save(p) =>
      var w := s.callers[p];
      s.(record := Some(Written(c, Probe, w.cb, w.now)), version := s.version + 1, blindAt := s.version + 1,
         applied := w.seen + [Write(Probe, w.now, s.version)], callers := s.callers - {p})
    case Abandon(p) => s.(callers := s.callers - {p})
    case Expire => s.(record := None, version := s.version + 1, blindAt := s.version + 1, applied := [])
    case Tick(elapsed) => s.(clock := s.clock + elapsed)
  }

  predicate ValidRun(c: Config, s: Shared, run: seq<Command>)
    decreases |run|
  {
    run == [] || (Enabled(s, run[0]) && ValidRun(c, Apply(c, s, run[0]), run[1..]))
  }

  function After(c: Config, s: Shared, run: seq<Command>): Shared
    requires ValidRun(c, s, run)
    decreases |run|
  {
    if run == [] then s else After(c, Apply(c, s, run[0]), run[1..])
  }

  // ---------------------------------------------------------------- what survives every interleaving

  ghost predicate InvRecords(c: Config, s: Shared) {
    && StoredShape(c, Stored(s.record, None))
    && (forall p :: p in s.callers ==>
          match s.callers[p]
          case SawOpen(_, _) => true
          case SawHalfOpen(_, cb, _, _) => cb.state.HalfOpen? && WellShaped(c, cb)
          case WonLock(_, cb, _, _) => cb.state.HalfOpen? && WellShaped(c, cb)
          case Watching(change, _, cb, _, _) =>
            WellShaped(c, cb) && !change.Probe? && (change.OpenToHalf? ==> cb.state.Open?))
  }

  ghost predicate InvLocks(c: Config, s: Shared) {
    && (forall i, j :: 0 <= i < j < |s.wins| ==> s.wins[i] + c.probeInterval <= s.wins[j])
    && (forall i :: 0 <= i < |s.wins| ==> s.lockedUntil.Some? && s.wins[i] + c.probeInterval <= s.lockedUntil.value)
  }

  /** A transaction that can still commit has read the record as it is. */
  ghost predicate InvVersions(s: Shared) {
    forall p :: p in s.callers && s.callers[p].Watching? ==>
      && s.callers[p].version <= s.version
      && (s.callers[p].version == s.version ==> s.callers[p].cb == Read(s, s.callers[p].now))
  }

  /** Grants by transition carry distinct versions, and each has used up one opening of the circuit. */
  ghost predicate InvMoves(s: Shared) {
    && (forall i, j :: 0 <= i < j < |s.moves| ==> s.moves[i] < s.moves[j])
    && (forall i :: 0 <= i < |s.moves| ==> s.moves[i] < s.version)
    && |s.moves| + (if IsOpen(s.record) then 1 else 0) <= |s.openedAt|
  }

  ghost predicate Inv(c: Config, s: Shared) {
    InvRecords(c, s) && InvLocks(c, s) && InvVersions(s) && InvMoves(s)
  }

  lemma ReadShape(c: Config, s: Shared, now: int)
    requires 2 <= c.successThreshold && StoredShape(c, Stored(s.record, None))
    ensures WellShaped(c, Read(s, now))
  {
  }

  lemma WrittenShape(c: Config, change: Change, cb: Record, now: int)
    requires 2 <= c.successThreshold && WellShaped(c, cb) && (change.OpenToHalf? ==> cb.state.Open?)
    requires change.Probe? ==> cb.state.HalfOpen?
    ensures WellShaped(c, Written(c, change, cb, now))
  {
  }

  lemma StepKeepsRecords(c: Config, s: Shared, m: Command)
    requires 2 <= c.successThreshold && InvRecords(c, s) && Enabled(s, m)
    ensures InvRecords(c, Apply(c, s, m))
  {
    match m
    case Get(p, now) => ReadShape(c, s, now);
    case WatchOpen(p) => ReadShape(c, s, s.callers[p].now);
    case WatchOutcome(p, now, good) => ReadShape(c, s, now);
    case Exec(p) => WrittenShape(c, s.callers[p].change, s.callers[p].cb, s.callers[p].now);
    case SetNX(p) =>
    case Save(p) => WrittenShape(c, Probe, s.callers[p].cb, s.callers[p].now);
    case Abandon(p) =>
    case Expire =>
    case Tick(_) =>
  }

  lemma StepKeepsLocks(c: Config, s: Shared, m: Command)
    requires 0 <= c.probeInterval && InvLocks(c, s) && Enabled(s, m)
    ensures InvLocks(c, Apply(c, s, m))
  {
    var s' := Apply(c, s, m);
    if s'.wins == s.wins {
      assert s'.lockedUntil == s.lockedUntil;
    } else {
      assert s'.wins == s.wins + [s.clock] && s'.lockedUntil == Some(s.clock + c.probeInterval);
      forall i | 0 <= i < |s'.wins| ensures s'.wins[i] + c.probeInterval <= s'.lockedUntil.value {
        if i < |s.wins| {
          assert s'.wins[i] == s.wins[i];
          assert s.wins[i] + c.probeInterval <= s.lockedUntil.value <= s.clock;
        }
      }
    }
  }

  lemma StepKeepsVersions(c: Config, s: Shared, m: Command)
    requires InvVersions(s) && Enabled(s, m)
    ensures InvVersions(Apply(c, s, m))
  {
  }

  lemma StepKeepsMoves(c: Config, s: Shared, m: Command)
    requires InvRecords(c, s) && InvVersions(s) && InvMoves(s) && Enabled(s, m)
    ensures InvMoves(Apply(c, s, m))
  {
    if m.Exec? {
      assert s.callers[m.caller].version <= s.version;
    } else if m.Save? {
      assert s.callers[m.caller].cb.state.HalfOpen?;
    }
  }

  lemma {:induction false} RunKeepsInv(c: Config, s: Shared, run: seq<Command>)
    requires 2 <= c.successThreshold && 0 <= c.probeInterval && Inv(c, s) && ValidRun(c, s, run)
    ensures Inv(c, After(c, s, run))
    decreases |run|
  {
    if run != [] {
      StepKeepsRecords(c, s, run[0]);
      StepKeepsLocks(c, s, run[0]);
      StepKeepsVersions(c, s, run[0]);
      StepKeepsMoves(c, s, run[0]);
      RunKeepsInv(c, Apply(c, s, run[0]), run[1..]);
    }
  }

  /** Main result: under every interleaving the lock is won at most once per probe interval, each opening of the circuit
      grants at most one caller by a move to HALF_OPEN, and the stored record is well shaped, the blind save
      notwithstanding. */
  lemma ProbesUnderInterleaving(c: Config, s: Shared, run: seq<Command>)
    requires 2 <= c.successThreshold && 0 <= c.probeInterval && s == FRESH && ValidRun(c, s, run)
    ensures var e := After(c, s, run);
            && (forall i, j :: 0 <= i < j < |e.wins| ==> e.wins[i] + c.probeInterval <= e.wins[j])
            && (forall i, j :: 0 <= i < j < |e.moves| ==> e.moves[i] != e.moves[j]) && |e.moves| <= |e.openedAt|
            && (e.record.Some? ==> WellShaped(c, e.record.value))
  {
    RunKeepsInv(c, s, run);
  }

  // ---------------------------------------------------------------- the recovery timeout

  /** An open record carries the time of the last opening, and a caller that saw the circuit open saw it timed out. */
  ghost predicate InvOpenings(c: Config, s: Shared) {
    && (IsOpen(s.record) ==> s.openedAt != [] && s.openedAt[|s.openedAt| - 1] == s.record.value.stateChangedAt)
    && (forall p :: p in s.callers ==>
          match s.callers[p]
          case SawOpen(now, openings) => TimedOut(c, s.openedAt, openings, now)
          case SawHalfOpen(_, cb, _, _) => cb.state.HalfOpen?
          case WonLock(_, cb, _, _) => cb.state.HalfOpen?
          case Watching(change, now, _, _, openings) => change.OpenToHalf? ==> TimedOut(c, s.openedAt, openings, now))
  }

  /** The last of the first `n` openings is more than the recovery timeout before `now`. */
  predicate TimedOut(c: Config, openedAt: seq<int>, n: nat, now: int) {
    1 <= n <= |openedAt| && openedAt[n - 1] + c.recoveryTimeout < now
  }

  lemma StepKeepsOpenings(c: Config, s: Shared, m: Command)
    requires InvOpenings(c, s) && InvVersions(s) && Enabled(s, m)
    ensures InvOpenings(c, Apply(c, s, m))
  {
  }

  lemma {:induction false} RunKeepsOpenings(c: Config, s: Shared, run: seq<Command>)
    requires InvOpenings(c, s) && InvVersions(s) && ValidRun(c, s, run)
    ensures InvOpenings(c, After(c, s, run)) && InvVersions(After(c, s, run))
    decreases |run|
  {
    if run != [] {
      StepKeepsOpenings(c, s, run[0]);
      StepKeepsVersions(c, s, run[0]);
      RunKeepsOpenings(c, Apply(c, s, run[0]), run[1..]);
    }
  }

  /** Caller `p` is about to be granted by moving OPEN to HALF_OPEN. */
  predicate Granting(s: Shared, p: nat) {
    p in s.callers && s.callers[p].Watching? && s.callers[p].change.OpenToHalf? && s.callers[p].version == s.version
  }

  /** Under every interleaving and on any clocks, a caller granted by a move to HALF_OPEN overwrites an open record, and
      the recovery timeout has passed since that record was opened if no opening came after the caller's first read. */
  lemma TimeoutRespected(c: Config, s: Shared, run: seq<Command>, p: nat)
    requires s == FRESH && ValidRun(c, s, run) && Granting(After(c, s, run), p)
    ensures var e := After(c, s, run);
            var w := e.callers[p];
            && IsOpen(e.record)
            && (|e.openedAt| == w.openings ==> e.record.value.stateChangedAt + c.recoveryTimeout < w.now)
  {
    RunKeepsOpenings(c, s, run);
    RunKeepsGranting(c, s, run);
  }

  /** Only an open record is watched for the move. */
  ghost predicate InvGranting(s: Shared) {
    forall p :: p in s.callers && s.callers[p].Watching? && s.callers[p].change.OpenToHalf? ==>
        s.callers[p].cb.state.Open?
  }

  lemma {:induction false} RunKeepsGranting(c: Config, s: Shared, run: seq<Command>)
    requires InvGranting(s) && ValidRun(c, s, run)
    ensures InvGranting(After(c, s, run))
    decreases |run|
  {
    if run != [] {
      RunKeepsGranting(c, Apply(c, s, run[0]), run[1..]);
    }
  }

  // ---------------------------------------------------------------- clocks that never go back

  /** The caller's clock reading that starts a call. */
  function Reading(m: Command): Option<int> {
    match m
    case Get(_, now) => Some(now)
    case WatchOutcome(_, now, _) => Some(now)
    case WatchOpen(_) => None
    case Exec(_) => None
    case SetNX(_) => None
    case Save(_) => None
    case Abandon(_) => None
    case Expire => None
    case Tick(_) => None
  }

  function Latest(m: Command, latest: int): int {
    if Reading(m).Some? then Reading(m).value else latest
  }

  /** No call of the run reads a clock behind `latest`, or behind the call that started before it. */
  predicate ClocksAgree(run: seq<Command>, latest: int)
    decreases |run|
  {
    run == [] || (latest <= Latest(run[0], latest) && ClocksAgree(run[1..], Latest(run[0], latest)))
  }

  predicate SeeksMove(w: Point) {
    w.SawOpen? || (w.Watching? && w.change.OpenToHalf?)
  }

  /** A failure that would open the circuit. */
  predicate MayOpen(s: Shared, w: Point) {
    w.Watching? && w.change.Failure? && w.version == s.version && !IsOpen(s.record)
  }

  function OpeningsOf(w: Point): nat
    requires SeeksMove(w)
  {
    w.openings
  }

  /** Whoever seeks the move at `now` has read the clock before every opening since its read, past or possible. */
  ghost predicate InvClocks(s: Shared, latest: int) {
    && (forall p :: p in s.callers ==> s.callers[p].now <= latest)
    && (forall p, k :: p in s.callers && SeeksMove(s.callers[p]) && OpeningsOf(s.callers[p]) <= k < |s.openedAt| ==>
          s.callers[p].now <= s.openedAt[k])
    && (forall p, q :: p in s.callers && SeeksMove(s.callers[p]) && q in s.callers && MayOpen(s, s.callers[q]) ==>
          s.callers[p].now <= s.callers[q].now)
  }

  lemma GetKeepsClocks(c: Config, s: Shared, m: Command, latest: int)
    requires InvClocks(s, latest) && m.Get? && Enabled(s, m) && latest <= m.now
    ensures InvClocks(Apply(c, s, m), m.now)
  {
  }

  lemma WatchKeepsClocks(c: Config, s: Shared, m: Command, latest: int)
    requires InvClocks(s, latest) && (m.WatchOpen? || m.WatchOutcome?) && Enabled(s, m) && latest <= Latest(m, latest)
    ensures InvClocks(Apply(c, s, m), Latest(m, latest))
  {
  }

  lemma ExecKeepsClocks(c: Config, s: Shared, m: Command, latest: int)
    requires InvClocks(s, latest) && InvVersions(s) && m.Exec? && Enabled(s, m)
    ensures InvClocks(Apply(c, s, m), latest)
  {
    var s', w := Apply(c, s, m), s.callers[m.caller];
    if s'.openedAt != s.openedAt {
      assert MayOpen(s, w) && s'.openedAt == s.openedAt + [w.now];
    }
  }

  lemma OtherKeepsClocks(c: Config, s: Shared, m: Command, latest: int)
    requires InvClocks(s, latest) && InvVersions(s) && Enabled(s, m)
    requires m.SetNX? || m.Save? || m.Abandon? || m.Expire? || m.Tick?
    ensures InvClocks(Apply(c, s, m), latest)
  {
  }

  lemma StepKeepsClocks(c: Config, s: Shared, m: Command, latest: int)
    requires InvClocks(s, latest) && InvVersions(s) && Enabled(s, m) && latest <= Latest(m, latest)
    ensures InvClocks(Apply(c, s, m), Latest(m, latest))
  {
    if m.Get? {
      GetKeepsClocks(c, s, m, latest);
    } else if m.WatchOpen? || m.WatchOutcome? {
      WatchKeepsClocks(c, s, m, latest);
    } else if m.Exec? {
      ExecKeepsClocks(c, s, m, latest);
    } else {
      OtherKeepsClocks(c, s, m, latest);
    }
  }

  lemma {:induction false} RunKeepsClocks(c: Config, s: Shared, run: seq<Command>, latest: int) returns (latest': int)
    requires InvClocks(s, latest) && InvVersions(s) && ValidRun(c, s, run) && ClocksAgree(run, latest)
    ensures InvClocks(After(c, s, run), latest')
    decreases |run|
  {
    if run == [] {
      latest' := latest;
    } else {
      StepKeepsClocks(c, s, run[0], latest);
      StepKeepsVersions(c, s, run[0]);
      latest' := RunKeepsClocks(c, Apply(c, s, run[0]), run[1..], Latest(run[0], latest));
    }
  }

  /** Main result: under every interleaving of callers whose clock readings never go back, a caller granted by a move to
      HALF_OPEN finds the recovery timeout passed since the record was opened, if and only if the circuit was not opened
      again between its first read and its transaction. */
  lemma TimeoutRespectedIff(c: Config, s: Shared, run: seq<Command>, p: nat, from: int)
    requires 0 <= c.recoveryTimeout
    requires s == FRESH && ValidRun(c, s, run) && ClocksAgree(run, from) && Granting(After(c, s, run), p)
    ensures var e := After(c, s, run);
            var w := e.callers[p];
            && IsOpen(e.record)
            && (e.record.value.stateChangedAt + c.recoveryTimeout < w.now <==> |e.openedAt| == w.openings)
  {
    TimeoutRespected(c, s, run, p);
    RunKeepsOpenings(c, s, run);
    var latest := RunKeepsClocks(c, s, run, from);
    var e := After(c, s, run);
    assert SeeksMove(e.callers[p]) && OpeningsOf(e.callers[p]) == e.callers[p].openings;
  }

  lemma OneCommand(c: Config, s: Shared, m: Command, next: Shared, rest: seq<Command>)
    requires Enabled(s, m) && Apply(c, s, m) == next && ValidRun(c, next, rest)
    ensures ValidRun(c, s, [m] + rest) && After(c, s, [m] + rest) == After(c, next, rest)
  {
    assert ([m] + rest)[1..] == rest;
  }

  /** Caller 2 reports an outcome. */
  function Outcome(now: int, good: bool, rest: seq<Command>): seq<Command> {
    [WatchOutcome(2, now, good)] + ([Exec(2)] + rest)
  }

  lemma OutcomeRun(c: Config, s: Shared, now: int, good: bool, next: Shared, rest: seq<Command>)
    requires 2 !in s.callers && ValidRun(c, next, rest)
    requires next == Apply(c, Apply(c, s, WatchOutcome(2, now, good)), Exec(2))
    ensures ValidRun(c, s, Outcome(now, good, rest)) && After(c, s, Outcome(now, good, rest)) == After(c, next, rest)
  {
    var mid := Apply(c, s, WatchOutcome(2, now, good));
    OneCommand(c, mid, Exec(2), next, rest);
    OneCommand(c, s, WatchOutcome(2, now, good), mid, [Exec(2)] + rest);
  }

  /** The state after one failure on a fresh endpoint that opens at the first failure. */
  function JustOpened(c: Config): Shared {
    FRESH.(record := Some(Failed(c, Record(Closed, 0, 0, None, None, 0, None), 0)), version := 1, openedAt := [0],
           applied := [Write(Failure, 0, 0)])
  }

  lemma JustOpenedIsReached(c: Config, s: Shared)
    requires c.failureThreshold <= 1 && s == FRESH
    ensures Apply(c, Apply(c, s, WatchOutcome(2, 0, false)), Exec(2)) == JustOpened(c)
    ensures IsOpen(JustOpened(c).record) && JustOpened(c).record.value.stateChangedAt == 0
    ensures JustOpened(c).record.value.nextProbeAt.None?
  {
    var mid := Apply(c, s, WatchOutcome(2, 0, false));
    assert mid.callers - {2} == map[];
    assert [] + [0] == [0] && [] + [Write(Failure, 0, 0)] == [Write(Failure, 0, 0)];
  }

  /** Callers 0 and 1 see the circuit open and timed out; 1 is granted and fails at once; 0 goes on. */
  function StaleRun(now: int): seq<Command> {
    [Get(0, now)] + ([Get(1, now)] + ([WatchOpen(1)] + ([Exec(1)] + Outcome(now, false, [WatchOpen(0)] + []))))
  }

  lemma StaleRunFrom(c: Config, s: Shared, now: int)
    requires c.failureThreshold <= 1 && s == JustOpened(c) && IsOpen(s.record)
    requires s.record.value.stateChangedAt + c.recoveryTimeout < now
    ensures ValidRun(c, s, StaleRun(now))
    ensures var e := After(c, s, StaleRun(now));
            && Granting(e, 0) && IsOpen(e.record) && e.record.value.stateChangedAt == e.callers[0].now == now
            && |e.openedAt| == 2 && e.callers[0].openings == 1
  {
    var a := Apply(c, s, Get(0, now));
    assert a.callers[0] == SawOpen(now, 1);
    var b := Apply(c, a, Get(1, now));
    assert b.callers[0] == SawOpen(now, 1) && b.callers[1] == SawOpen(now, 1);
    var d := Apply(c, b, WatchOpen(1));
    assert d.callers[0] == SawOpen(now, 1) && d.callers[1].Watching?;
    var f := Apply(c, d, Exec(1));
    assert f.callers[0] == SawOpen(now, 1) && 2 !in f.callers && f.record.value.state.HalfOpen? && f.openedAt == [0];
    var g := Apply(c, Apply(c, f, WatchOutcome(2, now, false)), Exec(2));
    assert g.callers[0] == SawOpen(now, 1) && IsOpen(g.record) && |g.openedAt| == 2;
    var e := Apply(c, g, WatchOpen(0));
    OneCommand(c, g, WatchOpen(0), e, []);
    OutcomeRun(c, f, now, false, g, [WatchOpen(0)] + []);
    OneCommand(c, d, Exec(1), f, Outcome(now, false, [WatchOpen(0)] + []));
    OneCommand(c, b, WatchOpen(1), d, [Exec(1)] + Outcome(now, false, [WatchOpen(0)] + []));
    OneCommand(c, a, Get(1, now), b, [WatchOpen(1)] + ([Exec(1)] + Outcome(now, false, [WatchOpen(0)] + [])));
    OneCommand(c, s, Get(0, now), a,
               [Get(1, now)] + ([WatchOpen(1)] + ([Exec(1)] + Outcome(now, false, [WatchOpen(0)] + []))));
  }

  /** The case the condition rules out, reached from a fresh endpoint: a caller that saw the circuit open before a probe
      failed is about to be granted at the instant of that failure. */
  lemma StaleReadGrants(c: Config, s: Shared, now: int)
    requires c.failureThreshold <= 1 && 0 <= c.recoveryTimeout < now && s == FRESH
    ensures var run := Outcome(0, false, StaleRun(now));
            && ValidRun(c, s, run)
            && var e := After(c, s, run);
               && Granting(e, 0) && IsOpen(e.record) && e.record.value.stateChangedAt == e.callers[0].now
               && |e.openedAt| != e.callers[0].openings
  {
    JustOpenedIsReached(c, s);
    StaleRunFrom(c, JustOpened(c), now);
    OutcomeRun(c, s, 0, false, JustOpened(c), StaleRun(now));
  }

  // ---------------------------------------------------------------- the blind save

  /** The record that writes made one after the other, each on the record the one before it left, would store. */
  function Replayed(c: Config, writes: seq<Write>): Option<Record> {
    if writes == [] then None
    else
      var last := writes[|writes| - 1];
      Some(Written(c, last.change, Current(Stored(Replayed(c, writes[..|writes| - 1]), None), last.now), last.now))
  }

  predicate Ordered(writes: seq<Write>, version: nat) {
    && (forall i, j :: 0 <= i < j < |writes| ==> writes[i].version < writes[j].version)
    && (forall i :: 0 <= i < |writes| ==> writes[i].version < version)
  }

  /** The record is what the writes it reflects make of it, and so is every record a caller has read. */
  ghost predicate InvReplay(c: Config, s: Shared) {
    && s.record == Replayed(c, s.applied)
    && (forall p :: p in s.callers && HoldsRead(s.callers[p]) ==>
        Some(s.callers[p].cb) == Replayed(c, s.callers[p].seen))
  }

  predicate HoldsRead(w: Point) {
    w.SawHalfOpen? || w.WonLock?
  }

  /** A caller's read was due for a probe; since then the key has been written as often as its version has moved on. */
  ghost predicate InvReads(c: Config, s: Shared) {
    && Ordered(s.applied, s.version) && s.blindAt <= s.version
    && (forall p :: p in s.callers && HoldsRead(s.callers[p]) ==> ReadStands(c, s, s.callers[p]))
  }

  predicate ReadStands(c: Config, s: Shared, w: Point)
    requires HoldsRead(w)
  {
    && w.cb.state.HalfOpen? && ProbeDue(w.cb, w.now)
    && w.version <= s.version && Ordered(w.seen, w.version)
    && (s.blindAt <= w.version ==> OnlyMore(w.seen, s.applied, w.version, s.version))
  }

  /** The writes read, then one for every version since. */
  predicate OnlyMore(seen: seq<Write>, applied: seq<Write>, from: nat, version: nat)
    requires from <= version
  {
    && |applied| == |seen| + (version - from) && applied[..|seen|] == seen
    && (forall i :: |seen| <= i < |applied| ==> from <= applied[i].version)
  }

  lemma ReplayedAppend(c: Config, writes: seq<Write>, w: Write)
    ensures Replayed(c, writes + [w]) ==
        Some(Written(c, w.change, Current(Stored(Replayed(c, writes), None), w.now), w.now))
  {
    assert (writes + [w])[..|writes|] == writes;
  }

  lemma StepKeepsReplay(c: Config, s: Shared, m: Command)
    requires InvReplay(c, s) && InvVersions(s) && Enabled(s, m)
    ensures InvReplay(c, Apply(c, s, m))
  {
    if m.Exec? {
      var w := s.callers[m.caller];
      ReplayedAppend(c, s.applied, Write(w.change, w.now, s.version));
    } else if m.Save? {
      var w := s.callers[m.caller];
      ReplayedAppend(c, w.seen, Write(Probe, w.now, s.version));
    }
  }

  lemma CommitKeepsStanding(c: Config, s: Shared, s': Shared, w: Point)
    requires InvReads(c, s) && HoldsRead(w) && ReadStands(c, s, w)
    requires s'.version == s.version + 1 && s'.blindAt == s.blindAt
    requires |s'.applied| == |s.applied| + 1 && s'.applied[..|s.applied|] == s.applied &&
        s'.applied[|s.applied|].version == s.version
    ensures ReadStands(c, s', w)
  {
    if s.blindAt <= w.version {
      assert s'.applied[..|w.seen|] == s.applied[..|w.seen|];
    }
  }

  lemma StepKeepsReads(c: Config, s: Shared, m: Command)
    requires InvReads(c, s) && Enabled(s, m)
    ensures InvReads(c, Apply(c, s, m))
  {
    var s' := Apply(c, s, m);
    if m.Exec? && s'.version != s.version {
      forall p | p in s'.callers && HoldsRead(s'.callers[p]) ensures ReadStands(c, s', s'.callers[p]) {
        CommitKeepsStanding(c, s, s', s.callers[p]);
      }
    }
  }

  lemma {:induction false} RunKeepsReplay(c: Config, s: Shared, run: seq<Command>)
    requires InvReplay(c, s) && InvVersions(s) && InvReads(c, s) && ValidRun(c, s, run)
    ensures var e := After(c, s, run); InvReplay(c, e) && InvVersions(e) && InvReads(c, e)
    decreases |run|
  {
    if run != [] {
      StepKeepsReplay(c, s, run[0]);
      StepKeepsVersions(c, s, run[0]);
      StepKeepsReads(c, s, run[0]);
      RunKeepsReplay(c, Apply(c, s, run[0]), run[1..]);
    }
  }

  /** Main result: under every interleaving the stored record is what the writes it reflects would leave if each had
      been made on the record before it. */
  lemma RecordIsReplay(c: Config, s: Shared, run: seq<Command>)
    requires s == FRESH && ValidRun(c, s, run)
    ensures var e := After(c, s, run); e.record == Replayed(c, e.applied)
  {
    RunKeepsReplay(c, s, run);
  }

  /** Only a save or an expiry undoes a write. */
  lemma OthersOnlyAdd(c: Config, s: Shared, m: Command)
    requires Enabled(s, m) && !m.Save? && !m.Expire?
    ensures s.applied <= Apply(c, s, m).applied
  {
  }

  /** The save of `p` takes this write back. */
  predicate Undoes(c: Config, s: Shared, p: nat, w: Write)
    requires Enabled(s, Save(p))
  {
    w in s.applied && w !in Apply(c, s, Save(p)).applied
  }

  /** Main result: in every reachable state a save undoes every write the record reflects that was committed since the
      saver's read. If neither another save nor an expiry came in between, it undoes exactly those, and so none if and
      only if the key has not been written since. */
  lemma SaveUndoesIff(c: Config, s: Shared, run: seq<Command>, p: nat)
    requires s == FRESH && ValidRun(c, s, run) && Enabled(After(c, s, run), Save(p))
    ensures var e := After(c, s, run);
            var w := e.callers[p];
            && (forall x :: x in e.applied && w.version <= x.version ==> Undoes(c, e, p, x))
            && (e.blindAt <= w.version ==>
                  && (forall x :: x in e.applied ==> (Undoes(c, e, p, x) <==> w.version <= x.version))
                  && ((forall x :: x in e.applied ==> !Undoes(c, e, p, x)) <==> e.version == w.version))
  {
    RunKeepsReplay(c, s, run);
    var e := After(c, s, run);
    var w := e.callers[p];
    assert ReadStands(c, e, w);
    forall x | x in e.applied && w.version <= x.version ensures Undoes(c, e, p, x) {
      assert x !in w.seen;
      assert x.version < e.version;
    }
    if e.blindAt <= w.version {
      forall x | x in e.applied && x.version < w.version ensures x in w.seen {
        var i :| 0 <= i < |e.applied| && e.applied[i] == x;
        assert i < |w.seen| && x == e.applied[..|w.seen|][i];
      }
      if e.version != w.version {
        var x := e.applied[|w.seen|];
        assert x in e.applied && w.version <= x.version;
      }
    }
  }

  /** Main result: in every reachable state in which the key has not been written since its read, a save is the atomic
      call: `Allow` on the stored record grants the probe and stores the same record. */
  lemma SaveIsAtomic(c: Config, s: Shared, run: seq<Command>, p: nat)
    requires s == FRESH && ValidRun(c, s, run) && Enabled(After(c, s, run), Save(p))
    requires After(c, s, run).callers[p].version == After(c, s, run).version
    ensures var e := After(c, s, run);
            var (stored, answer) := Allow(c, Stored(e.record, None), e.callers[p].now);
            answer == Answer(true, true) && Apply(c, e, Save(p)).record == stored.record
  {
    RunKeepsReplay(c, s, run);
    var e := After(c, s, run);
    var w := e.callers[p];
    assert ReadStands(c, e, w);
    assert w.seen == e.applied;
  }

  /** Caller 0 wins the probe lock of a half-open circuit, another caller's failure opens it, and 0 is about to save. */
  function ReopenRun(now: int): seq<Command> {
    [Get(0, now)] + ([SetNX(0)] + Outcome(now, false, []))
  }

  /** A late success on the open circuit has made it half-open. */
  function LatelyHalfOpen(c: Config): Shared {
    JustOpened(c).(record := Some(Succeeded(c, JustOpened(c).record.value, 0)), version := 2,
                   applied := [Write(Failure, 0, 0), Write(Success, 0, 1)])
  }

  lemma LatelyHalfOpenIsReached(c: Config, s: Shared)
    requires c.failureThreshold <= 1 && s == JustOpened(c) && IsOpen(s.record) && s.record.value.nextProbeAt.None?
    ensures Apply(c, Apply(c, s, WatchOutcome(2, 0, true)), Exec(2)) == LatelyHalfOpen(c)
    ensures LatelyHalfOpen(c).record.value.state.HalfOpen? && LatelyHalfOpen(c).record.value.nextProbeAt.None?
  {
    var mid := Apply(c, s, WatchOutcome(2, 0, true));
    assert mid.callers - {2} == map[];
    assert [Write(Failure, 0, 0)] + [Write(Success, 0, 1)] == [Write(Failure, 0, 0), Write(Success, 0, 1)];
  }

  lemma ReopenRunFrom(c: Config, s: Shared, now: int)
    requires s.callers == map[] && s.lockedUntil.None? && s.record.Some?
    requires s.record.value.state.HalfOpen? && s.record.value.nextProbeAt.None?
    ensures ValidRun(c, s, ReopenRun(now))
    ensures var e := After(c, s, ReopenRun(now));
            && Enabled(e, Save(0)) && IsOpen(e.record) && e.record.value.stateChangedAt == now
            && Apply(c, e, Save(0)).record.value.state.HalfOpen?
  {
    var a := Apply(c, s, Get(0, now));
    assert a.callers[0].SawHalfOpen? && a.callers[0].cb == s.record.value;
    var b := Apply(c, a, SetNX(0));
    assert b.callers[0].WonLock? && b.callers[0].cb == s.record.value && 2 !in b.callers;
    var e := Apply(c, Apply(c, b, WatchOutcome(2, now, false)), Exec(2));
    assert e.callers[0].WonLock? && e.callers[0].cb == s.record.value;
    OutcomeRun(c, b, now, false, e, []);
    OneCommand(c, a, SetNX(0), b, Outcome(now, false, []));
    OneCommand(c, s, Get(0, now), a, [SetNX(0)] + Outcome(now, false, []));
  }

  /** A failure recorded between the lock and the save is overwritten, in a run from a fresh endpoint: the circuit is
      half-open again at once, although it was opened at the very time the save happens. */
  lemma SaveReopens(c: Config, s: Shared, now: int)
    requires c.failureThreshold <= 1 && s == FRESH
    ensures var run := Outcome(0, false, Outcome(0, true, ReopenRun(now)));
            && ValidRun(c, s, run)
            && var e := After(c, s, run);
               && Enabled(e, Save(0)) && IsOpen(e.record) && e.record.value.stateChangedAt == now
               && Apply(c, e, Save(0)).record.value.state.HalfOpen?
  {
    JustOpenedIsReached(c, s);
    LatelyHalfOpenIsReached(c, JustOpened(c));
    ReopenRunFrom(c, LatelyHalfOpen(c), now);
    OutcomeRun(c, JustOpened(c), 0, true, LatelyHalfOpen(c), ReopenRun(now));
    OutcomeRun(c, s, 0, false, JustOpened(c), Outcome(0, true, ReopenRun(now)));
  }
}
