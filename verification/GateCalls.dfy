/** Any number of worker calls interleaving their commands on one counter: how many make their request at a time. */
module GateCalls {
  import opened Slots
  import opened Workers
  import opened GateRuns

  /** How the counter answered a call: within the cap, over it with a divert that failed, with a failed increment, or
      over it and turned away. */
  datatype How = ByCheck | Overflow | Blind | Turned

  /** A call between its first command and its end: the commands left before the gate answers, the answer, the
      release. */
  datatype Call = Call(todo: seq<Event>, gate: Gate, leave: seq<Event>, how: How, failed: bool)

  /** `failures` counts the calls begun for which an increment failed, `phantoms` the releases made by such calls. */
  datatype System = System(slot: Slot, calls: map<nat, Call>, failures: nat, phantoms: nat)

  datatype Step =
    | Begin(call: nat, slow: bool, e: Environment)
    | Go(call: nat)
    | End(call: nat)

  /** The counter in question: in-flight requests of an endpoint, or requests of a domain. */
  datatype Kind = Inflight | Domain

  function EventsOf(kind: Kind, count: nat, max: int, slow: bool, e: Environment): (seq<Event>, seq<Event>) {
    if kind.Inflight? then InflightEvents(count, max, slow, e) else DomainEvents(count, max, slow, e)
  }

  function GateOf(kind: Kind, count: nat, max: int, slow: bool, e: Environment): Gate {
    if kind.Inflight? then InflightGate(count, max, slow, e) else DomainGate(true, count, max, slow, e)
  }

  function HowOf(kind: Kind, count: nat, max: int, slow: bool, e: Environment): How {
    if !(if kind.Inflight? then e.inflightIncrOk else e.domainIncrOk) then Blind
    else if count < max then ByCheck
    else if slow || (if kind.Inflight? then e.inflightDivertOk else e.domainDivertOk) then Turned
    else Overflow
  }

  /** An increment the call is answered by did not reach Redis. */
  predicate Fails(kind: Kind, count: nat, max: int, slow: bool, e: Environment) {
    var how := HowOf(kind, count, max, slow, e);
    how.Blind? || (kind.Inflight? && how.Overflow? && !e.reacquireOk)
  }

  function Begun(kind: Kind, s: System, max: int, slow: bool, e: Environment): Call {
    var (enter, leave) := EventsOf(kind, s.slot.counter, max, slow, e);
    Call(if enter == [] then [] else enter[1..], GateOf(kind, s.slot.counter, max, slow, e), leave,
         HowOf(kind, s.slot.counter, max, slow, e), Fails(kind, s.slot.counter, max, slow, e))
  }

  predicate Enabled(kind: Kind, s: System, max: int, step: Step) {
    match step
    case Begin(c, slow, e) =>
      var enter := EventsOf(kind, s.slot.counter, max, slow, e).0;
      c !in s.calls && (enter != [] ==> Possible(s.slot, enter[0]))
    case Go(c) => c in s.calls && s.calls[c].todo != [] && Possible(s.slot, s.calls[c].todo[0])
    case End(c) =>
      c in s.calls && s.calls[c].todo == [] && (s.calls[c].leave != [] ==> Possible(s.slot, s.calls[c].leave[0]))
  }

  function First(s: Slot, events: seq<Event>, max: int): Slot
    requires events != [] ==> Possible(s, events[0])
  {
    if events == [] then s else Happens(s, events[0], max)
  }

  function Apply(kind: Kind, s: System, max: int, step: Step): System
    requires Enabled(kind, s, max, step)
  {
    match step
    case Begin(c, slow, e) =>
      var call := Begun(kind, s, max, slow, e);
      System(First(s.slot, EventsOf(kind, s.slot.counter, max, slow, e).0, max), s.calls[c := call],
             if call.failed then s.failures + 1 else s.failures, s.phantoms)
    case Go(c) =>
      var call := s.calls[c];
      s.(slot := First(s.slot, call.todo, max), calls := s.calls[c := call.(todo := call.todo[1..])])
    case End(c) =>
      var leave := s.calls[c].leave;
      s.(slot := First(s.slot, leave, max), calls := s.calls - {c},
         phantoms := if leave == [ReleasePhantom] then s.phantoms + 1 else s.phantoms)
  }

  predicate ValidRun(kind: Kind, s: System, max: int, run: seq<Step>)
    decreases |run|
  {
    run == [] || (Enabled(kind, s, max, run[0]) && ValidRun(kind, Apply(kind, s, max, run[0]), max, run[1..]))
  }

  function After(kind: Kind, s: System, max: int, run: seq<Step>): System
    requires ValidRun(kind, s, max, run)
    decreases |run|
  {
    if run == [] then s else After(kind, Apply(kind, s, max, run[0]), max, run[1..])
  }

  // ---------------------------------------------------------------- what every step keeps

  predicate CallShape(c: Call) {
    && (Passes(c.gate) <==> !c.how.Turned?)
    && (c.how.ByCheck? ==> c.todo == [] && (c.leave == [] || c.leave == [ReleaseChecked]))
    && (!c.how.ByCheck? ==> c.leave == [] || c.leave == [ReleaseForced] || c.leave == [ReleasePhantom])
    && (forall k :: 0 <= k < |c.todo| ==> c.todo[k] in {Undo, Force, IncrementFailed})
    && (c.how.Blind? || c.leave == [ReleasePhantom] ==> c.failed)
  }

  lemma BegunShape(kind: Kind, s: System, max: int, slow: bool, e: Environment)
    ensures CallShape(Begun(kind, s, max, slow, e))
    ensures var enter := EventsOf(kind, s.slot.counter, max, slow, e).0;
            && (enter == [] || enter[0] == Increment || enter[0] == IncrementFailed)
            && (HowOf(kind, s.slot.counter, max, slow, e).ByCheck? <==>
                enter != [] && enter[0] == Increment && s.slot.counter + 1 <= max)
  {
  }

  function Checked(calls: map<nat, Call>): set<nat> {
    set c | c in calls && calls[c].how.ByCheck?
  }

  function Failed(calls: map<nat, Call>): set<nat> {
    set c | c in calls && calls[c].failed
  }

  /** The calls that make their request: the gate has let them pass. */
  function Inside(calls: map<nat, Call>): set<nat> {
    set c | c in calls && calls[c].todo == [] && Passes(calls[c].gate)
  }

  function Overflowing(calls: map<nat, Call>): set<nat> {
    set c | c in calls && calls[c].todo == [] && calls[c].how.Overflow?
  }

  function AtLeastZero(cap: int): nat {
    if cap < 0 then 0 else cap
  }

  ghost predicate InvSlot(s: System, cap: int) {
    && s.slot.checked + s.slot.forced + s.slot.undoing <= s.slot.counter + s.phantoms
    && s.slot.checked <= AtLeastZero(cap) + s.phantoms
  }

  ghost predicate InvCalls(s: System) {
    && (forall c :: c in s.calls ==> CallShape(s.calls[c]))
    && |Checked(s.calls)| <= s.slot.checked
    && |Failed(s.calls)| + s.phantoms <= s.failures
  }

  ghost predicate Inv(s: System, cap: int) {
    InvSlot(s, cap) && InvCalls(s)
  }

  lemma CheckedAdded(calls: map<nat, Call>, c: nat, call: Call)
    requires c !in calls
    ensures |Checked(calls[c := call])| == |Checked(calls)| + (if call.how.ByCheck? then 1 else 0)
  {
    var more := calls[c := call];
    if call.how.ByCheck? {
      assert Checked(more) == Checked(calls) + {c};
    } else {
      assert Checked(more) == Checked(calls);
    }
  }

  lemma FailedAdded(calls: map<nat, Call>, c: nat, call: Call)
    requires c !in calls
    ensures |Failed(calls[c := call])| == |Failed(calls)| + (if call.failed then 1 else 0)
  {
    var more := calls[c := call];
    if call.failed {
      assert Failed(more) == Failed(calls) + {c};
    } else {
      assert Failed(more) == Failed(calls);
    }
  }

  lemma CallRemoved(calls: map<nat, Call>, c: nat)
    requires c in calls
    ensures |Checked(calls - {c})| == |Checked(calls)| - (if calls[c].how.ByCheck? then 1 else 0)
    ensures |Failed(calls - {c})| == |Failed(calls)| - (if calls[c].failed then 1 else 0)
  {
    assert Checked(calls - {c}) == Checked(calls) - {c};
    assert Failed(calls - {c}) == Failed(calls) - {c};
  }

  lemma BeginKeepsInv(kind: Kind, s: System, cap: int, step: Step)
    requires Inv(s, cap) && step.Begin? && Enabled(kind, s, cap, step)
    ensures Inv(Apply(kind, s, cap, step), cap)
  {
    BegunShape(kind, s, cap, step.slow, step.e);
    CheckedAdded(s.calls, step.call, Begun(kind, s, cap, step.slow, step.e));
    FailedAdded(s.calls, step.call, Begun(kind, s, cap, step.slow, step.e));
  }

  lemma GoKeepsInv(kind: Kind, s: System, cap: int, step: Step)
    requires Inv(s, cap) && step.Go? && Enabled(kind, s, cap, step)
    ensures Inv(Apply(kind, s, cap, step), cap)
  {
    var s', call := Apply(kind, s, cap, step), s.calls[step.call];
    assert call.todo[0] in {Undo, Force, IncrementFailed};
    assert Checked(s'.calls) == Checked(s.calls) && Failed(s'.calls) == Failed(s.calls);
  }

  lemma EndKeepsInv(kind: Kind, s: System, cap: int, step: Step)
    requires Inv(s, cap) && step.End? && Enabled(kind, s, cap, step)
    ensures Inv(Apply(kind, s, cap, step), cap)
  {
    assert CallShape(s.calls[step.call]);
    CallRemoved(s.calls, step.call);
  }

  lemma {:induction false} RunKeepsInv(kind: Kind, s: System, cap: int, run: seq<Step>)
    requires Inv(s, cap) && ValidRun(kind, s, cap, run)
    ensures Inv(After(kind, s, cap, run), cap)
    decreases |run|
  {
    if run != [] {
      if run[0].Begin? {
        BeginKeepsInv(kind, s, cap, run[0]);
      } else if run[0].Go? {
        GoKeepsInv(kind, s, cap, run[0]);
      } else {
        EndKeepsInv(kind, s, cap, run[0]);
      }
      RunKeepsInv(kind, Apply(kind, s, cap, run[0]), cap, run[1..]);
    }
  }

  lemma SubsetSmaller(a: set<nat>, b: set<nat>)
    requires a <= b
    ensures |a| <= |b|
    decreases b
  {
    if a != b {
      var x :| x in b && x !in a;
      SubsetSmaller(a, b - {x});
    }
  }

  lemma InsideSplits(calls: map<nat, Call>)
    requires forall c :: c in calls ==> CallShape(calls[c])
    ensures |Inside(calls)| <= |Checked(calls)| + |Overflowing(calls)| + |Failed(calls)|
  {
    var parts := Checked(calls) + Overflowing(calls) + Failed(calls);
    forall c | c in Inside(calls) ensures c in parts {
      assert CallShape(calls[c]);
    }
    SubsetSmaller(Inside(calls), parts);
  }

  /** Main result: over every interleaving of any number of calls, while the counter's key does not expire, the calls
      that make their request at a time are at most the cap, plus those let through because a divert failed, plus the
      calls begun so far with an increment that failed. */
  lemma RequestsWithinCap(kind: Kind, start: System, cap: int, run: seq<Step>)
    requires start.slot.counter == 0 && Outstanding(start.slot) == 0
    requires start.calls == map[] && start.failures == 0 && start.phantoms == 0
    requires ValidRun(kind, start, cap, run)
    ensures var e := After(kind, start, cap, run);
            |Inside(e.calls)| <= AtLeastZero(cap) + |Overflowing(e.calls)| + e.failures
  {
    assert Checked(start.calls) == {} && Failed(start.calls) == {};
    RunKeepsInv(kind, start, cap, run);
    InsideSplits(After(kind, start, cap, run).calls);
  }
}
