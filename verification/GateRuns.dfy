/** The gates of the worker as runs of the counter events, so that what is proved of every interleaving of events holds
    of every interleaving of gate calls. */
module GateRuns {
  import opened Slots
  import opened Workers

  function Undoing(undoOk: bool): seq<Event> {
    if undoOk then [Undo] else []
  }

  /** The in-flight gate and its deferred release: a slot re-acquired by a failed command is released all the same. */
  function InflightEvents(count: nat, max: int, slow: bool, e: Environment): (seq<Event>, seq<Event>) {
    if !e.inflightIncrOk then ([], [])
    else if count + 1 <= max then ([Increment], if e.inflightReleaseOk then [ReleaseChecked] else [])
    else
      var refused := [Increment] + Undoing(e.inflightUndoOk);
      if slow || e.inflightDivertOk then (refused, [])
      else if e.reacquireOk then (refused + [Force], if e.inflightReleaseOk then [ReleaseForced] else [])
      else (refused + [IncrementFailed], if e.inflightReleaseOk then [ReleasePhantom] else [])
  }

  /** The domain gate and its deferred release: a failed increment is released all the same. */
  function DomainEvents(count: nat, max: int, slow: bool, e: Environment): (seq<Event>, seq<Event>) {
    if !e.domainIncrOk then ([IncrementFailed], if e.domainReleaseOk then [ReleasePhantom] else [])
    else if count + 1 <= max then ([Increment], if e.domainReleaseOk then [ReleaseChecked] else [])
    else ([Increment] + Undoing(e.domainUndoOk), [])
  }

  lemma {:induction false} RunAppend(s: Slot, a: seq<Event>, b: seq<Event>, cap: int)
    requires PossibleRun(s, a, cap) && PossibleRun(AfterRun(s, a, cap), b, cap)
    ensures PossibleRun(s, a + b, cap) && AfterRun(s, a + b, cap) == AfterRun(AfterRun(s, a, cap), b, cap)
    decreases |a|
  {
    if a == [] {
      assert a + b == b;
    } else {
      RunAppend(Happens(s, a[0], cap), a[1..], b, cap);
      assert (a + b)[1..] == a[1..] + b;
    }
  }

  lemma OneEvent(s: Slot, e: Event, cap: int)
    requires Possible(s, e)
    ensures PossibleRun(s, [e], cap) && AfterRun(s, [e], cap) == Happens(s, e, cap)
  {
    assert [e][1..] == [];
  }

  /** An increment over the cap, undone or left for good. */
  lemma RefusedRun(s: Slot, undoOk: bool, cap: int)
    requires s.counter + 1 > cap
    ensures var run := [Increment] + Undoing(undoOk);
            && PossibleRun(s, run, cap)
            && AfterRun(s, run, cap) == if undoOk then s else s.(counter := s.counter + 1, undoing := s.undoing + 1)
  {
    OneEvent(s, Increment, cap);
    var s1 := Happens(s, Increment, cap);
    if undoOk {
      OneEvent(s1, Undo, cap);
    }
    RunAppend(s, [Increment], Undoing(undoOk), cap);
  }

  /** The workers that hold a slot, by the check, by force, or by an increment that failed. */
  function Holders(s: Slot): nat {
    s.checked + s.forced + s.phantom
  }

  /** Main result: the in-flight gate moves the counter as its events do; once released it has left everything as it
      was, unless a command on the counter failed. */
  lemma InflightCallIsRun(s: Slot, max: int, slow: bool, e: Environment)
    ensures var (enter, leave) := InflightEvents(s.counter, max, slow, e);
            && PossibleRun(s, enter, max) && PossibleRun(AfterRun(s, enter, max), leave, max)
            && AfterRun(s, enter, max).counter == InflightCount(s.counter, max, slow, e)
            && var s' := AfterRun(AfterRun(s, enter, max), leave, max);
               && s'.counter == InflightAfter(s.counter, max, slow, e)
               && (CountersReachable(e) ==> s' == s)
    ensures var gate := InflightGate(s.counter, max, slow, e);
            var held := AfterRun(s, InflightEvents(s.counter, max, slow, e).0, max);
            && Holders(held) == Holders(s) + (if gate.Held? then 1 else 0)
            && (gate.Free? <==> !e.inflightIncrOk)
            && (e.inflightIncrOk && slow && max <= s.counter ==> gate.Refused?)
  {
    var (enter, leave) := InflightEvents(s.counter, max, slow, e);
    if e.inflightIncrOk {
      if s.counter + 1 <= max {
        OneEvent(s, Increment, max);
      } else {
        RefusedRun(s, e.inflightUndoOk, max);
        var refused := [Increment] + Undoing(e.inflightUndoOk);
        var s1 := AfterRun(s, refused, max);
        if !slow && !e.inflightDivertOk {
          var again := if e.reacquireOk then Force else IncrementFailed;
          OneEvent(s1, again, max);
          RunAppend(s, refused, [again], max);
        }
      }
      if leave != [] {
        OneEvent(AfterRun(s, enter, max), leave[0], max);
      }
    }
  }

  /** Main result: the same for the domain gate. */
  lemma DomainCallIsRun(s: Slot, max: int, slow: bool, e: Environment)
    ensures var (enter, leave) := DomainEvents(s.counter, max, slow, e);
            && PossibleRun(s, enter, max) && PossibleRun(AfterRun(s, enter, max), leave, max)
            && AfterRun(s, enter, max).counter == DomainCount(true, s.counter, max, e)
            && var s' := AfterRun(AfterRun(s, enter, max), leave, max);
               && s'.counter == DomainAfter(true, s.counter, max, slow, e)
               && (CountersReachable(e) ==> s' == s)
    ensures var gate := DomainGate(true, s.counter, max, slow, e);
            var held := AfterRun(s, DomainEvents(s.counter, max, slow, e).0, max);
            && Holders(held) == Holders(s) + (if gate.Held? then 1 else 0)
            && (gate.Free? <==> e.domainIncrOk && max <= s.counter && !slow && !e.domainDivertOk)
            && (e.domainIncrOk && slow && max <= s.counter ==> gate.Refused?)
            && DomainGate(false, s.counter, max, slow, e).Free?
  {
    var (enter, leave) := DomainEvents(s.counter, max, slow, e);
    if e.domainIncrOk && s.counter + 1 > max {
      RefusedRun(s, e.domainUndoOk, max);
    } else {
      OneEvent(s, enter[0], max);
    }
    if leave != [] {
      OneEvent(AfterRun(s, enter, max), leave[0], max);
    }
  }
}
