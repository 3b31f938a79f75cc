/** The INCR-check-undo concurrency counters shared by all workers: the in-flight counter of an endpoint and the
    counter of a domain, with expiry of the key at any moment. */
module Slots {
  function Count(counters: map<string, nat>, key: string): nat {
    if key in counters then counters[key] else 0
  }

  /** The Lua decrement: never below zero. */
  function Down(n: nat): nat {
    if n > 0 then n - 1 else 0
  }

  /** The Redis counters of one kind. A false `redisOk` is a command that did not reach Redis. */
  class Counters {
    var values: map<string, nat>

    constructor ()
      ensures values == map[]
    {
      values := map[];
    }

    method Incr(key: string, redisOk: bool) returns (count: nat, ok: bool)
      modifies this
      ensures ok == redisOk
      ensures values == if ok then old(values)[key := Count(old(values), key) + 1] else old(values)
      ensures ok ==> count == Count(values, key)
    {
      ok, count := redisOk, 0;
      if ok {
        count := Count(values, key) + 1;
        values := values[key := count];
      }
    }

    method Decr(key: string, redisOk: bool)
      modifies this
      ensures forall k :: Count(values, k) ==
                if redisOk && k == key then Down(Count(old(values), k)) else Count(old(values), k)
    {
      if redisOk && Count(values, key) > 0 {
        values := values[key := values[key] - 1];
      }
    }
  }

  // ---------------------------------------------------------------- one counter, any number of workers

  /** The counter and the workers that will still decrement it, by how they got there. */
  datatype Slot = Slot(
    counter: nat,
    checked: nat,   // hold a slot the check granted
    forced: nat,    // hold a slot re-acquired without a check because the divert failed
    phantom: nat,   // will release although their increment never reached Redis
    undoing: nat    // were over the cap and have not undone their increment yet
  )

  datatype Event =
    | Increment           // INCR, then the comparison with the cap
    | IncrementFailed     // INCR error taken as "proceed and release"
    | Undo
    | Force
    | ReleaseChecked
    | ReleaseForced
    | ReleasePhantom
    | Expire              // the key's TTL runs out

  predicate Possible(s: Slot, e: Event) {
    match e
    case Undo => s.undoing > 0
    case ReleaseChecked => s.checked > 0
    case ReleaseForced => s.forced > 0
    case ReleasePhantom => s.phantom > 0
    case _ => true
  }

  function Happens(s: Slot, e: Event, cap: int): Slot
    requires Possible(s, e)
  {
    match e
    case Increment =>
      if s.counter + 1 > cap then s.(counter := s.counter + 1, undoing := s.undoing + 1)
      else s.(counter := s.counter + 1, checked := s.checked + 1)
    case IncrementFailed => s.(phantom := s.phantom + 1)
    case Undo => s.(counter := Down(s.counter), undoing := s.undoing - 1)
    case Force => s.(counter := s.counter + 1, forced := s.forced + 1)
    case ReleaseChecked => s.(counter := Down(s.counter), checked := s.checked - 1)
    case ReleaseForced => s.(counter := Down(s.counter), forced := s.forced - 1)
    case ReleasePhantom => s.(counter := Down(s.counter), phantom := s.phantom - 1)
    case Expire => s.(counter := 0)
  }

  predicate PossibleRun(s: Slot, run: seq<Event>, cap: int)
    decreases |run|
  {
    run == [] || (Possible(s, run[0]) && PossibleRun(Happens(s, run[0], cap), run[1..], cap))
  }

  function AfterRun(s: Slot, run: seq<Event>, cap: int): Slot
    requires PossibleRun(s, run, cap)
    decreases |run|
  {
    if run == [] then s else AfterRun(Happens(s, run[0], cap), run[1..], cap)
  }

  function Outstanding(s: Slot): nat {
    s.checked + s.forced + s.phantom + s.undoing
  }

  /** The state before any worker starts. */
  predicate Idle(s: Slot) {
    s.counter == 0 && s.checked == 0 && s.forced == 0 && s.phantom == 0 && s.undoing == 0
  }

  /** No key expiry and no failed increment. */
  predicate Undisturbed(run: seq<Event>) {
    forall e :: e in run ==> e != Expire && e != IncrementFailed
  }

  /** The counter is exact and the check has let through no more than the cap, as in the idle state. */
  predicate Balanced(s: Slot, cap: int) {
    s.counter == Outstanding(s) && s.phantom == 0 && (s.checked <= cap || s.checked == 0)
  }

  /** Main result: over every interleaving without expiry or failed increments, the workers the check let through never
      exceed the cap, and the counter is exactly the number of workers that have yet to decrement it. */
  lemma {:induction false} HoldersWithinCap(s: Slot, run: seq<Event>, cap: int)
    requires PossibleRun(s, run, cap) && Undisturbed(run) && Balanced(s, cap)
    ensures Balanced(AfterRun(s, run, cap), cap)
    decreases |run|
  {
    if run != [] {
      assert run[0] in run;
      assert forall e :: e in run[1..] ==> e in run;
      HoldersWithinCap(Happens(s, run[0], cap), run[1..], cap);
    }
  }

  /** Main result: with keys expiring and increments failing at any moment, the counter never exceeds the number of
      workers that will decrement it, so it is exactly zero once all of them have. */
  lemma {:induction false} CounterSelfCorrects(s: Slot, run: seq<Event>, cap: int)
    requires PossibleRun(s, run, cap) && s.counter <= Outstanding(s)
    ensures var s' := AfterRun(s, run, cap);
            s'.counter <= Outstanding(s') && (Outstanding(s') == 0 ==> Idle(s'))
    decreases |run|
  {
    if run != [] {
      CounterSelfCorrects(Happens(s, run[0], cap), run[1..], cap);
    }
  }

  /** One expiry is enough to let more workers through than the cap. */
  lemma ExpiryExceedsCap(start: Slot)
    requires Idle(start)
    ensures var run := [Increment, Expire, Increment];
            PossibleRun(start, run, 1) && AfterRun(start, run, 1).checked == 2
  {
    var run := [Increment, Expire, Increment];
    assert run[1..] == [Expire, Increment] && run[1..][1..] == [Increment] && run[1..][1..][1..] == [];
    var s1 := Happens(start, Increment, 1);
    var s2 := Happens(s1, Expire, 1);
    assert PossibleRun(s2, [Increment], 1) && AfterRun(s2, [Increment], 1).checked == 2;
  }
}
