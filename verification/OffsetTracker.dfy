/** The sliding window that turns out-of-order completions into safe commit positions. */
module OffsetTrackers {
  datatype Tracker = Tracker(completed: set<int>, lowest: int)

  /** The loop of `MarkCompleted`: consume the contiguous completed offsets. */
  function Advance(t: Tracker): Tracker
    decreases |t.completed|
  {
    if t.lowest in t.completed then Advance(Tracker(t.completed - {t.lowest}, t.lowest + 1)) else t
  }

  /** How often the loop looks up `lowestPending` from here: once for each offset it passes, and once to stop. */
  function Lookups(t: Tracker): nat
    decreases |t.completed|
  {
    if t.lowest in t.completed then 1 + Lookups(Tracker(t.completed - {t.lowest}, t.lowest + 1)) else 1
  }

  function Tests(t: Tracker, offset: int): nat {
    Lookups(t.(completed := t.completed + {offset}))
  }

  function Mark(t: Tracker, offset: int): Tracker {
    Advance(t.(completed := t.completed + {offset}))
  }

  function MarkAll(initial: int, offsets: seq<int>): Tracker {
    if offsets == [] then Tracker({}, initial)
    else Mark(MarkAll(initial, offsets[..|offsets| - 1]), offsets[|offsets| - 1])
  }

  class OffsetTracker {
    var completed: set<int>
    var lowestPending: int
    var highestReceived: int

    function State(): Tracker
      reads this
    {
      Tracker(completed, lowestPending)
    }

    constructor (initialOffset: int)
      ensures State() == Tracker({}, initialOffset) && highestReceived == initialOffset
    {
      completed, lowestPending, highestReceived := {}, initialOffset, initialOffset;
    }

    /** `tests` counts how often the loop looks up `lowestPending`. */
    method MarkCompleted(offset: int) returns (markTo: int, ok: bool, ghost tests: nat)
      modifies this`completed, this`lowestPending
      ensures State() == Mark(old(State()), offset)
      ensures markTo == lowestPending - 1 && ok == (markTo >= 0)
      ensures tests == Tests(old(State()), offset)
    {
      completed := completed + {offset};
      markTo := lowestPending - 1;
      tests := 1;
      while lowestPending in completed
        invariant Advance(State()) == Mark(old(State()), offset)
        invariant markTo == lowestPending - 1
        invariant tests + Lookups(State()) == 1 + Tests(old(State()), offset)
        decreases |completed|
      {
        markTo := lowestPending;
        completed := completed - {lowestPending};
        lowestPending := lowestPending + 1;
        tests := tests + 1;
      }
      ok := markTo >= 0;
    }
  }

  // ---------------------------------------------------------------- refinement of a plain completed set

  /** `n` is the least offset from `initial` on that is not done. */
  ghost predicate LeastMissing(done: set<int>, initial: int, n: int) {
    initial <= n && n !in done && forall o :: initial <= o < n ==> o in done
  }

  /** The tracker stands for the set of offsets done since `initial`. */
  ghost predicate Tracks(t: Tracker, done: set<int>, initial: int) {
    && LeastMissing(done, initial, t.lowest)
    && t.completed <= done
    && (forall o :: o in done && t.lowest < o ==> o in t.completed)
  }

  lemma {:induction false} AdvanceTracks(t: Tracker, done: set<int>, initial: int)
    requires initial <= t.lowest && forall o :: initial <= o < t.lowest ==> o in done
    requires t.completed <= done && forall o :: o in done && t.lowest <= o ==> o in t.completed
    ensures Tracks(Advance(t), done, initial)
    ensures t.lowest <= Advance(t).lowest
    ensures forall o :: o in Advance(t).completed <==> o in t.completed && !(t.lowest <= o < Advance(t).lowest)
    decreases |t.completed|
  {
    if t.lowest in t.completed {
      AdvanceTracks(Tracker(t.completed - {t.lowest}, t.lowest + 1), done, initial);
    }
  }

  lemma MarkTracks(t: Tracker, done: set<int>, initial: int, offset: int)
    requires Tracks(t, done, initial)
    ensures Tracks(Mark(t, offset), done + {offset}, initial)
    ensures t.lowest <= Mark(t, offset).lowest
    ensures forall o :: o in Mark(t, offset).completed <==>
              (o in t.completed || o == offset) && !(t.lowest <= o < Mark(t, offset).lowest)
  {
    AdvanceTracks(t.(completed := t.completed + {offset}), done + {offset}, initial);
  }

  function SetOf(offsets: seq<int>): set<int> {
    set o | o in offsets
  }

  /** Main result: for any sequence of completions, in any order and with any repeats, `lowestPending` is the least
      offset not completed, and every completed offset above it is remembered. */
  lemma {:induction false} TrackerRefinesSet(initial: int, offsets: seq<int>)
    ensures Tracks(MarkAll(initial, offsets), SetOf(offsets), initial)
  {
    if offsets != [] {
      var front, last := offsets[..|offsets| - 1], offsets[|offsets| - 1];
      TrackerRefinesSet(initial, front);
      assert offsets == front + [last];
      assert SetOf(offsets) == SetOf(front) + {last};
      MarkTracks(MarkAll(initial, front), SetOf(front), initial, last);
    }
  }

  /** Main result: without repeats and offsets below the start, the map holds exactly the completed offsets above
      `lowestPending`. */
  lemma {:induction false} NoStaleEntries(initial: int, offsets: seq<int>)
    requires forall i, j :: 0 <= i < j < |offsets| ==> offsets[i] != offsets[j]
    requires forall i :: 0 <= i < |offsets| ==> initial <= offsets[i]
    ensures var t := MarkAll(initial, offsets); forall o :: o in t.completed <==> o in offsets && t.lowest < o
  {
    TrackerRefinesSet(initial, offsets);
    if offsets != [] {
      var front, last := offsets[..|offsets| - 1], offsets[|offsets| - 1];
      NoStaleEntries(initial, front);
      TrackerRefinesSet(initial, front);
      MarkTracks(MarkAll(initial, front), SetOf(front), initial, last);
      assert last !in front;
      assert offsets == front + [last];
      var t, t' := MarkAll(initial, front), MarkAll(initial, offsets);
      assert last in SetOf(offsets) && t'.lowest !in SetOf(offsets);
      assert t.lowest <= last;
    }
  }

  function TotalTests(initial: int, offsets: seq<int>): nat {
    if offsets == [] then 0
    else
      var front := offsets[..|offsets| - 1];
      TotalTests(initial, front) + Tests(MarkAll(initial, front), offsets[|offsets| - 1])
  }

  lemma {:induction false} LookupsAdvance(t: Tracker)
    ensures Lookups(t) == Advance(t).lowest - t.lowest + 1
    decreases |t.completed|
  {
    if t.lowest in t.completed {
      LookupsAdvance(Tracker(t.completed - {t.lowest}, t.lowest + 1));
    }
  }

  /** Main result: over any run, repeats included, the loops of all calls together look up the map exactly once for each
      offset passed and once for each call. */
  lemma {:induction false} TotalTestsExact(initial: int, offsets: seq<int>)
    ensures TotalTests(initial, offsets) == (MarkAll(initial, offsets).lowest - initial) + |offsets|
  {
    if offsets != [] {
      var front, last := offsets[..|offsets| - 1], offsets[|offsets| - 1];
      TotalTestsExact(initial, front);
      var t := MarkAll(initial, front);
      LookupsAdvance(t.(completed := t.completed + {last}));
    }
  }

  lemma {:induction false} AdvanceConserves(t: Tracker)
    ensures |Advance(t).completed| + Advance(t).lowest == |t.completed| + t.lowest
    decreases |t.completed|
  {
    if t.lowest in t.completed {
      AdvanceConserves(Tracker(t.completed - {t.lowest}, t.lowest + 1));
    }
  }

  /** Main result: every completed offset is either remembered or has moved `lowestPending` by one. */
  lemma {:induction false} OffsetsConserved(initial: int, offsets: seq<int>)
    requires forall i, j :: 0 <= i < j < |offsets| ==> offsets[i] != offsets[j]
    requires forall i :: 0 <= i < |offsets| ==> initial <= offsets[i]
    ensures var t := MarkAll(initial, offsets); |t.completed| + (t.lowest - initial) == |offsets|
  {
    if offsets != [] {
      var front, last := offsets[..|offsets| - 1], offsets[|offsets| - 1];
      OffsetsConserved(initial, front);
      NoStaleEntries(initial, front);
      assert last !in front;
      var t := MarkAll(initial, front);
      AdvanceConserves(t.(completed := t.completed + {last}));
    }
  }

  /** Two orders of the same completions give the same commit position. */
  lemma OrderIrrelevant(initial: int, a: seq<int>, b: seq<int>)
    requires SetOf(a) == SetOf(b)
    ensures MarkAll(initial, a).lowest == MarkAll(initial, b).lowest
  {
    TrackerRefinesSet(initial, a);
    TrackerRefinesSet(initial, b);
  }
}
