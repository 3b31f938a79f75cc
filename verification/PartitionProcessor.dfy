/** The partition processor: one goroutine routing messages to per-key channels, workers handling them concurrently,
    and commit positions marked as they finish, as a transition system over every interleaving. */
module PartitionProcessors {
  import opened Domain
  import opened OffsetTrackers

  datatype Msg = Msg(offset: int, key: string)

  /** Messages without a key share one channel. */
  function ChannelOf(m: Msg): string {
    if m.key == "" then "__no_key__" else m.key
  }

  /** The fixed facts of a session: the messages of the claim in order, the offset it starts at, the workers per key. */
  datatype Session = Session(messages: seq<Msg>, initial: int, perKeyParallelism: int)

  /** Where a worker is with one message: in the handler, after a nil return, or about to mark a position. */
  datatype Stage = Handling | Handled | Marking(position: int)

  datatype State = State(
    received: nat,                   // messages routed so far
    queues: map<string, seq<nat>>,   // keyChannels: message indices waiting
    busy: map<nat, Stage>,           // messages some worker holds
    succeeded: set<nat>,             // handler returned nil
    failed: set<nat>,                // handler returned an error
    counted: set<nat>,               // passed to the offset tracker
    tracker: Tracker,
    marks: seq<int>,                 // MarkOffset calls, in order
    starts: seq<nat>,                // handler calls, in order
    cancelled: bool,
    cleared: bool,                   // keyChannelManager has closed the channels and reset the table
    closing: map<string, seq<nat>>,  // what its closed channels still hold
    late: set<nat>                   // messages routed since, to new channels with new workers
  )

  const BUFFER := 100

  datatype Step =
    | Route
    | Start(key: string)
    | ReturnNil(index: nat)
    | ReturnError(index: nat)
    | Complete(index: nat)
    | MarkOffset(index: nat)
    | Cancel
    | Clear
    | Drain(key: string)             // a worker of a closed channel takes one more message
    | DropQueue(key: string)
    | DropClosing(key: string)

  function Waiting(queues: map<string, seq<nat>>, key: string): seq<nat> {
    if key in queues then queues[key] else []
  }

  function Queue(s: State, key: string): seq<nat> {
    Waiting(s.queues, key)
  }

  function KeyOf(ss: Session, i: nat): string {
    if i < |ss.messages| then ChannelOf(ss.messages[i]) else ""
  }

  predicate OnChannel(ss: Session, i: nat, key: string) {
    i < |ss.messages| && ChannelOf(ss.messages[i]) == key
  }

  /** What the workers of one channel hold, those of the closed one or those of the one that took its place. */
  function BusyWith(ss: Session, s: State, key: string, late: bool): set<nat> {
    set i | i in s.busy && OnChannel(ss, i, key) && (i in s.late <==> late)
  }

  function Workers(ss: Session): int {
    if ss.perKeyParallelism < 1 then 1 else ss.perKeyParallelism
  }

  function Initially(ss: Session): State {
    State(0, map[], map[], {}, {}, {}, Tracker({}, ss.initial), [], [], false, false, map[], {})
  }

  predicate Enabled(ss: Session, s: State, step: Step) {
    match step
    case Route => s.received < |ss.messages| && |Queue(s, ChannelOf(ss.messages[s.received]))| < BUFFER
    case Start(key) => Queue(s, key) != [] && |BusyWith(ss, s, key, s.cleared)| < Workers(ss)
    case ReturnNil(i) => i in s.busy && s.busy[i].Handling?
    case ReturnError(i) => i in s.busy && s.busy[i].Handling?
    case Complete(i) => i in s.busy && s.busy[i].Handled? && i < |ss.messages|
    case MarkOffset(i) => i in s.busy && s.busy[i].Marking?
    case Cancel => true
    case Clear => s.cancelled && !s.cleared
    case Drain(key) => Waiting(s.closing, key) != [] && |BusyWith(ss, s, key, false)| < Workers(ss)
    case DropQueue(_) => s.cancelled
    case DropClosing(_) => s.cancelled
  }

  /** `MarkCompleted` by a worker: the tracker moves, and the worker goes on to mark unless nothing is committable. */
  function Completed(ss: Session, s: State, i: nat): State
    requires i < |ss.messages|
  {
    var t := Mark(s.tracker, ss.messages[i].offset);
    s.(tracker := t, counted := s.counted + {i},
       busy := if t.lowest - 1 >= 0 then s.busy[i := Marking(t.lowest)] else s.busy - {i})
  }

  /** A worker takes message `i` into its handler. */
  function TakenUp(s: State, i: nat): State {
    s.(busy := s.busy[i := Handling], starts := s.starts + [i])
  }

  function Apply(ss: Session, s: State, step: Step): State
    requires Enabled(ss, s, step)
  {
    match step
    case Route =>
      var key := ChannelOf(ss.messages[s.received]);
      s.(received := s.received + 1, queues := s.queues[key := Queue(s, key) + [s.received]],
         late := if s.cleared then s.late + {s.received} else s.late)
    case Start(key) =>
      var q := Queue(s, key);
      TakenUp(s.(queues := s.queues[key := q[1..]]), q[0])
    case ReturnNil(i) => s.(busy := s.busy[i := Handled], succeeded := s.succeeded + {i})
    case ReturnError(i) => s.(busy := s.busy - {i}, failed := s.failed + {i})
    case Complete(i) => Completed(ss, s, i)
    case MarkOffset(i) => s.(busy := s.busy - {i}, marks := s.marks + [s.busy[i].position])
    case Cancel => s.(cancelled := true)
    case Clear => s.(cleared := true, closing := s.queues, queues := map[])
    case Drain(key) =>
      var q := Waiting(s.closing, key);
      TakenUp(s.(closing := s.closing[key := q[1..]]), q[0])
    case DropQueue(key) => s.(queues := s.queues - {key})
    case DropClosing(key) => s.(closing := s.closing - {key})
  }

  predicate ValidRun(ss: Session, s: State, run: seq<Step>)
    decreases |run|
  {
    run == [] || (Enabled(ss, s, run[0]) && ValidRun(ss, Apply(ss, s, run[0]), run[1..]))
  }

  function After(ss: Session, s: State, run: seq<Step>): State
    requires ValidRun(ss, s, run)
    decreases |run|
  {
    if run == [] then s else After(ss, Apply(ss, s, run[0]), run[1..])
  }

  // ---------------------------------------------------------------- commit positions

  function OffsetsOf(ss: Session, indices: set<nat>): set<int> {
    set i | i in indices && i < |ss.messages| :: ss.messages[i].offset
  }

  /** Somebody has marked `position`, or is about to. */
  ghost predicate Pending(s: State, position: int) {
    position in s.marks || exists i :: i in s.busy && s.busy[i] == Marking(position)
  }

  ghost predicate InvCommit(ss: Session, s: State) {
    && Tracks(s.tracker, OffsetsOf(ss, s.counted), ss.initial)
    && (forall i :: i in s.counted ==> i in s.succeeded)
    && (forall i :: i in s.busy ==> s.busy[i].Handled? ==> i in s.succeeded)
    && (forall i :: i in s.succeeded && i !in s.counted ==> i in s.busy && s.busy[i].Handled?)
    && (forall i :: i in s.busy && s.busy[i].Marking? ==> s.busy[i].position <= s.tracker.lowest)
    && (forall p :: p in s.marks ==> p <= s.tracker.lowest)
    && (s.counted != {} && s.tracker.lowest >= 1 ==> Pending(s, s.tracker.lowest))
  }

  lemma OffsetsGrow(ss: Session, indices: set<nat>, i: nat)
    requires i < |ss.messages|
    ensures OffsetsOf(ss, indices + {i}) == OffsetsOf(ss, indices) + {ss.messages[i].offset}
  {
  }

  lemma CompleteKeepsCommit(ss: Session, s: State, i: nat)
    requires InvCommit(ss, s) && i in s.busy && s.busy[i].Handled? && i < |ss.messages|
    ensures InvCommit(ss, Completed(ss, s, i))
  {
    var s' := Completed(ss, s, i);
    OffsetsGrow(ss, s.counted, i);
    MarkTracks(s.tracker, OffsetsOf(ss, s.counted), ss.initial, ss.messages[i].offset);
    if s'.tracker.lowest >= 1 {
      assert s'.busy[i] == Marking(s'.tracker.lowest);
    }
  }

  lemma MarkOffsetKeepsCommit(ss: Session, s: State, i: nat)
    requires InvCommit(ss, s) && i in s.busy && s.busy[i].Marking?
    ensures InvCommit(ss, Apply(ss, s, MarkOffset(i)))
  {
    var s' := Apply(ss, s, MarkOffset(i));
    if s.counted != {} && s.tracker.lowest >= 1 && s.tracker.lowest !in s.marks {
      var j :| j in s.busy && s.busy[j] == Marking(s.tracker.lowest);
      if j != i {
        assert j in s'.busy && s'.busy[j] == Marking(s'.tracker.lowest);
      } else {
        assert s'.marks[|s.marks|] == s.tracker.lowest;
      }
    }
  }

  lemma StepKeepsCommit(ss: Session, s: State, step: Step)
    requires InvCommit(ss, s) && InvIndex(ss, s) && Enabled(ss, s, step)
    ensures InvCommit(ss, Apply(ss, s, step))
  {
    if step.Complete? {
      CompleteKeepsCommit(ss, s, step.index);
    } else if step.MarkOffset? {
      MarkOffsetKeepsCommit(ss, s, step.index);
    } else if Taken(ss, s, step).Some? {
      TakingKeepsCommit(ss, s, step);
    } else {
      QuietStepKeepsCommit(ss, s, step);
    }
  }

  /** The message a step takes into a handler, if it does. */
  function Taken(ss: Session, s: State, step: Step): Option<nat>
    requires Enabled(ss, s, step)
  {
    if step.Start? then Some(Queue(s, step.key)[0])
    else if step.Drain? then Some(Waiting(s.closing, step.key)[0])
    else None
  }

  lemma TakenIsNew(ss: Session, s: State, step: Step)
    requires InvIndex(ss, s) && Enabled(ss, s, step) && Taken(ss, s, step).Some?
    ensures var i := Taken(ss, s, step).value;
            && i !in s.starts && i !in s.busy && i !in s.succeeded && i !in s.failed && i < s.received
            && OnChannel(ss, i, step.key) && (i in s.late <==> step.Start? && s.cleared)
  {
    var q := if step.Start? then Queue(s, step.key) else Waiting(s.closing, step.key);
    assert q[0] in q;
  }

  lemma TakingKeepsCommit(ss: Session, s: State, step: Step)
    requires InvCommit(ss, s) && InvIndex(ss, s) && Enabled(ss, s, step) && Taken(ss, s, step).Some?
    ensures InvCommit(ss, Apply(ss, s, step))
  {
    var s' := Apply(ss, s, step);
    TakenIsNew(ss, s, step);
    if s.counted != {} && s.tracker.lowest >= 1 && s.tracker.lowest !in s.marks {
      var j :| j in s.busy && s.busy[j] == Marking(s.tracker.lowest);
      assert j in s'.busy && s'.busy[j] == Marking(s'.tracker.lowest);
    }
  }

  /** The parts of the state that commit positions depend on. */
  predicate SameProgress(s: State, s': State) {
    && s'.busy == s.busy && s'.succeeded == s.succeeded && s'.counted == s.counted
    && s'.tracker == s.tracker && s'.marks == s.marks
  }

  lemma SameProgressKeepsCommit(ss: Session, s: State, s': State)
    requires InvCommit(ss, s) && SameProgress(s, s')
    ensures InvCommit(ss, s')
  {
    if s.counted != {} && s.tracker.lowest >= 1 {
      assert Pending(s, s.tracker.lowest);
      assert Pending(s', s.tracker.lowest);
    }
  }

  /** Whoever marks the greatest position still does. */
  lemma StillPending(s: State, s': State, position: int)
    requires Pending(s, position) && s'.marks == s.marks
    requires forall i :: i in s.busy && s.busy[i].Marking? ==> i in s'.busy && s'.busy[i] == s.busy[i]
    ensures Pending(s', position)
  {
  }

  lemma ReturnKeepsCommit(ss: Session, s: State, step: Step)
    requires InvCommit(ss, s) && InvIndex(ss, s) && Enabled(ss, s, step) && (step.ReturnNil? || step.ReturnError?)
    ensures InvCommit(ss, Apply(ss, s, step))
  {
    if s.counted != {} && s.tracker.lowest >= 1 {
      StillPending(s, Apply(ss, s, step), s.tracker.lowest);
    }
  }

  lemma QuietStepKeepsCommit(ss: Session, s: State, step: Step)
    requires InvCommit(ss, s) && InvIndex(ss, s) && Enabled(ss, s, step)
    requires !step.Complete? && !step.MarkOffset? && Taken(ss, s, step).None?
    ensures InvCommit(ss, Apply(ss, s, step))
  {
    if step.ReturnNil? || step.ReturnError? {
      ReturnKeepsCommit(ss, s, step);
    } else {
      SameProgressKeepsCommit(ss, s, Apply(ss, s, step));
    }
  }

  // ---------------------------------------------------------------- who holds which message

  /** Every message in these queues waits in its channel's, has not been started, and is late or not as all of them. */
  ghost predicate QueuesHold(ss: Session, s: State, queues: map<string, seq<nat>>, late: bool) {
    && (forall key, i {:trigger i in queues[key]} :: key in queues && i in queues[key] ==>
          i < s.received && OnChannel(ss, i, key) && i !in s.starts && (i in s.late <==> late))
    && (forall key :: key in queues ==> Increasing(queues[key]))
  }

  ghost predicate InvQueues(ss: Session, s: State) {
    && s.received <= |ss.messages|
    && QueuesHold(ss, s, s.queues, s.cleared) && QueuesHold(ss, s, s.closing, false)
    && (!s.cleared ==> s.closing == map[] && s.late == {})
    && (forall i :: i in s.late ==> i < s.received)
  }

  ghost predicate Increasing(q: seq<nat>) {
    forall a, b :: 0 <= a < b < |q| ==> q[a] < q[b]
  }

  ghost predicate InvStarted(ss: Session, s: State) {
    && (forall i :: i in s.starts ==> i < s.received)
    && (forall i :: i in s.busy || i in s.succeeded || i in s.failed ==> i in s.starts)
    && (forall i :: i in s.failed ==> i !in s.succeeded && i !in s.busy)
    && (forall i :: i in s.busy && s.busy[i].Handling? ==> i !in s.succeeded)
    && (forall i :: i in s.busy && s.busy[i].Marking? ==> i in s.counted)
    && s.counted <= s.succeeded
  }

  predicate SameWorkers(s: State, i: nat, k: nat) {
    i in s.late <==> k in s.late
  }

  /** What waits in these queues comes after everything their workers have started. */
  ghost predicate QueuesFollow(ss: Session, s: State, queues: map<string, seq<nat>>) {
    forall key, i, k {:trigger i in queues[key], k in s.starts} ::
      key in queues && i in queues[key] && k in s.starts && OnChannel(ss, k, key) && SameWorkers(s, i, k) ==> k < i
  }

  /** Messages of one channel start in the order of the claim, before those still waiting. */
  ghost predicate InvOrder(ss: Session, s: State) {
    && (forall a, b :: 0 <= a < b < |s.starts| ==>
          OnChannel(ss, s.starts[b], KeyOf(ss, s.starts[a])) && SameWorkers(s, s.starts[a], s.starts[b]) ==>
            s.starts[a] < s.starts[b])
    && QueuesFollow(ss, s, s.queues) && QueuesFollow(ss, s, s.closing)
  }

  ghost predicate InvIndex(ss: Session, s: State) {
    InvQueues(ss, s) && InvStarted(ss, s) && InvOrder(ss, s)
  }

  lemma QueueTail(q: seq<nat>)
    requires Increasing(q) && q != []
    ensures Increasing(q[1..]) && q[0] in q
    ensures forall i :: i in q[1..] ==> i in q && q[0] < i
  {
    forall i | i in q[1..] ensures i in q && q[0] < i {
      var b :| 0 <= b < |q[1..]| && q[1..][b] == i;
      assert q[b + 1] == i;
    }
  }

  lemma QueueAppend(q: seq<nat>, n: nat)
    requires Increasing(q) && forall i :: i in q ==> i < n
    ensures Increasing(q + [n])
    ensures forall i :: i in q + [n] <==> i in q || i == n
  {
    forall a | 0 <= a < |q| ensures q[a] < n {
      assert q[a] in q;
    }
  }

  lemma TakingKeepsQueues(ss: Session, s: State, step: Step)
    requires InvIndex(ss, s) && Enabled(ss, s, step) && Taken(ss, s, step).Some?
    ensures InvQueues(ss, Apply(ss, s, step))
  {
    var q := if step.Start? then Queue(s, step.key) else Waiting(s.closing, step.key);
    TakenIsNew(ss, s, step);
    QueueTail(q);
    OtherQueues(ss, s, step);
  }

  /** The message taken waits nowhere else. */
  lemma OtherQueues(ss: Session, s: State, step: Step)
    requires InvIndex(ss, s) && Enabled(ss, s, step) && Taken(ss, s, step).Some?
    ensures var i := Taken(ss, s, step).value;
            && (forall key :: key in s.queues && !(step.Start? && key == step.key) ==> i !in s.queues[key])
            && (forall key :: key in s.closing && !(step.Drain? && key == step.key) ==> i !in s.closing[key])
  {
    TakenIsNew(ss, s, step);
  }

  lemma TakingKeepsOrder(ss: Session, s: State, step: Step)
    requires InvIndex(ss, s) && Enabled(ss, s, step) && Taken(ss, s, step).Some?
    ensures InvOrder(ss, Apply(ss, s, step))
  {
    var q := if step.Start? then Queue(s, step.key) else Waiting(s.closing, step.key);
    var head := q[0];
    TakenIsNew(ss, s, step);
    QueueTail(q);
    forall a | 0 <= a < |s.starts| && OnChannel(ss, head, KeyOf(ss, s.starts[a])) && SameWorkers(s, s.starts[a], head)
      ensures s.starts[a] < head
    {
      assert s.starts[a] in s.starts;
      assert OnChannel(ss, s.starts[a], step.key);
      assert head in q;
    }
    OtherFollow(ss, s, step);
  }

  /** Other queues of the same channel have other workers. */
  lemma OtherFollow(ss: Session, s: State, step: Step)
    requires InvIndex(ss, s) && Enabled(ss, s, step) && Taken(ss, s, step).Some?
    ensures QueuesFollow(ss, Apply(ss, s, step), Apply(ss, s, step).queues)
    ensures QueuesFollow(ss, Apply(ss, s, step), Apply(ss, s, step).closing)
  {
    var s' := Apply(ss, s, step);
    var q := if step.Start? then Queue(s, step.key) else Waiting(s.closing, step.key);
    TakenIsNew(ss, s, step);
    QueueTail(q);
    assert forall k :: k in s'.starts <==> k in s.starts || k == q[0];
  }

  lemma TakingKeepsStarted(ss: Session, s: State, step: Step)
    requires InvIndex(ss, s) && Enabled(ss, s, step) && Taken(ss, s, step).Some?
    ensures InvStarted(ss, Apply(ss, s, step))
  {
    TakenIsNew(ss, s, step);
    var s' := Apply(ss, s, step);
    assert forall i :: i in s'.starts <==> i in s.starts || i == Taken(ss, s, step).value;
  }

  lemma RouteKeepsQueues(ss: Session, s: State)
    requires InvIndex(ss, s) && Enabled(ss, s, Route)
    ensures InvQueues(ss, Apply(ss, s, Route))
  {
    var key := ChannelOf(ss.messages[s.received]);
    QueueAppend(Queue(s, key), s.received);
    assert OnChannel(ss, s.received, key);
  }

  lemma RouteKeepsOrder(ss: Session, s: State)
    requires InvIndex(ss, s) && Enabled(ss, s, Route)
    ensures InvOrder(ss, Apply(ss, s, Route))
  {
    var s', key := Apply(ss, s, Route), ChannelOf(ss.messages[s.received]);
    QueueAppend(Queue(s, key), s.received);
    assert s'.starts == s.starts;
    assert forall k :: k in s.starts ==> (k in s'.late <==> k in s.late);
    assert forall c :: c in s.closing ==> forall i :: i in s.closing[c] ==> (i in s'.late <==> i in s.late);
  }

  lemma RouteKeepsIndex(ss: Session, s: State)
    requires InvIndex(ss, s) && Enabled(ss, s, Route)
    ensures InvIndex(ss, Apply(ss, s, Route))
  {
    RouteKeepsQueues(ss, s);
    RouteKeepsOrder(ss, s);
  }

  lemma WorkerStepKeepsIndex(ss: Session, s: State, step: Step)
    requires InvIndex(ss, s) && Enabled(ss, s, step)
    requires step.ReturnNil? || step.ReturnError? || step.Complete? || step.MarkOffset?
    requires step.Complete? ==> step.index in s.succeeded
    ensures InvIndex(ss, Apply(ss, s, step))
  {
    WorkerStepKeepsStarted(ss, s, step);
    assert SameRouting(s, Apply(ss, s, step));
    SameRoutingKeeps(ss, s, Apply(ss, s, step));
  }

  lemma WorkerStepKeepsStarted(ss: Session, s: State, step: Step)
    requires InvIndex(ss, s) && Enabled(ss, s, step)
    requires step.ReturnNil? || step.ReturnError? || step.Complete? || step.MarkOffset?
    requires step.Complete? ==> step.index in s.succeeded
    ensures InvStarted(ss, Apply(ss, s, step))
  {
  }

  /** Nothing is routed, taken or dropped. */
  predicate SameRouting(s: State, s': State) {
    && s'.starts == s.starts && s'.queues == s.queues && s'.received == s.received
    && s'.closing == s.closing && s'.late == s.late && s'.cleared == s.cleared
  }

  lemma SameRoutingKeeps(ss: Session, s: State, s': State)
    requires InvQueues(ss, s) && InvOrder(ss, s) && SameRouting(s, s')
    ensures InvQueues(ss, s') && InvOrder(ss, s')
  {
    assert QueuesHold(ss, s', s'.queues, s'.cleared) && QueuesHold(ss, s', s'.closing, false);
    assert QueuesFollow(ss, s', s'.queues) && QueuesFollow(ss, s', s'.closing);
  }

  lemma ShutdownKeepsIndex(ss: Session, s: State, step: Step)
    requires InvIndex(ss, s) && Enabled(ss, s, step)
    requires step.Cancel? || step.Clear? || step.DropQueue? || step.DropClosing?
    ensures InvIndex(ss, Apply(ss, s, step))
  {
    var s' := Apply(ss, s, step);
    assert s'.starts == s.starts && s'.late == s.late && s'.received == s.received;
    assert InvQueues(ss, s');
    assert InvOrder(ss, s');
  }

  lemma StepKeepsIndex(ss: Session, s: State, step: Step)
    requires InvIndex(ss, s) && InvCommit(ss, s) && Enabled(ss, s, step)
    ensures InvIndex(ss, Apply(ss, s, step))
  {
    if Taken(ss, s, step).Some? {
      TakingKeepsQueues(ss, s, step);
      TakingKeepsStarted(ss, s, step);
      TakingKeepsOrder(ss, s, step);
    } else if step.Route? {
      RouteKeepsIndex(ss, s);
    } else if step.Cancel? || step.Clear? || step.DropQueue? || step.DropClosing? {
      ShutdownKeepsIndex(ss, s, step);
    } else {
      WorkerStepKeepsIndex(ss, s, step);
    }
  }

  /** No more workers hold messages of one channel than the session runs for it. */
  ghost predicate InvWorkers(ss: Session, s: State) {
    forall key, late :: |BusyWith(ss, s, key, late)| <= Workers(ss)
  }

  lemma FewerBusy(a: set<nat>, b: set<nat>)
    requires a <= b
    ensures |a| <= |b|
    decreases b
  {
    if a != b {
      var x :| x in b && x !in a;
      FewerBusy(a, b - {x});
    }
  }

  lemma TakingBusy(ss: Session, s: State, step: Step)
    requires Enabled(ss, s, step) && Taken(ss, s, step).Some?
    ensures Apply(ss, s, step).busy.Keys == s.busy.Keys + {Taken(ss, s, step).value}
    ensures Apply(ss, s, step).late == s.late
  {
  }

  lemma BusyGrows(ss: Session, s: State, s': State, i: nat, key: string, late: bool)
    requires s'.busy.Keys == s.busy.Keys + {i} && s'.late == s.late
    ensures |BusyWith(ss, s', key, late)| <= |BusyWith(ss, s, key, late)| + 1
  {
    var now, before := BusyWith(ss, s', key, late), BusyWith(ss, s, key, late);
    assert forall x :: x in now ==> x in before + {i};
    FewerBusy(now, before + {i});
  }

  lemma BusyElsewhere(ss: Session, s: State, s': State, i: nat, key: string, late: bool)
    requires s'.busy.Keys == s.busy.Keys + {i} && s'.late == s.late
    requires !(OnChannel(ss, i, key) && (i in s.late <==> late))
    ensures |BusyWith(ss, s', key, late)| <= |BusyWith(ss, s, key, late)|
  {
    FewerBusy(BusyWith(ss, s', key, late), BusyWith(ss, s, key, late));
  }

  lemma TakingKeepsWorkers(ss: Session, s: State, step: Step, key: string, late: bool)
    requires InvWorkers(ss, s) && InvIndex(ss, s) && Enabled(ss, s, step) && Taken(ss, s, step).Some?
    ensures |BusyWith(ss, Apply(ss, s, step), key, late)| <= Workers(ss)
  {
    TakenIsNew(ss, s, step);
    TakingBusy(ss, s, step);
    var i := Taken(ss, s, step).value;
    if OnChannel(ss, i, key) && (i in s.late <==> late) {
      BusyGrows(ss, s, Apply(ss, s, step), i, key, late);
    } else {
      BusyElsewhere(ss, s, Apply(ss, s, step), i, key, late);
    }
  }

  lemma OthersKeepWorkers(ss: Session, s: State, step: Step, key: string, late: bool)
    requires InvWorkers(ss, s) && InvIndex(ss, s) && Enabled(ss, s, step) && Taken(ss, s, step).None?
    ensures |BusyWith(ss, Apply(ss, s, step), key, late)| <= Workers(ss)
  {
    var s' := Apply(ss, s, step);
    BusyIsReceived(ss, s);
    assert forall i :: i in s'.busy ==> i in s.busy && (i in s'.late <==> i in s.late);
    FewerBusy(BusyWith(ss, s', key, late), BusyWith(ss, s, key, late));
  }

  lemma StepKeepsWorkers(ss: Session, s: State, step: Step)
    requires InvWorkers(ss, s) && InvIndex(ss, s) && Enabled(ss, s, step)
    ensures InvWorkers(ss, Apply(ss, s, step))
  {
    forall key, late ensures |BusyWith(ss, Apply(ss, s, step), key, late)| <= Workers(ss) {
      if Taken(ss, s, step).Some? {
        TakingKeepsWorkers(ss, s, step, key, late);
      } else {
        OthersKeepWorkers(ss, s, step, key, late);
      }
    }
  }

  lemma BusyIsReceived(ss: Session, s: State)
    requires InvIndex(ss, s)
    ensures forall i :: i in s.busy ==> i < s.received
  {
  }

  // ---------------------------------------------------------------- main results

  ghost predicate Inv(ss: Session, s: State) {
    InvCommit(ss, s) && InvIndex(ss, s) && InvWorkers(ss, s)
  }

  lemma {:induction false} RunKeepsInv(ss: Session, s: State, run: seq<Step>)
    requires Inv(ss, s) && ValidRun(ss, s, run)
    ensures Inv(ss, After(ss, s, run))
    decreases |run|
  {
    if run != [] {
      StepKeepsCommit(ss, s, run[0]);
      StepKeepsIndex(ss, s, run[0]);
      StepKeepsWorkers(ss, s, run[0]);
      RunKeepsInv(ss, Apply(ss, s, run[0]), run[1..]);
    }
  }

  lemma InitiallyInv(ss: Session)
    ensures Inv(ss, Initially(ss))
  {
    assert forall key, late :: BusyWith(ss, Initially(ss), key, late) == {};
  }

  /** Main result: in every interleaving, whatever fails or is cancelled, everything from the initial offset up to any
      position ever marked has been handled successfully. */
  lemma CommitSafety(ss: Session, run: seq<Step>, position: int, offset: int)
    requires ValidRun(ss, Initially(ss), run)
    requires position in After(ss, Initially(ss), run).marks && ss.initial <= offset < position
    ensures var s := After(ss, Initially(ss), run);
            exists i :: i in s.succeeded && i < |ss.messages| && ss.messages[i].offset == offset
  {
    InitiallyInv(ss);
    RunKeepsInv(ss, Initially(ss), run);
    var s := After(ss, Initially(ss), run);
    assert offset in OffsetsOf(ss, s.counted);
    var i :| i in s.counted && i < |ss.messages| && ss.messages[i].offset == offset;
    assert i in s.succeeded;
  }

  /** Main result: a position past a message whose handler failed is never marked in the session. */
  lemma FailedNeverPassed(ss: Session, run: seq<Step>, failed: nat, position: int)
    requires ValidRun(ss, Initially(ss), run)
    requires forall i, j :: 0 <= i < j < |ss.messages| ==> ss.messages[i].offset < ss.messages[j].offset
    requires failed in After(ss, Initially(ss), run).failed && position in After(ss, Initially(ss), run).marks
    ensures failed < |ss.messages|
    ensures ss.initial <= ss.messages[failed].offset ==> position <= ss.messages[failed].offset
  {
    InitiallyInv(ss);
    RunKeepsInv(ss, Initially(ss), run);
    var s := After(ss, Initially(ss), run);
    assert failed in s.starts;
    forall i | i in s.succeeded && i < |ss.messages| ensures ss.messages[i].offset != ss.messages[failed].offset {
      assert i != failed;
    }
    if ss.initial <= ss.messages[failed].offset < position {
      CommitSafety(ss, run, position, ss.messages[failed].offset);
    }
  }

  /** Main result: once no worker is busy, the greatest position marked is exactly the least offset not handled
      successfully, provided there is anything to commit. No assumption on the offsets is needed. */
  lemma CommitExact(ss: Session, run: seq<Step>, n: int)
    requires ValidRun(ss, Initially(ss), run)
    requires After(ss, Initially(ss), run).busy == map[] && After(ss, Initially(ss), run).succeeded != {}
    requires 1 <= n && LeastMissing(OffsetsOf(ss, After(ss, Initially(ss), run).succeeded), ss.initial, n)
    ensures var s := After(ss, Initially(ss), run); n in s.marks && forall p :: p in s.marks ==> p <= n
  {
    InitiallyInv(ss);
    RunKeepsInv(ss, Initially(ss), run);
    var s := After(ss, Initially(ss), run);
    assert s.counted == s.succeeded;
    assert s.tracker.lowest == n;
  }

  /** Main result: with contiguous offsets from the initial one, a quiet session has marked the end of a non-empty
      prefix, or a later position, exactly when every message of the prefix succeeded. */
  lemma PrefixCommittedIff(ss: Session, run: seq<Step>, n: nat)
    requires ValidRun(ss, Initially(ss), run) && 0 <= ss.initial && 0 < n <= |ss.messages|
    requires forall i :: 0 <= i < |ss.messages| ==> ss.messages[i].offset == ss.initial + i
    requires After(ss, Initially(ss), run).busy == map[]
    ensures var s := After(ss, Initially(ss), run);
            (exists p :: p in s.marks && ss.initial + n <= p) <==> (forall i :: 0 <= i < n ==> i in s.succeeded)
  {
    InitiallyInv(ss);
    RunKeepsInv(ss, Initially(ss), run);
    var s := After(ss, Initially(ss), run);
    assert s.counted == s.succeeded;
    if p :| p in s.marks && ss.initial + n <= p {
      MarkedPrefix(ss, s, n);
    }
    if forall i :: 0 <= i < n ==> i in s.succeeded {
      FinishedPrefix(ss, s, n);
    }
  }

  lemma MarkedPrefix(ss: Session, s: State, n: nat)
    requires InvCommit(ss, s) && n <= |ss.messages| && ss.initial + n <= s.tracker.lowest
    requires forall i :: 0 <= i < |ss.messages| ==> ss.messages[i].offset == ss.initial + i
    ensures forall i :: 0 <= i < n ==> i in s.succeeded
  {
    forall i | 0 <= i < n ensures i in s.succeeded {
      assert ss.initial + i in OffsetsOf(ss, s.counted);
    }
  }

  lemma FinishedPrefix(ss: Session, s: State, n: nat)
    requires InvCommit(ss, s) && s.busy == map[] && s.counted == s.succeeded && 0 <= ss.initial &&
        0 < n <= |ss.messages|
    requires forall i :: 0 <= i < |ss.messages| ==> ss.messages[i].offset == ss.initial + i
    requires forall i :: 0 <= i < n ==> i in s.succeeded
    ensures exists p :: p in s.marks && ss.initial + n <= p
  {
    forall o | ss.initial <= o < ss.initial + n ensures o in OffsetsOf(ss, s.counted) {
      assert ss.messages[o - ss.initial].offset == o;
    }
    assert ss.initial + n <= s.tracker.lowest;
    assert 0 in s.counted;
  }

  predicate SameKey(ss: Session, i: nat, j: nat) {
    i < |ss.messages| && j < |ss.messages| && ss.messages[i].key == ss.messages[j].key
  }

  /** Main result: messages with the same key start in claim order, and with at most one worker per key never overlap.
      Until the channel table is cleared this holds of all of them; afterwards of those routed before, and of those
      routed since. */
  lemma PerKeyFifo(ss: Session, run: seq<Step>)
    requires ValidRun(ss, Initially(ss), run)
    ensures var s := After(ss, Initially(ss), run);
            && (forall a, b :: 0 <= a < b < |s.starts| ==>
                  SameKey(ss, s.starts[a], s.starts[b]) && SameWorkers(s, s.starts[a], s.starts[b]) ==>
                  s.starts[a] < s.starts[b])
            && (ss.perKeyParallelism <= 1 ==>
                  forall i, j :: i in s.busy && j in s.busy && SameKey(ss, i, j) && SameWorkers(s, i, j) ==> i == j)
            && (!s.cleared ==> forall i, j :: SameWorkers(s, i, j))
  {
    InitiallyInv(ss);
    RunKeepsInv(ss, Initially(ss), run);
    StartsInOrder(ss, After(ss, Initially(ss), run));
    NoOverlap(ss, After(ss, Initially(ss), run));
  }

  lemma StartsInOrder(ss: Session, s: State)
    requires Inv(ss, s)
    ensures forall a, b :: 0 <= a < b < |s.starts| ==>
              SameKey(ss, s.starts[a], s.starts[b]) && SameWorkers(s, s.starts[a], s.starts[b]) ==>
              s.starts[a] < s.starts[b]
  {
    forall a, b | 0 <= a < b < |s.starts| && SameKey(ss, s.starts[a], s.starts[b])
      ensures OnChannel(ss, s.starts[b], KeyOf(ss, s.starts[a]))
    {
    }
  }

  lemma NoOverlap(ss: Session, s: State)
    requires Inv(ss, s)
    ensures ss.perKeyParallelism <= 1 ==>
              forall i, j :: i in s.busy && j in s.busy && SameKey(ss, i, j) && SameWorkers(s, i, j) ==> i == j
  {
    if ss.perKeyParallelism <= 1 {
      forall i, j | i in s.busy && j in s.busy && SameKey(ss, i, j) && SameWorkers(s, i, j) ensures i == j {
        FewerBusy({i, j}, BusyWith(ss, s, KeyOf(ss, i), i in s.late));
      }
    }
  }

  lemma OneStep(ss: Session, s: State, step: Step, next: State, rest: seq<Step>)
    requires Enabled(ss, s, step) && Apply(ss, s, step) == next && ValidRun(ss, next, rest)
    ensures ValidRun(ss, s, [step] + rest) && After(ss, s, [step] + rest) == After(ss, next, rest)
  {
    assert ([step] + rest)[1..] == rest;
  }

  function OverlapRun(key: string): seq<Step> {
    [Route] + ([Start(key)] + ([Cancel] + ([Clear] + LateRun(key))))
  }

  function LateRun(key: string): seq<Step> {
    [Route] + ([Start(key)] + [])
  }

  lemma LateRunFrom(ss: Session, s: State, key: string)
    requires |ss.messages| == 2 && OnChannel(ss, 1, key)
    requires s.received == 1 && s.queues == map[] && s.cleared && s.late == {} && s.busy.Keys == {0}
    ensures ValidRun(ss, s, LateRun(key))
    ensures 0 in After(ss, s, LateRun(key)).busy && 1 in After(ss, s, LateRun(key)).busy
  {
    var s5 := Apply(ss, s, Route);
    assert Queue(s5, key) == [1] && s5.late == {1} && 0 in s5.busy;
    assert BusyWith(ss, s5, key, true) == {};
    var s6 := Apply(ss, s5, Start(key));
    OneStep(ss, s5, Start(key), s6, []);
    OneStep(ss, s, Route, s5, [Start(key)] + []);
  }

  /** A message routed at the moment of cancellation, after the table was cleared, runs beside its predecessor. */
  lemma LateMessageOverlaps(ss: Session, key: string)
    requires |ss.messages| == 2 && OnChannel(ss, 0, key) && OnChannel(ss, 1, key)
    ensures ValidRun(ss, Initially(ss), OverlapRun(key))
    ensures var s := After(ss, Initially(ss), OverlapRun(key)); 0 in s.busy && 1 in s.busy
  {
    var s0 := Initially(ss);
    var s1 := Apply(ss, s0, Route);
    assert Queue(s1, key) == [0] && BusyWith(ss, s1, key, false) == {};
    var s2 := Apply(ss, s1, Start(key));
    var s3 := Apply(ss, s2, Cancel);
    var s4 := Apply(ss, s3, Clear);
    assert s4.busy.Keys == {0};
    LateRunFrom(ss, s4, key);
    OneStep(ss, s3, Clear, s4, LateRun(key));
    OneStep(ss, s2, Cancel, s3, [Clear] + LateRun(key));
    OneStep(ss, s1, Start(key), s2, [Cancel] + ([Clear] + LateRun(key)));
    OneStep(ss, s0, Route, s1, [Start(key)] + ([Cancel] + ([Clear] + LateRun(key))));
  }

  // ---------------------------------------------------------------- one worker's call

  /** The consumer group session: marking keeps the greatest position. */
  class Committer {
    var position: int

    constructor (position: int)
      ensures this.position == position
    {
      this.position := position;
    }

    method MarkOffset(offset: int)
      modifies this
      ensures position == if offset > old(position) then offset else old(position)
    {
      if offset > position {
        position := offset;
      }
    }
  }

  /** `processMessage`: a failed handler touches nothing; a nil return is counted and the safe position marked. */
  method ProcessMessage(tracker: OffsetTracker, session: Committer, m: Msg, handlerOk: bool) returns (ok: bool)
    modifies tracker`completed, tracker`lowestPending, session
    ensures ok == handlerOk
    ensures !ok ==> tracker.State() == old(tracker.State()) && session.position == old(session.position)
    ensures ok ==> tracker.State() == Mark(old(tracker.State()), m.offset)
    ensures ok ==> session.position == if tracker.lowestPending >= 1 && tracker.lowestPending > old(session.position)
                                       then tracker.lowestPending else old(session.position)
  {
    if !handlerOk {
      return false;
    }
    var markTo, committable, _ := tracker.MarkCompleted(m.offset);
    if committable {
      session.MarkOffset(markTo + 1);
    }
    ok := true;
  }
}
