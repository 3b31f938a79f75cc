/** Runs in which the marker check of a handler call may fail, markers may expire, and Redis may be flushed and restored
    from the state topic: how often one attempt can then be delivered. */
module UncheckedRuns {
  import opened Domain
  import opened Lifecycle
  import opened LifecycleInvariant
  import opened Rebuild
  import opened Workers

  /** Besides the steps of the protocol: a handler call that goes on without its marker, the expiry of a marker, a flush
      of the retry store, and the restore of one record of the state topic. */
  datatype Move =
    | Ordinary(step: Step)
    | Unchecked(position: nat, branch: Branch)
    | Expire(marker: Ref)
    | Flush
    | Restore(record: StateRecord)

  predicate Possible(w: World, m: Move) {
    match m
    case Ordinary(s) => Enabled(w, s)
    case Unchecked(position, _) => position < |w.topic|
    case Expire(_) => true
    case Flush => true
    case Restore(rec) => rec in w.stateLog
  }

  function Next(w: World, m: Move): World
    requires Possible(w, m)
  {
    match m
    case Ordinary(s) => Apply(w, s)
    case Unchecked(position, b) => HandlerStep(w, position, b, false)
    case Expire(r) => w.(store := w.store.(markers := w.store.markers - {r}))
    case Flush => w.(store := FLUSHED)
    case Restore(rec) => w.(store := Restored(w.store, rec))
  }

  predicate PossibleRun(w: World, run: seq<Move>)
    decreases |run|
  {
    run == [] || (Possible(w, run[0]) && PossibleRun(Next(w, run[0]), run[1..]))
  }

  function Ending(w: World, run: seq<Move>): World
    requires PossibleRun(w, run)
    decreases |run|
  {
    if run == [] then w else Ending(Next(w, run[0]), run[1..])
  }

  // ---------------------------------------------------------------- what a handler call does, marked or not

  /** The call goes past its marker check: the marker is new, or could not be checked. */
  predicate Proceeds(w: World, m: Move) {
    match m
    case Ordinary(s) => s.Handle? && s.position < |w.topic| && RefOf(w.topic[s.position].webhook) !in w.store.markers
    case Unchecked(position, _) => position < |w.topic|
    case Expire(_) => false
    case Flush => false
    case Restore(_) => false
  }

  function Taken(w: World, m: Move): Webhook
    requires Proceeds(w, m)
  {
    w.topic[if m.Unchecked? then m.position else m.step.position].webhook
  }

  function BranchTaken(w: World, m: Move): Branch
    requires Proceeds(w, m)
  {
    if m.Unchecked? then m.branch else m.step.branch
  }

  /** The state the call goes on from. */
  function Past(w: World, m: Move): World
    requires Proceeds(w, m)
  {
    if m.Unchecked? then w else w.(store := w.store.(markers := w.store.markers + {RefOf(Taken(w, m))}))
  }

  function PositionOf(m: Move): nat
    requires m.Unchecked? || (m.Ordinary? && m.step.Handle?)
  {
    if m.Unchecked? then m.position else m.step.position
  }

  lemma NextIsFresh(w: World, m: Move)
    requires Possible(w, m) && Proceeds(w, m)
    ensures Next(w, m) == Fresh(Past(w, m), PositionOf(m), Taken(w, m), BranchTaken(w, m))
  {
  }

  lemma FreshTrace(w: World, position: nat, h: Webhook, b: Branch)
    ensures var w' := Fresh(w, position, h, b);
            && w'.store.markers == w.store.markers
            && w'.deliveries == (if b.Attempted? then w.deliveries + [RefOf(h)] else w.deliveries)
            && w'.outcomes == (if PhaseAfter(h, b).Done? then w.outcomes + [Outcome(h.id, PhaseAfter(h, b).kind)]
                else w.outcomes)
  {
  }

  lemma ProceedingShape(w: World, m: Move)
    requires Possible(w, m) && Proceeds(w, m)
    ensures var h, b, w' := Taken(w, m), BranchTaken(w, m), Next(w, m);
            && w'.store.markers == (if m.Unchecked? then w.store.markers else w.store.markers + {RefOf(h)})
            && w'.deliveries == (if b.Attempted? then w.deliveries + [RefOf(h)] else w.deliveries)
            && w'.outcomes == (if PhaseAfter(h, b).Done? then w.outcomes + [Outcome(h.id, PhaseAfter(h, b).kind)]
                else w.outcomes)
  {
    NextIsFresh(w, m);
    FreshTrace(Past(w, m), PositionOf(m), Taken(w, m), BranchTaken(w, m));
  }

  lemma OtherwiseShape(w: World, m: Move)
    requires Possible(w, m) && !Proceeds(w, m)
    ensures var w' := Next(w, m);
            && w'.deliveries == w.deliveries && w'.outcomes == w.outcomes
            && w'.store.markers ==
                (if m.Flush? then {} else if m.Expire? then w.store.markers - {m.marker} else w.store.markers)
  {
  }

  // ---------------------------------------------------------------- deliveries of one attempt

  function DeliveriesOf(deliveries: seq<Ref>, r: Ref): nat {
    if deliveries == [] then 0
    else DeliveriesOf(deliveries[..|deliveries| - 1], r) + (if deliveries[|deliveries| - 1] == r then 1 else 0)
  }

  predicate UncheckedOn(w: World, m: Move, r: Ref) {
    m.Unchecked? && m.position < |w.topic| && RefOf(w.topic[m.position].webhook) == r
  }

  /** The handler calls on `r` in the run whose marker check failed. */
  function UncheckedCalls(w: World, run: seq<Move>, r: Ref): nat
    requires PossibleRun(w, run)
    decreases |run|
  {
    if run == [] then 0
    else (if UncheckedOn(w, run[0], r) then 1 else 0) + UncheckedCalls(Next(w, run[0]), run[1..], r)
  }

  function Flushes(run: seq<Move>): nat
    decreases |run|
  {
    if run == [] then 0 else (if run[0].Flush? then 1 else 0) + Flushes(run[1..])
  }

  /** The move lets the marker of `r` be forgotten. */
  predicate Forgets(m: Move, r: Ref) {
    m.Flush? || (m.Expire? && m.marker == r)
  }

  function Forgettings(run: seq<Move>, r: Ref): nat
    decreases |run|
  {
    if run == [] then 0 else One(Forgets(run[0], r)) + Forgettings(run[1..], r)
  }

  function One(b: bool): nat {
    if b then 1 else 0
  }

  lemma DeliveriesAppend(deliveries: seq<Ref>, x: Ref, r: Ref)
    ensures DeliveriesOf(deliveries + [x], r) == DeliveriesOf(deliveries, r) + One(x == r)
  {
    assert (deliveries + [x])[..|deliveries|] == deliveries;
  }

  lemma MoveDelivers(w: World, m: Move, r: Ref)
    requires Possible(w, m)
    ensures DeliveriesOf(Next(w, m).deliveries, r) + One(r in w.store.markers)
            <= DeliveriesOf(w.deliveries, r) + One(r in Next(w, m).store.markers) + One(UncheckedOn(w, m, r)) +
                One(Forgets(m, r))
  {
    if Proceeds(w, m) {
      ProceedingShape(w, m);
      DeliveriesAppend(w.deliveries, RefOf(Taken(w, m)), r);
    } else {
      OtherwiseShape(w, m);
    }
  }

  lemma {:induction false} RunDelivers(w: World, run: seq<Move>, r: Ref, spent: nat)
    requires PossibleRun(w, run) && DeliveriesOf(w.deliveries, r) <= One(r in w.store.markers) + spent
    ensures DeliveriesOf(Ending(w, run).deliveries, r)
            <= One(r in Ending(w, run).store.markers) + spent + UncheckedCalls(w, run, r) + Forgettings(run, r)
    decreases |run|
  {
    if run != [] {
      MoveDelivers(w, run[0], r);
      RunDelivers(Next(w, run[0]), run[1..], r, spent + One(UncheckedOn(w, run[0], r)) + One(Forgets(run[0], r)));
    }
  }

  /** Main result: over every run, one attempt is delivered at most once, and once more for each of its handler calls
      whose marker check failed and each time its marker was forgotten, by expiry or a flush. */
  lemma DeliveriesPerAttempt(run: seq<Move>, r: Ref)
    requires PossibleRun(INITIAL, run)
    ensures DeliveriesOf(Ending(INITIAL, run).deliveries, r) <= 1 + UncheckedCalls(INITIAL, run, r) +
        Forgettings(run, r)
  {
    RunDelivers(INITIAL, run, r, 0);
  }

  lemma NextMove(w: World, m: Move, rest: seq<Move>)
    requires Possible(w, m) && PossibleRun(Next(w, m), rest)
    ensures PossibleRun(w, [m] + rest) && Ending(w, [m] + rest) == Ending(Next(w, m), rest)
  {
    assert ([m] + rest)[1..] == rest;
  }

  /** One failed marker check is enough: a redelivered message is delivered a second time, whatever the first call came
      to. */
  lemma FailedCheckDeliversTwice(webhook: Webhook, first: Branch, second: Branch)
    requires webhook.attempt == 0 && first.Attempted? && second.Attempted?
    ensures var run := [Ordinary(Enqueue(webhook))] + ([Unchecked(0, first)] + [Ordinary(Handle(0, second))]);
            PossibleRun(INITIAL, run) && Ending(INITIAL, run).deliveries == [RefOf(webhook), RefOf(webhook)]
  {
    var w1 := Next(INITIAL, Ordinary(Enqueue(webhook)));
    var m1, m2 := Unchecked(0, first), Ordinary(Handle(0, second));
    ProceedingShape(w1, m1);
    var w2 := Next(w1, m1);
    UncheckedTopic(w1, m1);
    ProceedingShape(w2, m2);
    assert [m2] + [] == [m2];
    NextMove(w2, m2, []);
    NextMove(w1, m1, [m2]);
    NextMove(INITIAL, Ordinary(Enqueue(webhook)), [m1] + [m2]);
    assert [] + [RefOf(webhook)] + [RefOf(webhook)] == [RefOf(webhook), RefOf(webhook)];
  }

  lemma UncheckedTopic(w: World, m: Move)
    requires Possible(w, m) && m.Unchecked? && m.branch.Attempted?
    ensures Next(w, m).topic == w.topic
  {
  }
}
