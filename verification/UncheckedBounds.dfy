/** The total number of deliveries and of terminal outcomes of one webhook, over runs with failed marker checks,
    expiring markers and flushes. */
module UncheckedBounds {
  import opened Domain
  import opened Lifecycle
  import opened LifecycleInvariant
  import opened DeliveryBounds
  import opened Rebuild
  import opened UncheckedRuns

  // ---------------------------------------------------------------- how far the attempts of a webhook reach

  function Budget(webhook: Webhook): nat {
    if webhook.maxAttempts < 0 then 0 else webhook.maxAttempts
  }

  predicate RefFits(id: WebhookId, top: int, r: Ref) {
    r.id == id ==> 0 <= r.attempt <= top
  }

  predicate WebhookFits(book: Book, id: WebhookId, top: int, m: Webhook) {
    m.id == id ==> id in book && 0 <= m.attempt <= top && m.maxAttempts == book[id].origin.maxAttempts
  }

  ghost predicate StoreFits(s: Store, book: Book, id: WebhookId, top: int) {
    && (forall r :: r in s.markers ==> RefFits(id, top, r))
    && (forall r :: r in s.retries ==> RefFits(id, top, r))
    && (forall x :: x in s.data ==> s.data[x].id == x)
    && (id in s.data ==> id in book && s.data[id].maxAttempts == book[id].origin.maxAttempts)
  }

  ghost predicate TopicFits(topic: seq<Message>, book: Book, id: WebhookId, top: int) {
    forall i :: 0 <= i < |topic| ==> WebhookFits(book, id, top, topic[i].webhook)
  }

  ghost predicate LogFits(log: seq<StateRecord>, book: Book, id: WebhookId, top: int) {
    forall i :: 0 <= i < |log| && log[i].Snap? ==> WebhookFits(book, id, top, WebhookOf(log[i].snapshot, 0))
  }

  ghost predicate HandsFit(h: Hands, book: Book, id: WebhookId, top: int) {
    (forall r :: r in h.leased ==> RefFits(id, top, r)) &&
        (forall m :: m in h.fetched ==> WebhookFits(book, id, top, m))
  }

  predicate TopFits(book: Book, id: WebhookId, top: int) {
    if id in book then 0 <= top <= Budget(book[id].origin) else top == -1
  }

  /** No attempt of `id` beyond `top` exists anywhere. */
  ghost predicate Fits(w: World, id: WebhookId, top: int) {
    && StoreFits(w.store, w.book, id, top) && TopicFits(w.topic, w.book, id, top) &&
        LogFits(w.stateLog, w.book, id, top)
    && HandsFit(w.hands, w.book, id, top) && TopFits(w.book, id, top)
  }

  /** How far the attempts of `id` reach after the move. */
  function NextTop(w: World, m: Move, id: WebhookId, top: int): int {
    if m.Ordinary? && m.step.Enqueue? && m.step.webhook.id == id then 0
    else if Proceeds(w, m) && Taken(w, m).id == id && PhaseAfter(Taken(w, m), BranchTaken(w, m)).Active? &&
        top == Taken(w, m).attempt
    then top + 1
    else top
  }

  /** `book'` knows every webhook `book` knows, with the same origin, and at most `x` besides. */
  ghost predicate Extends(book: Book, book': Book) {
    forall id :: id in book ==> id in book' && book'[id].origin == book[id].origin
  }

  lemma FitsLater(w: World, book': Book, id: WebhookId, top: int, top': int)
    requires Fits(w, id, top) && Extends(w.book, book') && top <= top'
    ensures StoreFits(w.store, book', id, top') && TopicFits(w.topic, book', id, top')
    ensures LogFits(w.stateLog, book', id, top') && HandsFit(w.hands, book', id, top')
  {
  }

  lemma NotedExtends(book: Book, id: WebhookId, phase: Phase, due: int)
    ensures Extends(book, Noted(book, id, phase, due)) && Noted(book, id, phase, due).Keys == book.Keys
  {
  }

  lemma ScheduledFits(s: Store, h: Webhook, at: int, ensureOk: bool, scheduleOk: bool, book: Book, id: WebhookId,
      top: int)
    requires StoreFits(s, book, id, top) && (ensureOk && scheduleOk ==> WebhookFits(book, id, top, h))
    requires h.id == id ==> id in book && h.maxAttempts == book[id].origin.maxAttempts
    ensures StoreFits(Scheduled(s, h, at, ensureOk, scheduleOk), book, id, top)
  {
  }

  /** The parts of the state a proceeding call leaves. */
  lemma FreshParts(w: World, position: nat, h: Webhook, b: Branch)
    ensures var w' := Fresh(w, position, h, b);
            var phase := PhaseAfter(h, b);
            && w'.hands == w.hands
            && w'.topic == (if b.Diverted? then w.topic + [Message(h, true)] else w.topic)
            && w'.stateLog == (if phase.Done? then w.stateLog + [Tombstone(h.id)]
                               else if phase.Active? then w.stateLog +
                                   [Snap(h.id, SnapshotOf(NextAttempt(h, b.retryAt), b.retryAt))]
                               else w.stateLog)
            && (exists due :: w'.book == Noted(w.book, h.id, phase, due))
  {
    var w' := Fresh(w, position, h, b);
    assert w'.book == Noted(w.book, h.id, PhaseAfter(h, b), DueAfter(w.book, h, b));
  }

  /** Its store: nothing new, the same attempt scheduled, the next one scheduled, or the data gone. */
  lemma FreshStore(w: World, position: nat, h: Webhook, b: Branch)
    ensures var s' := Fresh(w, position, h, b).store;
            match b
            case CircuitOpen(at, ensureOk, scheduleOk) =>
              s' == Scheduled(w.store, h.(scheduledAt := at), at, ensureOk, scheduleOk)
            case Diverted => s' == w.store
            case Nacked => s' == w.store
            case Attempted(_, _, at, ensureOk, scheduleOk, _, cleanupOk) =>
              if !Succeeds(b) && ShouldRetry(h, b.statusCode, b.networkError)
              then s' == Scheduled(w.store, NextAttempt(h, at), at, ensureOk, scheduleOk)
              else s' == Cleaned(w.store, h.id, cleanupOk)
  {
  }

  lemma FreshStoreFits(w: World, position: nat, h: Webhook, b: Branch, book: Book, id: WebhookId, top: int, top': int)
    requires StoreFits(w.store, book, id, top) && WebhookFits(book, id, top, h) && top <= top'
    requires PhaseAfter(h, b).Active? && h.id == id ==> h.attempt + 1 <= top'
    ensures StoreFits(Fresh(w, position, h, b).store, book, id, top')
  {
    FreshStore(w, position, h, b);
    match b
    case CircuitOpen(at, ensureOk, scheduleOk) =>
      ScheduledFits(w.store, h.(scheduledAt := at), at, ensureOk, scheduleOk, book, id, top');
    case Diverted =>
    case Nacked =>
    case Attempted(_, _, at, ensureOk, scheduleOk, _, _) =>
      if !Succeeds(b) && ShouldRetry(h, b.statusCode, b.networkError) {
        ScheduledFits(w.store, NextAttempt(h, at), at, ensureOk, scheduleOk, book, id, top');
      }
  }

  lemma ProceedingFits(w: World, m: Move, id: WebhookId, top: int)
    requires Fits(w, id, top) && Possible(w, m) && Proceeds(w, m)
    ensures Fits(Next(w, m), id, NextTop(w, m, id, top))
  {
    var h, b, w', top' := Taken(w, m), BranchTaken(w, m), Next(w, m), NextTop(w, m, id, top);
    var past := Past(w, m);
    NextIsFresh(w, m);
    FreshParts(past, PositionOf(m), h, b);
    var due :| w'.book == Noted(w.book, h.id, PhaseAfter(h, b), due);
    NotedExtends(w.book, h.id, PhaseAfter(h, b), due);
    assert WebhookFits(w.book, id, top, h);
    FitsLater(w, w'.book, id, top, top');
    assert StoreFits(past.store, w'.book, id, top');
    FreshStoreFits(past, PositionOf(m), h, b, w'.book, id, top', top');
    if PhaseAfter(h, b).Active? {
      assert h.attempt < h.maxAttempts;
      NewRecordFits(h, b, w'.book, id, top');
    }
  }

  lemma NewRecordFits(h: Webhook, b: Branch, book: Book, id: WebhookId, top: int)
    requires b.Attempted? && WebhookFits(book, id, top, h)
    requires h.id == id ==> h.attempt + 1 <= top
    ensures WebhookFits(book, id, top, WebhookOf(SnapshotOf(NextAttempt(h, b.retryAt), b.retryAt), 0))
  {
  }

  lemma EnqueueFits(w: World, s: Step, id: WebhookId, top: int)
    requires Fits(w, id, top) && s.Enqueue? && Enabled(w, s)
    ensures Fits(Apply(w, s), id, if s.webhook.id == id then 0 else top)
  {
    FitsLater(w, Apply(w, s).book, id, top, if s.webhook.id == id then 0 else top);
  }

  lemma HandsStepFits(w: World, s: Step, id: WebhookId, top: int)
    requires Fits(w, id, top) && (s.Pop? || s.AckSent? || s.AckDiscarded? || s.Crash?) && Enabled(w, s)
    ensures Fits(Apply(w, s), id, top)
  {
    var w' := Apply(w, s);
    assert forall r :: r in w'.store.retries ==> r in w.store.retries;
    assert forall r :: r in w'.hands.leased ==> r in w.hands.leased || r in w.store.retries;
    assert forall m :: m in w'.hands.fetched ==> m in w.hands.fetched;
  }

  lemma FetchFits(w: World, s: Step, id: WebhookId, top: int)
    requires Fits(w, id, top) && s.Fetch? && Enabled(w, s)
    ensures Fits(Apply(w, s), id, top)
  {
    assert HandsFit(Fetching(w, s.ref, s.getOk).hands, w.book, id, top);
  }

  lemma PublishFits(w: World, s: Step, id: WebhookId, top: int)
    requires Fits(w, id, top) && s.Publish? && Enabled(w, s)
    ensures Fits(Apply(w, s), id, top)
  {
    var w' := Apply(w, s);
    assert WebhookFits(w.book, id, top, s.next);
    assert HandsFit(w'.hands, w.book, id, top);
  }

  lemma RestoreFits(w: World, rec: StateRecord, id: WebhookId, top: int)
    requires Fits(w, id, top) && rec in w.stateLog
    ensures Fits(w.(store := Restored(w.store, rec)), id, top)
  {
    if Restorable(rec) {
      var at := rec.snapshot.nextRetryAt.value;
      assert WebhookFits(w.book, id, top, WebhookOf(rec.snapshot, 0));
      ScheduledFits(w.store, WebhookOf(rec.snapshot, at), at, true, true, w.book, id, top);
    }
  }

  lemma MoveFits(w: World, m: Move, id: WebhookId, top: int)
    requires Fits(w, id, top) && Possible(w, m)
    ensures Fits(Next(w, m), id, NextTop(w, m, id, top))
  {
    if Proceeds(w, m) {
      ProceedingFits(w, m, id, top);
    } else if m.Restore? {
      RestoreFits(w, m.record, id, top);
    } else if m.Ordinary? {
      OrdinaryFits(w, m.step, id, top);
    }
  }

  lemma OrdinaryFits(w: World, s: Step, id: WebhookId, top: int)
    requires Fits(w, id, top) && Enabled(w, s) && !Proceeds(w, Ordinary(s))
    ensures Fits(Apply(w, s), id, NextTop(w, Ordinary(s), id, top))
  {
    if s.Enqueue? {
      EnqueueFits(w, s, id, top);
    } else if s.Fetch? {
      FetchFits(w, s, id, top);
    } else if s.Publish? {
      PublishFits(w, s, id, top);
    } else if !s.Handle? {
      HandsStepFits(w, s, id, top);
    }
  }

  // ---------------------------------------------------------------- counting

  function MarksOf(markers: set<Ref>, id: WebhookId): set<Ref> {
    set r | r in markers && r.id == id
  }

  lemma {:induction false} MarksBounded(marks: set<Ref>, id: WebhookId, top: int)
    requires -1 <= top && forall r :: r in marks ==> r.id == id && 0 <= r.attempt <= top
    ensures |marks| <= top + 1
    decreases top + 1
  {
    if top == -1 {
      assert marks == {};
    } else {
      var rest := marks - {Ref(id, top)};
      MarksBounded(rest, id, top - 1);
      assert marks <= rest + {Ref(id, top)};
    }
  }

  lemma MarksAdd(markers: set<Ref>, r: Ref, id: WebhookId)
    requires r !in markers
    ensures |MarksOf(markers + {r}, id)| == |MarksOf(markers, id)| + One(r.id == id)
  {
    if r.id == id {
      assert MarksOf(markers + {r}, id) == MarksOf(markers, id) + {r};
    } else {
      assert MarksOf(markers + {r}, id) == MarksOf(markers, id);
    }
  }

  lemma MarksRemove(markers: set<Ref>, r: Ref, id: WebhookId)
    ensures |MarksOf(markers, id)| <= |MarksOf(markers - {r}, id)| + One(r.id == id)
  {
    if r in markers {
      MarksAdd(markers - {r}, r, id);
      assert markers - {r} + {r} == markers;
    } else {
      assert markers - {r} == markers;
    }
  }

  function OutcomesOf(outcomes: seq<Outcome>, id: WebhookId): nat {
    if outcomes == [] then 0
    else OutcomesOf(outcomes[..|outcomes| - 1], id) + One(outcomes[|outcomes| - 1].id == id)
  }

  lemma CountsAppend(deliveries: seq<Ref>, r: Ref, outcomes: seq<Outcome>, o: Outcome, id: WebhookId)
    ensures DeliveryCount(deliveries + [r], id) == DeliveryCount(deliveries, id) + One(r.id == id)
    ensures OutcomesOf(outcomes + [o], id) == OutcomesOf(outcomes, id) + One(o.id == id)
  {
    assert (deliveries + [r])[..|deliveries|] == deliveries && (outcomes + [o])[..|outcomes|] == outcomes;
  }

  /** A handler call for `id` goes unchecked, or a marker of `id` expires. */
  predicate Unguards(w: World, m: Move, id: WebhookId) {
    || (m.Unchecked? && m.position < |w.topic| && w.topic[m.position].webhook.id == id)
    || (m.Expire? && m.marker.id == id)
  }

  /** What a move may add to the deliveries or outcomes of `id` beyond what markers allow; a flush forgives every
      marker. */
  function Excess(w: World, m: Move, id: WebhookId, budget: nat): nat {
    if m.Flush? then budget + 1 else One(Unguards(w, m, id))
  }

  /** The unchecked handler calls for `id` and the expiries of its markers in the run. */
  function UnguardedMoves(w: World, run: seq<Move>, id: WebhookId): nat
    requires PossibleRun(w, run)
    decreases |run|
  {
    if run == [] then 0 else One(Unguards(w, run[0], id)) + UnguardedMoves(Next(w, run[0]), run[1..], id)
  }

  /** Every delivery has used up a marker, and so has every attempt passed and every outcome, up to `excess`. */
  predicate Accounted(w: World, id: WebhookId, top: int, excess: nat) {
    && DeliveryCount(w.deliveries, id) <= |MarksOf(w.store.markers, id)| + excess
    && OutcomesOf(w.outcomes, id) + top <= |MarksOf(w.store.markers, id)| + excess
    && (top == -1 ==> OutcomesOf(w.outcomes, id) == 0)
  }

  lemma ProceedingMarks(w: World, m: Move, id: WebhookId)
    requires Possible(w, m) && Proceeds(w, m)
    ensures |MarksOf(Next(w, m).store.markers, id)| + One(Unguards(w, m, id))
            == |MarksOf(w.store.markers, id)| + One(Taken(w, m).id == id)
  {
    ProceedingShape(w, m);
    if m.Ordinary? {
      MarksAdd(w.store.markers, RefOf(Taken(w, m)), id);
    }
  }

  lemma ProceedingCounts(w: World, m: Move, id: WebhookId, top: int)
    requires Possible(w, m) && Proceeds(w, m)
    ensures DeliveryCount(Next(w, m).deliveries, id) <= DeliveryCount(w.deliveries, id) + One(Taken(w, m).id == id)
    ensures OutcomesOf(Next(w, m).outcomes, id) + NextTop(w, m, id, top)
            <= OutcomesOf(w.outcomes, id) + top + One(Taken(w, m).id == id)
    ensures Taken(w, m).id != id ==> OutcomesOf(Next(w, m).outcomes, id) == OutcomesOf(w.outcomes, id)
  {
    var h, phase := Taken(w, m), PhaseAfter(Taken(w, m), BranchTaken(w, m));
    ProceedingShape(w, m);
    CountsAppend(w.deliveries, RefOf(h), w.outcomes, Outcome(h.id, if phase.Done? then phase.kind else Delivered), id);
  }

  lemma ProceedingAccounted(w: World, m: Move, id: WebhookId, top: int, excess: nat)
    requires Possible(w, m) && Proceeds(w, m) && Accounted(w, id, top, excess)
    requires Taken(w, m).id == id ==> 0 <= top
    ensures Accounted(Next(w, m), id, NextTop(w, m, id, top), excess + One(Unguards(w, m, id)))
  {
    ProceedingMarks(w, m, id);
    ProceedingCounts(w, m, id, top);
    assert 0 <= top ==> 0 <= NextTop(w, m, id, top);
  }

  lemma MoveAccounted(w: World, m: Move, id: WebhookId, top: int, excess: nat, budget: nat)
    requires Possible(w, m) && Accounted(w, id, top, excess) && Fits(w, id, top)
    requires id in w.book ==> Budget(w.book[id].origin) == budget
    ensures Accounted(Next(w, m), id, NextTop(w, m, id, top), excess + Excess(w, m, id, budget))
  {
    if Proceeds(w, m) {
      assert WebhookFits(w.book, id, top, Taken(w, m));
      ProceedingAccounted(w, m, id, top, excess);
    } else {
      OtherwiseShape(w, m);
      if m.Flush? {
        MarksBounded(MarksOf(w.store.markers, id), id, top);
        assert MarksOf({}, id) == {};
      } else if m.Expire? {
        MarksRemove(w.store.markers, m.marker, id);
      }
    }
  }

  lemma MoveExtends(w: World, m: Move)
    requires Possible(w, m)
    ensures Extends(w.book, Next(w, m).book)
  {
    if Proceeds(w, m) {
      NextIsFresh(w, m);
      FreshParts(Past(w, m), PositionOf(m), Taken(w, m), BranchTaken(w, m));
    }
  }

  lemma {:induction false} RunExtends(w: World, run: seq<Move>)
    requires PossibleRun(w, run)
    ensures Extends(w.book, Ending(w, run).book)
    decreases |run|
  {
    if run != [] {
      MoveExtends(w, run[0]);
      RunExtends(Next(w, run[0]), run[1..]);
    }
  }

  lemma {:induction false} RunAccounted(w: World, run: seq<Move>, id: WebhookId, top: int, excess: nat, budget: nat)
    returns (top': int, excess': nat)
    requires PossibleRun(w, run) && Fits(w, id, top) && Accounted(w, id, top, excess)
    requires id in Ending(w, run).book && Budget(Ending(w, run).book[id].origin) == budget
    ensures Fits(Ending(w, run), id, top') && Accounted(Ending(w, run), id, top', excess')
    ensures excess' == excess + UnguardedMoves(w, run, id) + (budget + 1) * Flushes(run)
    decreases |run|
  {
    if run == [] {
      top', excess' := top, excess;
    } else {
      RunExtends(w, run);
      MoveFits(w, run[0], id, top);
      MoveAccounted(w, run[0], id, top, excess, budget);
      var e := Excess(w, run[0], id, budget);
      top', excess' := RunAccounted(Next(w, run[0]), run[1..], id, NextTop(w, run[0], id, top), excess + e, budget);
      ExcessSums(w, run, id, budget);
    }
  }

  lemma ExcessSums(w: World, run: seq<Move>, id: WebhookId, budget: nat)
    requires run != [] && PossibleRun(w, run)
    ensures Excess(w, run[0], id, budget) + UnguardedMoves(Next(w, run[0]), run[1..], id) +
        (budget + 1) * Flushes(run[1..])
            == UnguardedMoves(w, run, id) + (budget + 1) * Flushes(run)
  {
    assert (budget + 1) * (1 + Flushes(run[1..])) == (budget + 1) + (budget + 1) * Flushes(run[1..]);
  }

  /** Main result: over every run, a webhook is delivered at most MaxAttempts + 1 times for each life of the markers,
      and has at most one terminal outcome, plus one of either for each unchecked handler call for it and each of its
      markers that expires; a flush may bring back at most MaxAttempts + 1 outcomes. */
  lemma TotalsBounded(run: seq<Move>, id: WebhookId)
    requires PossibleRun(INITIAL, run) && id in Ending(INITIAL, run).book
    ensures var w := Ending(INITIAL, run);
            var budget := Budget(w.book[id].origin);
            && DeliveryCount(w.deliveries, id) <= (budget + 1) * (1 + Flushes(run)) + UnguardedMoves(INITIAL, run, id)
            && OutcomesOf(w.outcomes, id) <= 1 + UnguardedMoves(INITIAL, run, id) + (budget + 1) * Flushes(run)
  {
    var w := Ending(INITIAL, run);
    var budget := Budget(w.book[id].origin);
    assert MarksOf({}, id) == {};
    var top, excess := RunAccounted(INITIAL, run, id, -1, 0, budget);
    MarksBounded(MarksOf(w.store.markers, id), id, top);
    assert (budget + 1) * (1 + Flushes(run)) == (budget + 1) + (budget + 1) * Flushes(run);
  }
}
