/** Runs in which stored retry data has a time to live: when its expiry, or a time to live that is not positive, loses a
    webhook. */
module ExpiringData {
  import opened Domain
  import opened Lifecycle
  import opened LifecycleInvariant
  import opened DeliveryBounds
  import opened NoLoss
  import opened LastCopy

  /** A step of the protocol, its handler calls under the configured time to live, or the expiry of one webhook's
      data. */
  datatype Move = Taken(step: Step) | ExpireData(expired: WebhookId)

  predicate Possible(w: World, m: Move) {
    m.Taken? ==> Enabled(w, m.step)
  }

  function Next(ttl: int, w: World, m: Move): World
    requires Possible(w, m)
  {
    match m
    case Taken(s) => if s.Handle? then HandledFor(ttl, w, s.position, s.branch) else Apply(w, s)
    case ExpireData(id) => WithoutData(w, id, true)
  }

  predicate PossibleRun(ttl: int, w: World, run: seq<Move>)
    decreases |run|
  {
    run == [] || (Possible(w, run[0]) && PossibleRun(ttl, Next(ttl, w, run[0]), run[1..]))
  }

  function Ending(ttl: int, w: World, run: seq<Move>): World
    requires PossibleRun(ttl, w, run)
    decreases |run|
  {
    if run == [] then w else Ending(ttl, Next(ttl, w, run[0]), run[1..])
  }

  // ---------------------------------------------------------------- what loses a webhook

  /** The handler call of `id` reschedules the next attempt and deletes the data it will need. */
  predicate DropsNext(ttl: int, w: World, m: Move, id: WebhookId) {
    && m.Taken? && m.step.Handle? && m.step.position < |w.topic|
    && var h := w.topic[m.step.position].webhook;
       && h.id == id && RefOf(h) !in w.store.markers
       && PhaseAfter(h, m.step.branch).Active? && DropsData(ttl, w.store, h, m.step.branch)
  }

  /** The data goes while only references and leases are left of the head attempt. */
  ghost predicate ExpiresLast(w: World, m: Move, id: WebhookId) {
    && m.ExpireData? && m.expired == id && id in w.book && id in w.store.data
    && var r := Head(w, id);
       && r !in w.store.markers && (r in w.store.retries || r in w.hands.leased)
       && !OnTopic(w.topic, r) && !exists f :: f in w.hands.fetched && RefOf(f) == r
  }

  ghost predicate Loses(ttl: int, w: World, m: Move, id: WebhookId) {
    (m.Taken? && GivesUp(w, m.step, id)) || DropsNext(ttl, w, m, id) || ExpiresLast(w, m, id)
  }

  /** Less data keeps the protocol's invariant. */
  lemma LessDataKeepsInv(w: World, id: WebhookId, drops: bool)
    requires Inv(w)
    ensures Inv(WithoutData(w, id, drops))
  {
  }

  lemma MoveKeepsInv(ttl: int, w: World, m: Move)
    requires Inv(w) && Possible(w, m)
    ensures Inv(Next(ttl, w, m))
  {
    if m.Taken? {
      StepKeepsInv(w, m.step);
      if m.step.Handle? {
        var h := w.topic[m.step.position].webhook;
        LessDataKeepsInv(Apply(w, m.step), h.id, RefOf(h) !in w.store.markers &&
            DropsData(ttl, w.store, h, m.step.branch));
      }
    } else {
      LessDataKeepsInv(w, m.expired, true);
    }
  }

  lemma {:induction false} RunKeepsInv(ttl: int, w: World, run: seq<Move>)
    requires Inv(w) && PossibleRun(ttl, w, run)
    ensures Inv(Ending(ttl, w, run))
    decreases |run|
  {
    if run != [] {
      MoveKeepsInv(ttl, w, run[0]);
      RunKeepsInv(ttl, Next(ttl, w, run[0]), run[1..]);
    }
  }

  /** The data of one webhook is no copy of another. */
  lemma OtherDataKept(w: World, x: WebhookId, drops: bool, id: WebhookId)
    requires id in w.book && x != id
    ensures HeadKept(WithoutData(w, x, drops), id) <==> HeadKept(w, id)
  {
    var w' := WithoutData(w, x, drops);
    assert InHands(w'.hands, w'.store.data, Head(w, id)) == InHands(w.hands, w.store.data, Head(w, id));
  }

  lemma ExpiryKept(w: World, m: Move, id: WebhookId)
    requires Inv(w) && m.ExpireData? && id in w.book
    ensures HeadKept(WithoutData(w, m.expired, true), id) <==> HeadKept(w, id) && !ExpiresLast(w, m, id)
  {
    var w' := WithoutData(w, m.expired, true);
    if m.expired != id {
      OtherDataKept(w, m.expired, true, id);
    } else if w.book[id].phase.Active? {
      var r := Head(w, id);
      assert r !in w.store.markers;
      assert Copied(w', r) <==> OnTopic(w.topic, r) || exists f :: f in w.hands.fetched && RefOf(f) == r;
    } else {
      NotActiveNotExpiring(w, m, id);
    }
  }

  lemma NotActiveNotExpiring(w: World, m: Move, id: WebhookId)
    requires Inv(w) && id in w.book && !w.book[id].phase.Active?
    ensures !ExpiresLast(w, m, id)
  {
    var r := Head(w, id);
    assert r in w.store.retries || r in w.hands.leased ==> Known(w.book, r);
  }

  /** The next attempt is new, so without data nothing of it can be handed to a worker. */
  lemma DroppedNotKept(ttl: int, w: World, m: Move, id: WebhookId)
    requires Inv(w) && Possible(w, m) && DropsNext(ttl, w, m, id)
    ensures var w' := Next(ttl, w, m); id in w'.book && !HeadKept(w', id)
  {
    var p, b := m.step.position, m.step.branch;
    var h, w' := w.topic[p].webhook, Next(ttl, w, m);
    UnmarkedIsHead(w.store.markers, w.book, RefOf(h));
    HandledShape(w, p, b);
    NothingAbove(w, Head(w', id));
  }

  lemma NothingAbove(w: World, r: Ref)
    requires Inv(w) && r.id in w.book && Top(w.book[r.id]) < r.attempt
    ensures !OnTopic(w.topic, r) && !exists f :: f in w.hands.fetched && RefOf(f) == r
  {
    forall i | 0 <= i < |w.topic| ensures RefOf(w.topic[i].webhook) != r {
      assert KnownWebhook(w.book, w.topic[i].webhook);
    }
    forall f | f in w.hands.fetched ensures RefOf(f) != r {
      assert KnownWebhook(w.book, f);
    }
  }

  lemma MoveKept(ttl: int, w: World, m: Move, id: WebhookId)
    requires Inv(w) && Possible(w, m) && id in w.book
    ensures id in Next(ttl, w, m).book
    ensures HeadKept(Next(ttl, w, m), id) <==> HeadKept(w, id) && !Loses(ttl, w, m, id)
  {
    if m.ExpireData? {
      ExpiryKept(w, m, id);
    } else {
      KeptStep(w, m.step, id);
      if m.step.Handle? {
        CallKept(ttl, w, m, id);
      }
    }
  }

  lemma CallKept(ttl: int, w: World, m: Move, id: WebhookId)
    requires Inv(w) && Possible(w, m) && m.Taken? && m.step.Handle? && id in w.book && id in Apply(w, m.step).book
    ensures HeadKept(Next(ttl, w, m), id) <==> HeadKept(Apply(w, m.step), id) && !DropsNext(ttl, w, m, id)
  {
    var h := w.topic[m.step.position].webhook;
    var drops := RefOf(h) !in w.store.markers && DropsData(ttl, w.store, h, m.step.branch);
    if DropsNext(ttl, w, m, id) {
      DroppedNotKept(ttl, w, m, id);
    } else if h.id != id {
      OtherDataKept(Apply(w, m.step), h.id, drops, id);
    } else if drops {
      HandledShape(w, m.step.position, m.step.branch);
    }
  }

  ghost predicate LosesIn(ttl: int, w: World, run: seq<Move>, id: WebhookId)
    requires PossibleRun(ttl, w, run)
    decreases |run|
  {
    run != [] && (Loses(ttl, w, run[0], id) || LosesIn(ttl, Next(ttl, w, run[0]), run[1..], id))
  }

  lemma {:induction false} KnownKept(ttl: int, w: World, run: seq<Move>, id: WebhookId)
    requires Inv(w) && PossibleRun(ttl, w, run) && id in w.book
    ensures id in Ending(ttl, w, run).book
    ensures HeadKept(Ending(ttl, w, run), id) <==> HeadKept(w, id) && !LosesIn(ttl, w, run, id)
    decreases |run|
  {
    if run != [] {
      MoveKeepsInv(ttl, w, run[0]);
      MoveKept(ttl, w, run[0], id);
      KnownKept(ttl, Next(ttl, w, run[0]), run[1..], id);
    }
  }

  lemma {:induction false} NewKept(ttl: int, w: World, run: seq<Move>, id: WebhookId)
    requires Inv(w) && PossibleRun(ttl, w, run) && id !in w.book
    ensures id in Ending(ttl, w, run).book ==> (HeadKept(Ending(ttl, w, run), id) <==> !LosesIn(ttl, w, run, id))
    decreases |run|
  {
    if run != [] {
      var m, w' := run[0], Next(ttl, w, run[0]);
      MoveKeepsInv(ttl, w, m);
      UnknownNotLost(ttl, w, m, id);
      if id in w'.book {
        NewIsTaken(ttl, w, m, id);
        KeptEnqueue(w, m.step, id);
        KnownKept(ttl, w', run[1..], id);
      } else {
        NewKept(ttl, w', run[1..], id);
      }
    }
  }

  lemma UnknownNotLost(ttl: int, w: World, m: Move, id: WebhookId)
    requires Inv(w) && Possible(w, m) && id !in w.book
    ensures !Loses(ttl, w, m, id)
  {
    if m.Taken? {
      UnknownNotGivenUp(w, m.step, id);
    }
    forall i | 0 <= i < |w.topic| ensures w.topic[i].webhook.id != id {
      assert KnownWebhook(w.book, w.topic[i].webhook);
    }
  }

  lemma NewIsTaken(ttl: int, w: World, m: Move, id: WebhookId)
    requires Possible(w, m) && id !in w.book && id in Next(ttl, w, m).book
    ensures m.Taken? && m.step.Enqueue? && m.step.webhook.id == id
  {
    if m.Taken? {
      NewIsEnqueued(w, m.step, id);
    }
  }

  lemma {:induction false} RunKeepsHistory(ttl: int, w: World, run: seq<Move>)
    requires Inv(w) && InvHistory(w) && PossibleRun(ttl, w, run)
    ensures InvHistory(Ending(ttl, w, run))
    decreases |run|
  {
    if run != [] {
      MoveKeepsInv(ttl, w, run[0]);
      if run[0].Taken? {
        StepKeepsHistory(w, run[0].step);
      }
      RunKeepsHistory(ttl, Next(ttl, w, run[0]), run[1..]);
    }
  }

  /** Main result: over every run from the empty system, for any configured time to live and with stored data expiring
      at any moment, an accepted webhook is delivered, dead-lettered or still has a copy of its head attempt somewhere,
      if and only if no worker took a lossy branch on it, no scheduler gave up its last copy, no reschedule deleted the
      data it needs, and the data did not expire while nothing else was left of the head. */
  lemma KeptWithExpiryIff(ttl: int, run: seq<Move>, id: WebhookId)
    requires PossibleRun(ttl, INITIAL, run) && id in Ending(ttl, INITIAL, run).book
    ensures Kept(Ending(ttl, INITIAL, run), id) <==> !LosesIn(ttl, INITIAL, run, id)
  {
    RunKeepsInv(ttl, INITIAL, run);
    RunKeepsHistory(ttl, INITIAL, run);
    NewKept(ttl, INITIAL, run, id);
    KeptMeans(Ending(ttl, INITIAL, run), id);
  }

  /** A positive time to live never deletes on reschedule. */
  lemma PositiveNeverDrops(ttl: int, w: World, m: Move, id: WebhookId)
    requires 0 < ttl
    ensures !DropsNext(ttl, w, m, id)
  {
  }

  // ---------------------------------------------------------------- a time to live that is not positive

  /** The data of a webhook is there exactly while its first retry is the head attempt. */
  predicate EntryStops(data: map<WebhookId, Webhook>, id: WebhookId, e: Entry) {
    && e.next <= 2
    && (e.phase.Active? ==> (id in data <==> e.next == 1))
  }

  ghost predicate EntriesStop(data: map<WebhookId, Webhook>, book: Book) {
    forall id :: id in book ==> EntryStops(data, id, book[id])
  }

  ghost predicate TopicStops(topic: seq<Message>) {
    forall i :: 0 <= i < |topic| ==> topic[i].webhook.attempt <= 1
  }

  ghost predicate HandsStop(fetched: multiset<Webhook>) {
    forall f :: f in fetched ==> f.attempt <= 1
  }

  ghost predicate DeliveriesStop(deliveries: seq<Ref>) {
    forall i :: 0 <= i < |deliveries| ==> deliveries[i].attempt <= 1
  }

  ghost predicate Stops(w: World) {
    && EntriesStop(w.store.data, w.book) && TopicStops(w.topic)
    && HandsStop(w.hands.fetched) && DeliveriesStop(w.deliveries)
  }

  /** The first reschedule stores the data, the second deletes it. */
  lemma CallStopsEntry(ttl: int, w: World, p: nat, b: Branch)
    requires ttl <= 0 && Inv(w) && p < |w.topic| && w.topic[p].webhook.attempt <= 1
    requires RefOf(w.topic[p].webhook) !in w.store.markers
    requires var id := w.topic[p].webhook.id; id in w.book && EntryStops(w.store.data, id, w.book[id])
    ensures var w', id := HandledFor(ttl, w, p, b), w.topic[p].webhook.id;
            id in w'.book && EntryStops(w'.store.data, id, w'.book[id])
  {
    var h := w.topic[p].webhook;
    assert KnownWebhook(w.book, h);
    UnmarkedIsHead(w.store.markers, w.book, RefOf(h));
    HandledShape(w, p, b);
    HandledStore(w, p, b);
  }

  lemma CallStopsOther(ttl: int, w: World, p: nat, b: Branch, id: WebhookId)
    requires Inv(w) && p < |w.topic| && RefOf(w.topic[p].webhook) !in w.store.markers && w.topic[p].webhook.id != id
    ensures var w' := HandledFor(ttl, w, p, b);
            && (id in w'.book <==> id in w.book) && (id in w.book ==> w'.book[id] == w.book[id])
            && (id in w'.store.data <==> id in w.store.data)
  {
    HandledShape(w, p, b);
    HandledStore(w, p, b);
  }

  lemma CallStopsRest(ttl: int, w: World, p: nat, b: Branch)
    requires Inv(w) && Stops(w) && p < |w.topic| && RefOf(w.topic[p].webhook) !in w.store.markers
    ensures var w' := HandledFor(ttl, w, p, b);
            TopicStops(w'.topic) && HandsStop(w'.hands.fetched) && DeliveriesStop(w'.deliveries)
  {
    HandledShape(w, p, b);
  }

  lemma CallStops(ttl: int, w: World, p: nat, b: Branch)
    requires ttl <= 0 && Inv(w) && Stops(w) && p < |w.topic|
    ensures Stops(HandledFor(ttl, w, p, b))
  {
    var h, w' := w.topic[p].webhook, HandledFor(ttl, w, p, b);
    if RefOf(h) !in w.store.markers {
      assert KnownWebhook(w.book, h);
      CallStopsRest(ttl, w, p, b);
      CallStopsEntry(ttl, w, p, b);
      forall id | id in w'.book ensures EntryStops(w'.store.data, id, w'.book[id]) {
        if id != h.id {
          CallStopsOther(ttl, w, p, b, id);
        }
      }
    }
  }

  lemma FetchStops(w: World, s: Step)
    requires Inv(w) && Stops(w) && Enabled(w, s) && s.Fetch?
    ensures Stops(Apply(w, s))
  {
    assert Known(w.book, s.ref) && EntryStops(w.store.data, s.ref.id, w.book[s.ref.id]);
  }

  lemma PublishStops(w: World, s: Step)
    requires Stops(w) && Enabled(w, s) && s.Publish?
    ensures Stops(Apply(w, s))
  {
    var w' := Apply(w, s);
    assert HandsStop(w'.hands.fetched);
    assert TopicStops(w'.topic);
  }

  lemma HandsStepStops(w: World, s: Step)
    requires Stops(w) && Enabled(w, s) && (s.Pop? || s.AckSent? || s.AckDiscarded? || s.Crash?)
    ensures Stops(Apply(w, s))
  {
    var w' := Apply(w, s);
    assert HandsStop(w'.hands.fetched);
    assert w'.store.data == w.store.data && w'.book == w.book && w'.topic == w.topic && w'.deliveries == w.deliveries;
  }

  lemma EnqueueStops(w: World, s: Step)
    requires Inv(w) && Stops(w) && Enabled(w, s) && s.Enqueue?
    ensures Stops(Apply(w, s))
  {
  }

  predicate NothingExpires(run: seq<Move>) {
    forall k :: 0 <= k < |run| ==> run[k].Taken?
  }

  lemma {:induction false} RunStops(ttl: int, w: World, run: seq<Move>)
    requires ttl <= 0 && Inv(w) && Stops(w) && PossibleRun(ttl, w, run) && NothingExpires(run)
    ensures Stops(Ending(ttl, w, run))
    decreases |run|
  {
    if run != [] {
      var s := run[0].step;
      MoveKeepsInv(ttl, w, run[0]);
      if s.Handle? {
        CallStops(ttl, w, s.position, s.branch);
      } else if s.Fetch? {
        FetchStops(w, s);
      } else if s.Enqueue? {
        EnqueueStops(w, s);
      } else if s.Publish? {
        PublishStops(w, s);
      } else {
        HandsStepStops(w, s);
      }
      RunStops(ttl, Next(ttl, w, run[0]), run[1..]);
    }
  }

  lemma TwiceFailedNotKept(w: World, id: WebhookId)
    requires Inv(w) && InvHistory(w) && Stops(w) && id in w.book
    ensures w.book[id].phase.Active? && 2 <= w.book[id].next ==> !Kept(w, id)
  {
    KeptMeans(w, id);
    var r := Head(w, id);
    assert EntryStops(w.store.data, id, w.book[id]);
    assert 2 <= r.attempt ==> !OnTopic(w.topic, r) && !exists f :: f in w.hands.fetched && RefOf(f) == r;
  }

  /** Main result: with a time to live that is not positive, as in the defaults, no webhook is ever delivered after its
      first retry, and one that fails twice and is rescheduled is lost, in every run and without a fault. */
  lemma SecondRetryLoses(ttl: int, run: seq<Move>, id: WebhookId)
    requires ttl <= 0 && PossibleRun(ttl, INITIAL, run) && NothingExpires(run)
    requires id in Ending(ttl, INITIAL, run).book
    ensures var w := Ending(ttl, INITIAL, run);
            && (forall i :: 0 <= i < |w.deliveries| ==> w.deliveries[i].attempt <= 1)
            && (w.book[id].phase.Active? && 2 <= w.book[id].next ==> !Kept(w, id))
  {
    RunStops(ttl, INITIAL, run);
    RunKeepsInv(ttl, INITIAL, run);
    RunKeepsHistory(ttl, INITIAL, run);
    TwiceFailedNotKept(Ending(ttl, INITIAL, run), id);
  }

  // ---------------------------------------------------------------- a losing run

  const FAILURE := Attempted(500, false, 5, true, true, true, true)

  lemma OneMove(ttl: int, w: World, m: Move, rest: seq<Move>)
    requires Possible(w, m) && PossibleRun(ttl, Next(ttl, w, m), rest)
    ensures PossibleRun(ttl, w, [m] + rest) && Ending(ttl, w, [m] + rest) == Ending(ttl, Next(ttl, w, m), rest)
  {
    assert ([m] + rest)[1..] == rest;
  }

  /** One reference is popped, fetched, published and acknowledged. */
  function RetryRun(r: Ref, stored: Webhook, rest: seq<Move>): seq<Move> {
    [Taken(Pop({r}, 35))] + ([Taken(Fetch(r, true))] +
      ([Taken(Publish(stored, Published))] + ([Taken(AckSent(r, true))] + rest)))
  }

  function Retried(w: World, r: Ref, stored: Webhook): World {
    w.(topic := w.topic + [Message(stored, false)], store := w.store.(retries := map[]))
  }

  lemma TwoMoves(ttl: int, w: World, m1: Move, m2: Move, w2: World, rest: seq<Move>)
    requires Possible(w, m1) && Possible(Next(ttl, w, m1), m2) && Next(ttl, Next(ttl, w, m1), m2) == w2
    requires PossibleRun(ttl, w2, rest)
    ensures PossibleRun(ttl, w, [m1] + ([m2] + rest)) && Ending(ttl, w, [m1] + ([m2] + rest)) == Ending(ttl, w2, rest)
  {
    OneMove(ttl, Next(ttl, w, m1), m2, rest);
    OneMove(ttl, w, m1, [m2] + rest);
  }

  /** Leased and resolved. */
  function Resolved(w: World, stored: Webhook): World {
    w.(hands := w.hands.(fetched := multiset{stored}), store := w.store.(retries := map[RefOf(stored) := 35]))
  }

  lemma LeaseRun(w: World, r: Ref, stored: Webhook)
    requires w.hands == INITIAL.hands && w.store.retries.Keys == {r} && w.store.data == map[r.id := stored] &&
        RefOf(stored) == r
    ensures Enabled(w, Pop({r}, 35)) && Enabled(Apply(w, Pop({r}, 35)), Fetch(r, true))
    ensures Apply(Apply(w, Pop({r}, 35)), Fetch(r, true)) == Resolved(w, stored)
  {
    var w1 := Apply(w, Pop({r}, 35));
    assert w1.store.retries == map[r := 35];
    assert stored.(attempt := r.attempt) == stored;
    assert w1.hands.leased == multiset{r} && w1.hands.leased - multiset{r} == multiset{};
  }

  lemma PublishRun(w: World, stored: Webhook)
    requires w.hands == INITIAL.hands
    ensures var s, r := Resolved(w, stored), RefOf(stored);
            && Enabled(s, Publish(stored, Published)) && Enabled(Apply(s, Publish(stored, Published)), AckSent(r, true))
            && Apply(Apply(s, Publish(stored, Published)), AckSent(r, true)) == Retried(w, r, stored)
  {
    var r := RefOf(stored);
    var w1 := Apply(Resolved(w, stored), Publish(stored, Published));
    assert w1.hands.fetched == multiset{} && w1.hands.sent == multiset{r};
    assert map[r := 35] - {r} == map[];
  }

  lemma RetryRunFrom(ttl: int, w: World, r: Ref, stored: Webhook, rest: seq<Move>)
    requires w.hands == INITIAL.hands && w.store.retries.Keys == {r} && w.store.data == map[r.id := stored] &&
        RefOf(stored) == r
    requires PossibleRun(ttl, Retried(w, r, stored), rest)
    ensures PossibleRun(ttl, w, RetryRun(r, stored, rest))
    ensures Ending(ttl, w, RetryRun(r, stored, rest)) == Ending(ttl, Retried(w, r, stored), rest)
  {
    PublishRun(w, stored);
    TwoMoves(ttl, Resolved(w, stored), Taken(Publish(stored, Published)), Taken(AckSent(r, true)),
        Retried(w, r, stored), rest);
    LeaseRun(w, r, stored);
    TwoMoves(ttl, w, Taken(Pop({r}, 35)), Taken(Fetch(r, true)), Resolved(w, stored),
             [Taken(Publish(stored, Published))] + ([Taken(AckSent(r, true))] + rest));
  }

  /** Delivered, failed, retried and failed again: not a single fault. */
  function TwiceFailedRun(webhook: Webhook): seq<Move> {
    var next := NextAttempt(webhook, 5);
    [Taken(Enqueue(webhook))] +
        ([Taken(Handle(0, FAILURE))] + RetryRun(RefOf(next), next, [Taken(Handle(1, FAILURE))] + []))
  }

  /** The state after the first failure. */
  function FailedOnce(webhook: Webhook): World {
    var r, next := RefOf(webhook), NextAttempt(webhook, 5);
    World([Message(webhook, false)], {0}, Store({r}, map[RefOf(next) := Unix(5)], map[r.id := next]),
          [Snap(r.id, SnapshotOf(next, 5))], INITIAL.hands, [r], [], map[r.id := Entry(webhook, 1, Active, 5)])
  }

  lemma FailedOnceIsReached(ttl: int, webhook: Webhook)
    requires webhook.attempt == 0 && 2 <= webhook.maxAttempts
    ensures Next(ttl, Next(ttl, INITIAL, Taken(Enqueue(webhook))), Taken(Handle(0, FAILURE))) == FailedOnce(webhook)
  {
    var w1 := Next(ttl, INITIAL, Taken(Enqueue(webhook)));
    assert w1.topic == [Message(webhook, false)] && !Succeeds(FAILURE);
    assert ShouldRetry(webhook, FAILURE.statusCode, FAILURE.networkError);
    assert w1.book[webhook.id := Entry(webhook, 1, Active, 5)] == map[webhook.id := Entry(webhook, 1, Active, 5)];
  }

  lemma SecondFailure(ttl: int, webhook: Webhook)
    requires ttl <= 0 && webhook.attempt == 0 && 2 <= webhook.maxAttempts
    ensures var next := NextAttempt(webhook, 5);
            var w := Next(ttl, Retried(FailedOnce(webhook), RefOf(next), next), Taken(Handle(1, FAILURE)));
            && webhook.id in w.book && w.book[webhook.id].phase.Active? && w.book[webhook.id].next == 2
            && w.deliveries == [RefOf(webhook), RefOf(next)]
  {
    var next := NextAttempt(webhook, 5);
    var w := Retried(FailedOnce(webhook), RefOf(next), next);
    assert w.topic[1].webhook == next && RefOf(next) !in w.store.markers;
    assert ShouldRetry(next, FAILURE.statusCode, FAILURE.networkError);
  }

  lemma TwiceFailedRunTakes(webhook: Webhook)
    ensures NothingExpires(TwiceFailedRun(webhook))
  {
    var next := NextAttempt(webhook, 5);
    var r := RefOf(next);
    var flat := [Taken(Enqueue(webhook)), Taken(Handle(0, FAILURE)), Taken(Pop({r}, 35)), Taken(Fetch(r, true)),
                 Taken(Publish(next, Published)), Taken(AckSent(r, true)), Taken(Handle(1, FAILURE))];
    assert TwiceFailedRun(webhook) == flat;
  }

  lemma TwiceFailedRunFrom(ttl: int, webhook: Webhook)
    requires ttl <= 0 && webhook.attempt == 0 && 2 <= webhook.maxAttempts
    ensures PossibleRun(ttl, INITIAL, TwiceFailedRun(webhook))
    ensures var next := NextAttempt(webhook, 5);
            Ending(ttl, INITIAL, TwiceFailedRun(webhook))
            == Next(ttl, Retried(FailedOnce(webhook), RefOf(next), next), Taken(Handle(1, FAILURE)))
  {
    var next := NextAttempt(webhook, 5);
    var last := [Taken(Handle(1, FAILURE))] + [];
    var w := Retried(FailedOnce(webhook), RefOf(next), next);
    OneMove(ttl, w, Taken(Handle(1, FAILURE)), []);
    RetryRunFrom(ttl, FailedOnce(webhook), RefOf(next), next, last);
    FailedOnceIsReached(ttl, webhook);
    TwoMoves(ttl, INITIAL, Taken(Enqueue(webhook)), Taken(Handle(0, FAILURE)), FailedOnce(webhook),
             RetryRun(RefOf(next), next, last));
  }

  /** The defaults lose every webhook that fails twice, in a run without a single fault. */
  lemma DefaultsLose(ttl: int, webhook: Webhook)
    requires ttl <= 0 && webhook.attempt == 0 && 2 <= webhook.maxAttempts
    ensures PossibleRun(ttl, INITIAL, TwiceFailedRun(webhook)) && NothingExpires(TwiceFailedRun(webhook))
    ensures var w := Ending(ttl, INITIAL, TwiceFailedRun(webhook));
            && webhook.id in w.book && w.book[webhook.id].phase.Active? && !Kept(w, webhook.id)
  {
    TwiceFailedRunTakes(webhook);
    TwiceFailedRunFrom(ttl, webhook);
    SecondFailure(ttl, webhook);
    SecondRetryLoses(ttl, TwiceFailedRun(webhook), webhook.id);
  }
}
