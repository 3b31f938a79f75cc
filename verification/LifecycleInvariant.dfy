/** What every step of the protocol keeps, on every branch, including the lossy ones. */
module LifecycleInvariant {
  import opened Domain
  import opened Lifecycle

  /** The highest attempt of the webhook that may exist anywhere. */
  function Top(e: Entry): int {
    if e.phase.Active? then e.next else e.next - 1
  }

  predicate Known(book: Book, r: Ref) {
    r.id in book && 0 <= r.attempt <= Top(book[r.id])
  }

  predicate KnownWebhook(book: Book, m: Webhook) {
    Known(book, RefOf(m)) && SameWebhook(book[m.id].origin, m)
  }

  ghost predicate OnTopic(topic: seq<Message>, r: Ref) {
    exists i :: 0 <= i < |topic| && RefOf(topic[i].webhook) == r
  }

  /** The markers of a webhook are exactly the attempts taken up. */
  ghost predicate InvMarkers(markers: set<Ref>, book: Book) {
    forall r: Ref :: r in markers <==> r.id in book && 0 <= r.attempt < book[r.id].next
  }

  ghost predicate InvTopic(topic: seq<Message>, book: Book) {
    forall i :: 0 <= i < |topic| ==> KnownWebhook(book, topic[i].webhook)
  }

  ghost predicate InvAcked(topic: seq<Message>, acked: set<nat>, markers: set<Ref>) {
    forall i :: i in acked ==> i < |topic| && RefOf(topic[i].webhook) in markers
  }

  ghost predicate InvRetries(retries: map<Ref, int>, book: Book) {
    forall r :: r in retries ==> Known(book, r)
  }

  ghost predicate InvData(data: map<WebhookId, Webhook>, book: Book) {
    forall id :: id in data ==> id in book && data[id].id == id && SameWebhook(book[id].origin, data[id])
  }

  ghost predicate InvHands(h: Hands, topic: seq<Message>, book: Book) {
    && (forall r :: r in h.leased ==> Known(book, r))
    && (forall m :: m in h.fetched ==> KnownWebhook(book, m))
    && (forall r :: r in h.sent ==> OnTopic(topic, r))
  }

  /** The attempts of a webhook never pass its budget; a negative budget still allows attempt 0. */
  predicate EntryOk(id: WebhookId, e: Entry) {
    && e.origin.id == id
    && 0 <= e.next
    && (!e.phase.Active? ==> 1 <= e.next)
    && Top(e) <= (if e.origin.maxAttempts < 0 then 0 else e.origin.maxAttempts)
  }

  ghost predicate InvBook(book: Book) {
    forall id :: id in book ==> EntryOk(id, book[id])
  }

  ghost predicate Inv(w: World) {
    && InvMarkers(w.store.markers, w.book)
    && InvTopic(w.topic, w.book)
    && InvAcked(w.topic, w.acked, w.store.markers)
    && InvRetries(w.store.retries, w.book)
    && InvData(w.store.data, w.book)
    && InvHands(w.hands, w.topic, w.book)
    && InvBook(w.book)
  }

  /** A reference that is not marked is the head attempt of an active webhook. */
  lemma UnmarkedIsHead(markers: set<Ref>, book: Book, r: Ref)
    requires InvMarkers(markers, book) && Known(book, r) && r !in markers
    ensures book[r.id].phase.Active? && r.attempt == book[r.id].next
  {
  }

  /** `book'` keeps every entry's origin and never lowers what may exist. */
  ghost predicate Grows(book: Book, book': Book) {
    forall id :: id in book ==>
      id in book' && book'[id].origin == book[id].origin && Top(book[id]) <= Top(book'[id])
  }

  lemma KnownStays(book: Book, book': Book)
    requires Grows(book, book')
    ensures forall r :: Known(book, r) ==> Known(book', r)
    ensures forall m :: KnownWebhook(book, m) ==> KnownWebhook(book', m)
  {
  }

  lemma OnTopicStays(topic: seq<Message>, m: Message)
    ensures forall r :: OnTopic(topic, r) ==> OnTopic(topic + [m], r)
    ensures OnTopic(topic + [m], RefOf(m.webhook))
  {
    var topic' := topic + [m];
    assert topic'[|topic|] == m;
    forall r | OnTopic(topic, r) ensures OnTopic(topic', r) {
      var i :| 0 <= i < |topic| && RefOf(topic[i].webhook) == r;
      assert topic'[i] == topic[i];
    }
  }

  /** Taking up the head attempt: one marker more, one entry advanced. */
  lemma NotedGrows(markers: set<Ref>, book: Book, r: Ref, phase: Phase, due: int)
    requires InvMarkers(markers, book) && InvBook(book) && Known(book, r) && r !in markers
    requires phase.Active? ==> r.attempt < book[r.id].origin.maxAttempts
    ensures var book' := Noted(book, r.id, phase, due);
            && Grows(book, book')
            && InvMarkers(markers + {r}, book')
            && InvBook(book')
            && Top(book'[r.id]) == (if phase.Active? then r.attempt + 1 else r.attempt)
  {
    UnmarkedIsHead(markers, book, r);
  }

  lemma GrowsKeepsTopic(topic: seq<Message>, book: Book, book': Book)
    requires InvTopic(topic, book) && Grows(book, book')
    ensures InvTopic(topic, book')
  {
    KnownStays(book, book');
  }

  lemma GrowsKeepsStore(retries: map<Ref, int>, data: map<WebhookId, Webhook>, book: Book, book': Book)
    requires InvRetries(retries, book) && InvData(data, book) && Grows(book, book')
    ensures InvRetries(retries, book') && InvData(data, book')
  {
    KnownStays(book, book');
  }

  lemma GrowsKeepsHands(h: Hands, topic: seq<Message>, topic': seq<Message>, book: Book, book': Book)
    requires InvHands(h, topic, book) && Grows(book, book')
    requires topic' == topic || exists m :: topic' == topic + [m]
    ensures InvHands(h, topic', book')
  {
    KnownStays(book, book');
    if topic' != topic {
      var m :| topic' == topic + [m];
      OnTopicStays(topic, m);
    }
  }

  /** Scheduling a known attempt of a known webhook keeps the store sound. */
  lemma ScheduledKeeps(s: Store, m: Webhook, at: int, ensureOk: bool, scheduleOk: bool, book: Book)
    requires InvRetries(s.retries, book) && InvData(s.data, book) && KnownWebhook(book, m)
    ensures var s' := Scheduled(s, m, at, ensureOk, scheduleOk);
            InvRetries(s'.retries, book) && InvData(s'.data, book) && s'.markers == s.markers
  {
  }

  // ---------------------------------------------------------------- the shape of a handler call

  /** Where taking up an attempt leaves the webhook. */
  function PhaseAfter(m: Webhook, b: Branch): Phase {
    if !b.Attempted? then Lost
    else if Succeeds(b) then Done(Delivered)
    else if ShouldRetry(m, b.statusCode, b.networkError) then (if b.ensureOk && b.scheduleOk then Active else Lost)
    else Done(if b.deadLetterOk then DeadLettered else ExhaustedUnrecorded)
  }

  function DueAfter(book: Book, m: Webhook, b: Branch): int {
    if PhaseAfter(m, b).Active? then b.retryAt else DueOf(book, m.id)
  }

  lemma HandledShape(w: World, position: nat, b: Branch)
    requires position < |w.topic| && RefOf(w.topic[position].webhook) !in w.store.markers
    ensures var m := w.topic[position].webhook;
            var w' := Handled(w, position, b);
            var phase := PhaseAfter(m, b);
            && w'.store.markers == w.store.markers + {RefOf(m)}
            && w'.book == Noted(w.book, m.id, phase, DueAfter(w.book, m, b))
            && w'.topic == (if b.Diverted? then w.topic + [Message(m, true)] else w.topic)
            && w'.acked <= w.acked + {position}
            && w'.hands == w.hands
            && w'.deliveries == (if b.Attempted? then w.deliveries + [RefOf(m)] else w.deliveries)
            && w'.outcomes == (if phase.Done? then w.outcomes + [Outcome(m.id, phase.kind)] else w.outcomes)
            && w'.stateLog == (if phase.Done? then w.stateLog + [Tombstone(m.id)]
                               else if phase.Active? then w.stateLog +
                                   [Snap(m.id, SnapshotOf(NextAttempt(m, b.retryAt), b.retryAt))]
                               else w.stateLog)
  {
  }

  lemma HandledStore(w: World, position: nat, b: Branch)
    requires position < |w.topic| && RefOf(w.topic[position].webhook) !in w.store.markers
    ensures var m := w.topic[position].webhook;
            var s' := Handled(w, position, b).store;
            && (forall r :: r in w.store.retries ==> r in s'.retries)
            && (forall r :: r in s'.retries && r.id != m.id ==> r in w.store.retries)
            && (forall id :: id != m.id ==> (id in w.store.data <==> id in s'.data))
            && (PhaseAfter(m, b).Active? ==> Ref(m.id, m.attempt + 1) in s'.retries && m.id in s'.data)
            && (m.id in w.store.data && m.id !in s'.data ==> PhaseAfter(m, b).Done?)
  {
  }

  lemma HandleKeepsInv(w: World, position: nat, b: Branch)
    requires Inv(w) && position < |w.topic|
    ensures Inv(Handled(w, position, b))
  {
    var m := w.topic[position].webhook;
    var r := RefOf(m);
    if r in w.store.markers {
      assert Inv(w.(acked := w.acked + {position}));
    } else {
      var w1 := w.(store := w.store.(markers := w.store.markers + {r}));
      FreshKeepsInv(w, w1, position, m, b);
    }
  }

  /** The parts of a handler's result that every branch shapes in the same way. */
  lemma TakenUpKeepsInv(w: World, position: nat, m: Webhook, phase: Phase, due: int, w': World)
    requires Inv(w) && position < |w.topic| && m == w.topic[position].webhook && RefOf(m) !in w.store.markers
    requires phase.Active? ==> m.attempt < m.maxAttempts
    requires w'.book == Noted(w.book, m.id, phase, due)
    requires w'.store.markers == w.store.markers + {RefOf(m)}
    requires w'.topic == w.topic || w'.topic == w.topic + [Message(m, true)]
    requires w'.acked <= w.acked + {position}
    requires w'.hands == w.hands
    requires InvRetries(w'.store.retries, w'.book) && InvData(w'.store.data, w'.book)
    ensures Inv(w')
  {
    NotedGrows(w.store.markers, w.book, RefOf(m), phase, due);
    GrowsKeepsTopic(w.topic, w.book, w'.book);
    GrowsKeepsHands(w.hands, w.topic, w'.topic, w.book, w'.book);
    KnownStays(w.book, w'.book);
  }

  lemma FreshKeepsInv(w: World, w1: World, position: nat, m: Webhook, b: Branch)
    requires Inv(w) && position < |w.topic| && m == w.topic[position].webhook && RefOf(m) !in w.store.markers
    requires w1 == w.(store := w.store.(markers := w.store.markers + {RefOf(m)}))
    ensures Inv(Fresh(w1, position, m, b))
  {
    var w' := Fresh(w1, position, m, b);
    var r := RefOf(m);
    UnmarkedIsHead(w.store.markers, w.book, r);
    var e := w'.book[m.id];
    NotedGrows(w.store.markers, w.book, r, e.phase, e.due);
    GrowsKeepsStore(w.store.retries, w.store.data, w.book, w'.book);
    KnownStays(w.book, w'.book);
    if b.CircuitOpen? {
      ScheduledKeeps(w1.store, m.(scheduledAt := b.retryAt), b.retryAt, b.ensureOk, b.scheduleOk, w'.book);
    } else if b.Attempted? && !Succeeds(b) && ShouldRetry(m, b.statusCode, b.networkError) {
      RetriedKeepsStore(w1, position, m, b);
    }
    TakenUpKeepsInv(w, position, m, e.phase, e.due, w');
  }

  lemma RetriedKeepsStore(w: World, position: nat, m: Webhook, b: Branch)
    requires b.Attempted? && m.id in w.book
    requires InvRetries(w.store.retries, w.book) && InvData(w.store.data, w.book)
    requires Grows(w.book, Retried(w, position, m, b).book)
    requires KnownWebhook(w.book, m) && w.book[m.id].next == m.attempt
    ensures var w' := Retried(w, position, m, b);
            InvRetries(w'.store.retries, w'.book) && InvData(w'.store.data, w'.book)
  {
    var w' := Retried(w, position, m, b);
    GrowsKeepsStore(w.store.retries, w.store.data, w.book, w'.book);
    KnownStays(w.book, w'.book);
  }

  lemma EnqueueGrows(markers: set<Ref>, book: Book, webhook: Webhook)
    requires InvMarkers(markers, book) && InvBook(book) && webhook.id !in book && webhook.attempt == 0
    ensures var book' := book[webhook.id := Entry(webhook, 0, Active, 0)];
            Grows(book, book') && InvMarkers(markers, book') && InvBook(book') && KnownWebhook(book', webhook)
  {
  }

  lemma EnqueueKeepsInv(w: World, s: Step)
    requires Inv(w) && s.Enqueue? && Enabled(w, s)
    ensures Inv(Apply(w, s))
  {
    var w' := Apply(w, s);
    EnqueueGrows(w.store.markers, w.book, s.webhook);
    GrowsKeepsTopic(w.topic, w.book, w'.book);
    GrowsKeepsStore(w.store.retries, w.store.data, w.book, w'.book);
    GrowsKeepsHands(w.hands, w.topic, w'.topic, w.book, w'.book);
  }

  lemma PublishKeepsInv(w: World, s: Step)
    requires Inv(w) && s.Publish? && Enabled(w, s)
    ensures Inv(Apply(w, s))
  {
    var w' := Apply(w, s);
    GrowsKeepsHands(w.hands, w.topic, w'.topic, w.book, w.book);
    if s.outcome.Published? {
      OnTopicStays(w.topic, Message(s.next, false));
    }
  }

  lemma PopKeepsHands(h: Hands, refs: set<Ref>, retries: map<Ref, int>, topic: seq<Message>, book: Book)
    requires InvHands(h, topic, book) && InvRetries(retries, book) && refs <= retries.Keys
    ensures InvHands(h.(leased := h.leased + multiset(refs)), topic, book)
  {
  }

  lemma FetchKeepsHands(w: World, ref: Ref, getOk: bool)
    requires InvHands(w.hands, w.topic, w.book) && InvData(w.store.data, w.book) && ref in w.hands.leased
    ensures InvHands(Fetching(w, ref, getOk).hands, w.topic, w.book)
  {
  }

  lemma SmallerHands(h: Hands, h': Hands, topic: seq<Message>, book: Book)
    requires InvHands(h, topic, book)
    requires h'.leased <= h.leased && h'.fetched <= h.fetched && h'.sent <= h.sent
    ensures InvHands(h', topic, book)
  {
  }

  lemma OnlyHandsChange(w: World, retries: map<Ref, int>, h: Hands)
    requires Inv(w) && InvRetries(retries, w.book) && InvHands(h, w.topic, w.book)
    ensures Inv(w.(store := w.store.(retries := retries), hands := h))
  {
  }

  lemma PopKeepsInv(w: World, s: Step)
    requires Inv(w) && s.Pop? && Enabled(w, s)
    ensures Inv(Apply(w, s))
  {
    PopKeepsHands(w.hands, s.refs, w.store.retries, w.topic, w.book);
    OnlyHandsChange(w, Relocked(w.store.retries, s.refs, s.until), Apply(w, s).hands);
  }

  lemma FetchKeepsInv(w: World, s: Step)
    requires Inv(w) && s.Fetch? && Enabled(w, s)
    ensures Inv(Apply(w, s))
  {
    FetchKeepsHands(w, s.ref, s.getOk);
    OnlyHandsChange(w, w.store.retries, Fetching(w, s.ref, s.getOk).hands);
  }

  /** An ack takes references away from the store and from the schedulers' hands. */
  lemma AckKeepsInv(w: World, r: Ref, ackOk: bool, h: Hands)
    requires Inv(w) && h.leased <= w.hands.leased && h.fetched <= w.hands.fetched && h.sent <= w.hands.sent
    ensures Inv(w.(store := Removed(w.store, r, ackOk), hands := h))
  {
    SmallerHands(w.hands, h, w.topic, w.book);
    OnlyHandsChange(w, Removed(w.store, r, ackOk).retries, h);
  }

  lemma CrashKeepsInv(w: World, s: Step)
    requires Inv(w) && s.Crash? && Enabled(w, s)
    ensures Inv(Apply(w, s))
  {
    SmallerHands(w.hands, s.survivors, w.topic, w.book);
    OnlyHandsChange(w, w.store.retries, s.survivors);
  }

  lemma StepKeepsInv(w: World, s: Step)
    requires Inv(w) && Enabled(w, s)
    ensures Inv(Apply(w, s))
  {
    if s.Handle? {
      HandleKeepsInv(w, s.position, s.branch);
    } else if s.Enqueue? {
      EnqueueKeepsInv(w, s);
    } else if s.Publish? {
      PublishKeepsInv(w, s);
    } else if s.Pop? {
      PopKeepsInv(w, s);
    } else if s.Fetch? {
      FetchKeepsInv(w, s);
    } else if s.Crash? {
      CrashKeepsInv(w, s);
    } else if s.AckSent? {
      AckKeepsInv(w, s.done, s.ackOk, Apply(w, s).hands);
    } else {
      AckKeepsInv(w, s.dropped, s.ackOk, Apply(w, s).hands);
    }
  }

  /** The invariant holds in every reachable state. */
  lemma {:induction false} RunKeepsInv(w: World, run: seq<Step>)
    requires Inv(w) && ValidRun(w, run)
    ensures Inv(After(w, run))
    decreases |run|
  {
    if run != [] {
      StepKeepsInv(w, run[0]);
      RunKeepsInv(Apply(w, run[0]), run[1..]);
    }
  }
}
