/** The delivery and retry protocol as a transition system over the shared state of all processes:
    the Kafka topics, the Redis retry store and the work schedulers hold in memory.
    Worker handlers are atomic steps; a scheduler's lease, fetch, publish and ack are separate
    steps, and a crash may happen between any two of them. */
module Lifecycle {
  import opened Domain

  /** A webhook on the pending topic, or on the slow lane. */
  datatype Message = Message(webhook: Webhook, slow: bool)

  datatype OutcomeKind = Delivered | DeadLettered | ExhaustedUnrecorded

  /** A terminal outcome. `ExhaustedUnrecorded`: the dead-letter publish failed and was only logged. */
  datatype Outcome = Outcome(id: WebhookId, kind: OutcomeKind)

  datatype Phase = Active | Done(kind: OutcomeKind) | Lost

  /** What has happened to one accepted webhook: the webhook as first published, how many attempts were
      taken up, and the latest retry time. A history variable: no step branches on it, except that an enqueued webhook
      must have an id no webhook had before. */
  datatype Entry = Entry(origin: Webhook, next: int, phase: Phase, due: int)

  type Book = map<WebhookId, Entry>

  /** The Redis side of retries. */
  datatype Store = Store(
    markers: set<Ref>,             // processed:<id>:<attempt>
    retries: map<Ref, int>,        // scored set of references, scores in seconds
    data: map<WebhookId, Webhook>  // retry_data:<id>
  )

  /** What all schedulers together hold in memory. */
  datatype Hands = Hands(
    leased: multiset<Ref>,         // popped, data not fetched yet
    fetched: multiset<Webhook>,    // ready to publish
    sent: multiset<Ref>,           // published, to be acked
    discarded: multiset<Ref>       // data could not be read, to be acked
  )

  datatype World = World(
    topic: seq<Message>,           // both lanes, in publish order
    acked: set<nat>,               // topic positions whose handler returned nil
    store: Store,
    stateLog: seq<StateRecord>,    // state topic
    hands: Hands,
    deliveries: seq<Ref>,          // HTTP requests made
    outcomes: seq<Outcome>,
    book: Book
  )

  const INITIAL :=
    World([], {}, Store({}, map[], map[]), [], Hands(multiset{}, multiset{}, multiset{}, multiset{}), [], [], map[])

  /** How a handler call leaves `processMessage` when the marker was new. The booleans say whether each
      Redis or Kafka effect on the path succeeded. */
  datatype Branch =
    | CircuitOpen(retryAt: int, ensureOk: bool, scheduleOk: bool)
    | Diverted
    | Nacked
    | Attempted(statusCode: int, networkError: bool, retryAt: int,
                ensureOk: bool, scheduleOk: bool, deadLetterOk: bool, cleanupOk: bool)

  datatype PublishOutcome = Published | NotPublished | PublishedButReportedFailed

  datatype Step =
    | Enqueue(webhook: Webhook)
    | Handle(position: nat, branch: Branch)
    | Pop(refs: set<Ref>, until: int)
    | Fetch(ref: Ref, getOk: bool)
    | Publish(next: Webhook, outcome: PublishOutcome)
    | AckSent(done: Ref, ackOk: bool)
    | AckDiscarded(dropped: Ref, ackOk: bool)
    | Crash(survivors: Hands)

  // ---------------------------------------------------------------- steps

  /** One more attempt of `id` has been taken up. */
  function Noted(book: Book, id: WebhookId, phase: Phase, due: int): Book {
    if id in book then book[id := Entry(book[id].origin, book[id].next + 1, phase, due)] else book
  }

  function DueOf(book: Book, id: WebhookId): int {
    if id in book then book[id].due else 0
  }

  /** `EnsureRetryData`: the first stored webhook is kept for every later attempt. */
  function Ensured(data: map<WebhookId, Webhook>, webhook: Webhook): map<WebhookId, Webhook> {
    if webhook.id in data then data else data[webhook.id := webhook]
  }

  /** `scheduleRetry`: data first, then the reference; stops at the first error. */
  function Scheduled(s: Store, webhook: Webhook, at: int, ensureOk: bool, scheduleOk: bool): Store {
    if !ensureOk then s
    else if !scheduleOk then s.(data := Ensured(s.data, webhook))
    else s.(data := Ensured(s.data, webhook), retries := s.retries[RefOf(webhook) := Unix(at)])
  }

  function Cleaned(s: Store, id: WebhookId, cleanupOk: bool): Store {
    if cleanupOk then s.(data := s.data - {id}) else s
  }

  /** The snapshot a worker publishes for a webhook whose attempt has just been advanced. */
  function SnapshotOf(w: Webhook, nextRetryAt: int): Snapshot {
    var q := w.request;
    Snapshot(w.id, q.configId, q.endpoint, q.endpointHash, q.payload, q.headers, q.idempotencyKey, q.signingSecret,
             q.scriptHash, q.deliveryQueryParams, q.deliveryHeaders, q.retryOnStatus,
             StateFailed, w.attempt, w.maxAttempts, w.createdAt, Some(nextRetryAt))
  }

  predicate Succeeds(b: Branch)
    requires b.Attempted?
  {
    !b.networkError && IsSuccess(b.statusCode)
  }

  /** The webhook as rescheduled after a retryable failure. */
  function NextAttempt(m: Webhook, at: int): Webhook {
    m.(attempt := m.attempt + 1, scheduledAt := at)
  }

  function Retried(w: World, position: nat, m: Webhook, b: Branch): World
    requires b.Attempted?
  {
    var m' := NextAttempt(m, b.retryAt);
    var store := Scheduled(w.store, m', b.retryAt, b.ensureOk, b.scheduleOk);
    if b.ensureOk && b.scheduleOk then
      w.(store := store, acked := w.acked + {position},
         stateLog := w.stateLog + [Snap(m.id, SnapshotOf(m', b.retryAt))],
         book := Noted(w.book, m.id, Active, b.retryAt))
    else
      w.(store := store, book := Noted(w.book, m.id, Lost, DueOf(w.book, m.id)))
  }

  function Finished(w: World, position: nat, m: Webhook, kind: OutcomeKind, cleanupOk: bool): World {
    w.(store := Cleaned(w.store, m.id, cleanupOk), acked := w.acked + {position},
       stateLog := w.stateLog + [Tombstone(m.id)],
       outcomes := w.outcomes + [Outcome(m.id, kind)],
       book := Noted(w.book, m.id, Done(kind), DueOf(w.book, m.id)))
  }

  /** `processMessage` once the marker, the circuit and the concurrency gates have let the message through. */
  function Delivering(w: World, position: nat, m: Webhook, b: Branch): World
    requires b.Attempted?
  {
    var w1 := w.(deliveries := w.deliveries + [RefOf(m)]);
    if Succeeds(b) then Finished(w1, position, m, Delivered, b.cleanupOk)
    else if ShouldRetry(m, b.statusCode, b.networkError) then Retried(w1, position, m, b)
    else Finished(w1, position, m, if b.deadLetterOk then DeadLettered else ExhaustedUnrecorded, b.cleanupOk)
  }

  /** `processMessage` on a message whose marker has just been set. */
  function Fresh(w: World, position: nat, m: Webhook, b: Branch): World {
    match b
    case CircuitOpen(at, ensureOk, scheduleOk) =>
      w.(store := Scheduled(w.store, m.(scheduledAt := at), at, ensureOk, scheduleOk),
         acked := if ensureOk && scheduleOk then w.acked + {position} else w.acked,
         book := Noted(w.book, m.id, Lost, DueOf(w.book, m.id)))
    case Diverted =>
      w.(topic := w.topic + [Message(m, true)], acked := w.acked + {position},
         book := Noted(w.book, m.id, Lost, DueOf(w.book, m.id)))
    case Nacked =>
      w.(book := Noted(w.book, m.id, Lost, DueOf(w.book, m.id)))
    case Attempted(_, _, _, _, _, _, _) =>
      Delivering(w, position, m, b)
  }

  /** `processMessage`: skip and ack an attempt already taken up, otherwise mark it and go on. */
  function Handled(w: World, position: nat, b: Branch): World
    requires position < |w.topic|
  {
    var m := w.topic[position].webhook;
    if RefOf(m) in w.store.markers then w.(acked := w.acked + {position})
    else Fresh(w.(store := w.store.(markers := w.store.markers + {RefOf(m)})), position, m, b)
  }

  /** `PopAndLockRetries`: membership unchanged, the popped references re-scored. */
  function Relocked(retries: map<Ref, int>, refs: set<Ref>, until: int): map<Ref, int> {
    map r | r in retries :: if r in refs then until else retries[r]
  }

  // ---------------------------------------------------------------- the time to live of retry data

  /** `EnsureRetryData` when the configured time to live is `ttl`: on data that is there, an EXPIRE that is not positive
      deletes it and still reports it as found. */
  function EnsuredFor(ttl: int, data: map<WebhookId, Webhook>, webhook: Webhook): map<WebhookId, Webhook> {
    if ttl <= 0 && webhook.id in data then data - {webhook.id} else Ensured(data, webhook)
  }

  function ScheduledFor(ttl: int, s: Store, webhook: Webhook, at: int, ensureOk: bool, scheduleOk: bool): Store {
    var s' := Scheduled(s, webhook, at, ensureOk, scheduleOk);
    if ensureOk then s'.(data := EnsuredFor(ttl, s.data, webhook)) else s'
  }

  /** The branch reschedules the webhook and so touches its data. */
  predicate Reschedules(m: Webhook, b: Branch) {
    b.CircuitOpen? || (b.Attempted? && !Succeeds(b) && ShouldRetry(m, b.statusCode, b.networkError))
  }

  /** The call deletes the data it means to keep. */
  predicate DropsData(ttl: int, s: Store, m: Webhook, b: Branch) {
    ttl <= 0 && m.id in s.data && Reschedules(m, b) && b.ensureOk
  }

  function WithoutData(w: World, id: WebhookId, drops: bool): World {
    if drops then w.(store := w.store.(data := w.store.data - {id})) else w
  }

  /** `Fresh` and `Handled` when the configured time to live is `ttl`. */
  function FreshFor(ttl: int, w: World, position: nat, m: Webhook, b: Branch): World {
    WithoutData(Fresh(w, position, m, b), m.id, DropsData(ttl, w.store, m, b))
  }

  function HandledFor(ttl: int, w: World, position: nat, b: Branch): World
    requires position < |w.topic|
  {
    var m := w.topic[position].webhook;
    WithoutData(Handled(w, position, b), m.id, RefOf(m) !in w.store.markers && DropsData(ttl, w.store, m, b))
  }

  /** `after` is `before` with `refs` leased. */
  predicate IsLeased(before: Store, after: Store, refs: set<Ref>, until: int) {
    && after.markers == before.markers && after.data == before.data
    && after.retries.Keys == before.retries.Keys
    && forall r :: r in after.retries ==> after.retries[r] == if r in refs then until else before.retries[r]
  }

  predicate Enabled(w: World, s: Step) {
    match s
    case Enqueue(webhook) => webhook.id !in w.book && webhook.attempt == 0
    case Handle(position, _) => position < |w.topic|
    case Pop(refs, _) => refs <= w.store.retries.Keys
    case Fetch(ref, _) => ref in w.hands.leased
    case Publish(next, _) => next in w.hands.fetched
    case AckSent(ref, _) => ref in w.hands.sent
    case AckDiscarded(ref, _) => ref in w.hands.discarded
    case Crash(h) =>
      h.leased <= w.hands.leased && h.fetched <= w.hands.fetched && h.sent <= w.hands.sent &&
          h.discarded <= w.hands.discarded
  }

  function Fetching(w: World, ref: Ref, getOk: bool): World {
    var h := w.hands.(leased := w.hands.leased - multiset{ref});
    if getOk && ref.id in w.store.data
    then w.(hands := h.(fetched := h.fetched + multiset{w.store.data[ref.id].(attempt := ref.attempt)}))
    else w.(hands := h.(discarded := h.discarded + multiset{ref}))
  }

  function Publishing(w: World, next: Webhook, outcome: PublishOutcome): World {
    var h := w.hands.(fetched := w.hands.fetched - multiset{next});
    w.(topic := if outcome.NotPublished? then w.topic else w.topic + [Message(next, false)],
       hands := if outcome.Published? then h.(sent := h.sent + multiset{RefOf(next)}) else h)
  }

  function Removed(s: Store, ref: Ref, ackOk: bool): Store {
    if ackOk then s.(retries := s.retries - {ref}) else s
  }

  function Apply(w: World, s: Step): World
    requires Enabled(w, s)
  {
    match s
    case Enqueue(webhook) =>
      w.(topic := w.topic + [Message(webhook, false)], book := w.book[webhook.id := Entry(webhook, 0, Active, 0)])
    case Handle(position, branch) => Handled(w, position, branch)
    case Pop(refs, until) =>
      w.(store := w.store.(retries := Relocked(w.store.retries, refs, until)),
         hands := w.hands.(leased := w.hands.leased + multiset(refs)))
    case Fetch(ref, getOk) => Fetching(w, ref, getOk)
    case Publish(next, outcome) => Publishing(w, next, outcome)
    case AckSent(ref, ackOk) =>
      w.(store := Removed(w.store, ref, ackOk), hands := w.hands.(sent := w.hands.sent - multiset{ref}))
    case AckDiscarded(ref, ackOk) =>
      w.(store := Removed(w.store, ref, ackOk), hands := w.hands.(discarded := w.hands.discarded - multiset{ref}))
    case Crash(survivors) =>
      w.(hands := survivors)
  }

  /** Every step of the run is possible in the state it is taken in. */
  predicate ValidRun(w: World, run: seq<Step>)
    decreases |run|
  {
    run == [] || (Enabled(w, run[0]) && ValidRun(Apply(w, run[0]), run[1..]))
  }

  function After(w: World, run: seq<Step>): World
    requires ValidRun(w, run)
    decreases |run|
  {
    if run == [] then w else After(Apply(w, run[0]), run[1..])
  }

  lemma OneStep(w: World, s: Step)
    requires Enabled(w, s)
    ensures ValidRun(w, [s]) && After(w, [s]) == Apply(w, s)
  {
    assert [s][1..] == [];
  }

  lemma ThenStep(w: World, s: Step, rest: seq<Step>)
    requires Enabled(w, s) && ValidRun(Apply(w, s), rest)
    ensures ValidRun(w, [s] + rest) && After(w, [s] + rest) == After(Apply(w, s), rest)
  {
    assert ([s] + rest)[1..] == rest;
  }

  lemma {:induction false} JoinRuns(w: World, a: seq<Step>, b: seq<Step>)
    requires ValidRun(w, a) && ValidRun(After(w, a), b)
    ensures ValidRun(w, a + b) && After(w, a + b) == After(After(w, a), b)
    decreases |a|
  {
    if a == [] {
      assert a + b == b;
    } else {
      JoinRuns(Apply(w, a[0]), a[1..], b);
      assert (a + b)[1..] == a[1..] + b;
    }
  }
}
