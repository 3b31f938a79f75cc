/** What one handler call leaves and answers, told by the response, the budget and the counters it meets. */
module HandlerAnswers {
  import opened Domain
  import opened Lifecycle
  import opened LifecycleInvariant
  import opened Rebuild
  import opened Topics
  import opened Workers

  // ---------------------------------------------------------------- acknowledgements

  /** Main result: a handler call acknowledges its message exactly when the attempt had been taken up before, the
      message was diverted, the same attempt was rescheduled, or the webhook was delivered, given up or given its next
      attempt; and it acknowledges no other message. */
  lemma AckedIff(w: World, position: nat, b: Branch)
    requires position < |w.topic|
    ensures var m, w' := w.topic[position].webhook, Handled(w, position, b);
            var again := b.Attempted? && !(!b.networkError && 200 <= b.statusCode <= 299) && m.attempt < m.maxAttempts
                         && (b.networkError || b.statusCode in m.request.retryOnStatus
                             || 500 <= b.statusCode || b.statusCode == 408 || b.statusCode == 429);
            && (position in w'.acked <==>
                  || position in w.acked || Ref(m.id, m.attempt) in w.store.markers || b.Diverted?
                  || (b.CircuitOpen? && b.ensureOk && b.scheduleOk)
                  || (b.Attempted? && (again ==> b.ensureOk && b.scheduleOk)))
            && (forall i :: i != position ==> (i in w'.acked <==> i in w.acked))
  {
  }

  /** The same, told by the phase the call leaves the webhook in. */
  lemma AckedUnlessLost(w: World, position: nat, b: Branch)
    requires position < |w.topic| && RefOf(w.topic[position].webhook) !in w.store.markers && b.Attempted?
    ensures position in Handled(w, position, b).acked <==>
            position in w.acked || !PhaseAfter(w.topic[position].webhook, b).Lost?
  {
  }

  // ---------------------------------------------------------------- the response

  /** Main result: a first call that makes the request records the webhook as delivered exactly on a 2xx response.
      Otherwise it goes on to another attempt exactly when one is left and the response is a network error, a status the
      webhook lists, at least 500, 408 or 429, and ends as a dead letter when it does not. */
  lemma ResponseDecides(ttl: int, w: World, position: nat, b: Branch, markerOk: bool)
    requires position < |w.topic| && b.Attempted?
    requires markerOk ==> RefOf(w.topic[position].webhook) !in w.store.markers
    ensures var m, w' := w.topic[position].webhook, HandlerStepFor(ttl, w, position, b, markerOk);
            var delivered := !b.networkError && 200 <= b.statusCode <= 299;
            var again := !delivered && m.attempt < m.maxAttempts
                         && (b.networkError || b.statusCode in m.request.retryOnStatus
                             || 500 <= b.statusCode || b.statusCode == 408 || b.statusCode == 429);
            && w'.deliveries == w.deliveries + [Ref(m.id, m.attempt)]
            && w'.outcomes == w.outcomes + (if delivered then [Outcome(m.id, Delivered)]
                                            else if again then []
                                            else if b.deadLetterOk then [Outcome(m.id, DeadLettered)]
                                            else [Outcome(m.id, ExhaustedUnrecorded)])
            && w'.store.retries == (if again && b.ensureOk && b.scheduleOk
                                    then w.store.retries[Ref(m.id, m.attempt + 1) := b.retryAt / 1_000_000_000]
                                    else w.store.retries)
            && w'.topic == w.topic && w'.hands == w.hands
  {
  }

  /** Main result: the same call keeps the data of a webhook that goes on as it was first stored, stores it if it was
      missing, and removes it at the end; a time to live that is not positive removes it instead of keeping it. */
  lemma ResponseKeepsData(ttl: int, w: World, position: nat, b: Branch, markerOk: bool)
    requires position < |w.topic| && b.Attempted?
    requires markerOk ==> RefOf(w.topic[position].webhook) !in w.store.markers
    ensures var m, w' := w.topic[position].webhook, HandlerStepFor(ttl, w, position, b, markerOk);
            var again := !(!b.networkError && 200 <= b.statusCode <= 299) && m.attempt < m.maxAttempts
                         && (b.networkError || b.statusCode in m.request.retryOnStatus
                             || 500 <= b.statusCode || b.statusCode == 408 || b.statusCode == 429);
            && (again && b.ensureOk && m.id !in w.store.data ==>
                  w'.store.data == w.store.data[m.id := m.(attempt := m.attempt + 1, scheduledAt := b.retryAt)])
            && (again && b.ensureOk && m.id in w.store.data ==>
                  w'.store.data == if 0 < ttl then w.store.data else w.store.data - {m.id})
            && (again && !b.ensureOk ==> w'.store.data == w.store.data)
            && (!again ==> w'.store.data == if b.cleanupOk then w.store.data - {m.id} else w.store.data)
  {
  }

  /** The snapshot has every field of the webhook under its own name. */
  predicate SnapshotTells(s: Snapshot, m: Webhook) {
    && s.webhookId == m.id && s.configId == m.request.configId && s.endpoint == m.request.endpoint
    && s.endpointHash == m.request.endpointHash && s.payload == m.request.payload && s.headers == m.request.headers
    && s.idempotencyKey == m.request.idempotencyKey && s.signingSecret == m.request.signingSecret
    && s.scriptHash == m.request.scriptHash && s.deliveryQueryParams == m.request.deliveryQueryParams
    && s.deliveryHeaders == m.request.deliveryHeaders && s.retryOnStatus == m.request.retryOnStatus
    && s.maxAttempts == m.maxAttempts && s.createdAt == m.createdAt && s.attempt == m.attempt + 1
  }

  /** Main result: the same call publishes a tombstone at the end, and for a retry that is scheduled a failed-state
      snapshot from which the webhook of that retry can be read back. */
  lemma ResponseIsLogged(ttl: int, w: World, position: nat, b: Branch, markerOk: bool)
    requires position < |w.topic| && b.Attempted?
    requires markerOk ==> RefOf(w.topic[position].webhook) !in w.store.markers
    ensures var m, w' := w.topic[position].webhook, HandlerStepFor(ttl, w, position, b, markerOk);
            var again := !(!b.networkError && 200 <= b.statusCode <= 299) && m.attempt < m.maxAttempts
                         && (b.networkError || b.statusCode in m.request.retryOnStatus
                             || 500 <= b.statusCode || b.statusCode == 408 || b.statusCode == 429);
            && (!again ==> w'.stateLog == w.stateLog + [Tombstone(m.id)])
            && (again && !(b.ensureOk && b.scheduleOk) ==> w'.stateLog == w.stateLog)
            && (again && b.ensureOk && b.scheduleOk ==>
                  && |w'.stateLog| == |w.stateLog| + 1 && w'.stateLog[..|w.stateLog|] == w.stateLog
                  && var rec := w'.stateLog[|w.stateLog|];
                     && rec.Snap? && rec.key == m.id
                     && rec.snapshot.state == StateFailed && rec.snapshot.nextRetryAt == Some(b.retryAt)
                     && WebhookOf(rec.snapshot, b.retryAt) == m.(attempt := m.attempt + 1, scheduledAt := b.retryAt)
                     && SnapshotTells(rec.snapshot, m))
  {
  }

  /** Main result: what the call reports, in order: the status while delivering, the outcome for the breaker, and unless
      a retry could not be scheduled, the status and the result the response leads to. */
  lemma ReportsTold(m: Webhook, b: Branch)
    requires b.Attempted?
    ensures var delivered := !b.networkError && 200 <= b.statusCode <= 299;
            var again := !delivered && m.attempt < m.maxAttempts
                         && (b.networkError || b.statusCode in m.request.retryOnStatus
                             || 500 <= b.statusCode || b.statusCode == 408 || b.statusCode == 429);
            var r := Ref(m.id, m.attempt);
            Reports(m, b) ==
              [StatusSet(m.id, StateDelivering, m.attempt + 1), OutcomeRecorded(m.request.endpointHash, delivered)]
              + (if delivered then [StatusSet(m.id, StateDelivered, m.attempt + 1), ResultPublished(r, true, false)]
                 else if !again then [StatusSet(m.id, StateExhausted, m.attempt + 1), ResultPublished(r, false, false)]
                 else if b.ensureOk && b.scheduleOk
                 then [StatusSet(m.id, StateFailed, m.attempt + 2), ResultPublished(r, false, true)]
                 else [])
  {
  }

  /** Main result: a first call that makes no request records nothing. An open circuit schedules the attempt it holds, a
      diverted message goes to the slow lane as it is, a refused one leaves nothing but its marker. */
  lemma NoRequestLeaves(ttl: int, w: World, position: nat, b: Branch, markerOk: bool)
    requires position < |w.topic| && !b.Attempted?
    requires markerOk ==> RefOf(w.topic[position].webhook) !in w.store.markers
    ensures var m, w' := w.topic[position].webhook, HandlerStepFor(ttl, w, position, b, markerOk);
            && w'.deliveries == w.deliveries && w'.outcomes == w.outcomes && w'.stateLog == w.stateLog
            && w'.store.markers == (if markerOk then w.store.markers + {Ref(m.id, m.attempt)} else w.store.markers)
            && w'.topic == (if b.Diverted? then w.topic + [Message(m, true)] else w.topic)
            && w'.store.retries == (if b.CircuitOpen? && b.ensureOk && b.scheduleOk
                                    then w.store.retries[Ref(m.id, m.attempt) := b.retryAt / 1_000_000_000]
                                    else w.store.retries)
            && (m.id !in w.store.data ==>
                  w'.store.data == if b.CircuitOpen? && b.ensureOk
                                   then w.store.data[m.id := m.(scheduledAt := b.retryAt)] else w.store.data)
  {
  }

  /** Main result: a call that finds its attempt taken up leaves everything as it is and has the message
      acknowledged. */
  lemma SkipLeaves(ttl: int, w: World, position: nat, b: Branch)
    requires position < |w.topic| && RefOf(w.topic[position].webhook) in w.store.markers
    ensures HandlerStepFor(ttl, w, position, b, true) == w.(acked := w.acked + {position})
  {
  }

  // ---------------------------------------------------------------- the branch taken

  /** Main result: a call the circuit refuses makes no request. Otherwise a slow-lane message is given back exactly when
      a counter that could be incremented is at its cap, and a fast-lane message is diverted exactly when one is and the
      divert succeeds; every other call makes its request. */
  lemma BranchTold(active: bool, d: nat, domainMax: int, n: nat, max: int, slow: bool, e: Environment)
    ensures var b := BranchOf(DomainGate(active, d, domainMax, slow, e), InflightGate(n, max, slow, e), e);
            var full := active && e.domainIncrOk && d >= domainMax;
            var saturated := e.inflightIncrOk && n >= max;
            && (b.CircuitOpen? <==> !e.circuitAllows)
            && (b.Nacked? <==> e.circuitAllows && slow && (full || saturated))
            && (b.Diverted? <==>
                  e.circuitAllows && !slow && ((full && e.domainDivertOk) || (saturated && e.inflightDivertOk)))
            && (b.CircuitOpen? ==> b == CircuitOpen(e.retryAt, e.ensureOk, e.scheduleOk))
            && (b.Attempted? ==>
                  b == Attempted(e.statusCode, e.networkError, e.retryAt, e.ensureOk, e.scheduleOk, e.deadLetterOk,
                                 e.cleanupOk))
  {
  }

  // ---------------------------------------------------------------- stored data

  /** Main result: no step of any process changes the data stored for a webhook: every retry is published from the
      webhook as it was first stored. */
  lemma StoredOnce(w: World, s: Step, id: WebhookId)
    requires Enabled(w, s) && id in w.store.data && id in Apply(w, s).store.data
    ensures Apply(w, s).store.data[id] == w.store.data[id]
  {
  }
}
