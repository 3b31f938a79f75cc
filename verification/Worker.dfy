/** The delivery worker: `processMessage` step by step, over the live store, topics and counters. */
module Workers {
  import opened Domain
  import opened Lifecycle
  import opened LifecycleInvariant
  import opened Reference
  import opened HotStates
  import opened Topics
  import opened Slots

  /** Everything outside the worker that decides how one call goes. Each `Ok` says whether that command or publish
      succeeds; `circuitAllows` is the breaker's answer, true when the breaker fails. */
  datatype Environment = Environment(
    markerOk: bool, circuitAllows: bool,
    domainIncrOk: bool, domainUndoOk: bool, domainDivertOk: bool, domainReleaseOk: bool,
    inflightIncrOk: bool, inflightUndoOk: bool, inflightDivertOk: bool, reacquireOk: bool, inflightReleaseOk: bool,
    statusCode: int, networkError: bool, reason: string, retryAt: int,
    ensureOk: bool, scheduleOk: bool, deadLetterOk: bool, cleanupOk: bool)

  /** The results of `runConcurrencyGate`: a slot to release, no slot, forwarded to the slow lane, or to be
      redelivered. */
  datatype Gate = Held | Free | Forwarded | Refused

  // ---------------------------------------------------------------- what a call does

  /** The domain gate: a failed increment proceeds as if holding a slot. */
  function DomainGate(active: bool, count: nat, max: int, slow: bool, e: Environment): Gate {
    if !active then Free
    else if !e.domainIncrOk || count + 1 <= max then Held
    else if slow then Refused
    else if e.domainDivertOk then Forwarded
    else Free
  }

  function DomainCount(active: bool, count: nat, max: int, e: Environment): nat {
    if !active || !e.domainIncrOk then count
    else if count + 1 <= max || !e.domainUndoOk then count + 1
    else count
  }

  /** The in-flight gate: a failed increment proceeds without a slot, a failed divert re-acquires one. */
  function InflightGate(count: nat, max: int, slow: bool, e: Environment): Gate {
    if !e.inflightIncrOk then Free
    else if count + 1 <= max then Held
    else if slow then Refused
    else if e.inflightDivertOk then Forwarded
    else Held
  }

  function InflightCount(count: nat, max: int, slow: bool, e: Environment): nat {
    if !e.inflightIncrOk then count
    else if count + 1 <= max then count + 1
    else
      var undone := if e.inflightUndoOk then count else count + 1;
      if !slow && !e.inflightDivertOk && e.reacquireOk then undone + 1 else undone
  }

  function ReleasedCount(count: nat, gate: Gate, releaseOk: bool): nat {
    if gate.Held? && releaseOk then Down(count) else count
  }

  function Passes(g: Gate): bool {
    g.Held? || g.Free?
  }

  /** The call reaches the gates: its marker is new, or could not be checked, and the circuit lets it through. */
  predicate ReachesGates(marked: bool, e: Environment) {
    (!e.markerOk || !marked) && e.circuitAllows
  }

  function DomainAfter(active: bool, count: nat, max: int, slow: bool, e: Environment): nat {
    ReleasedCount(DomainCount(active, count, max, e), DomainGate(active, count, max, slow, e), e.domainReleaseOk)
  }

  function InflightAfter(count: nat, max: int, slow: bool, e: Environment): nat {
    ReleasedCount(InflightCount(count, max, slow, e), InflightGate(count, max, slow, e), e.inflightReleaseOk)
  }

  function BranchOf(domain: Gate, inflight: Gate, e: Environment): Branch {
    if !e.circuitAllows then CircuitOpen(e.retryAt, e.ensureOk, e.scheduleOk)
    else if domain.Forwarded? || (Passes(domain) && inflight.Forwarded?) then Diverted
    else if domain.Refused? || inflight.Refused? then Nacked
    else Attempted(e.statusCode, e.networkError, e.retryAt, e.ensureOk, e.scheduleOk, e.deadLetterOk, e.cleanupOk)
  }

  /** The protocol step of a handler call; a marker that could not be checked is not set. */
  function HandlerStep(w: World, position: nat, b: Branch, markerOk: bool): World
    requires position < |w.topic|
  {
    if markerOk then Handled(w, position, b) else Fresh(w, position, w.topic[position].webhook, b)
  }

  /** The same when the configured time to live of retry data is `ttl`. */
  function HandlerStepFor(ttl: int, w: World, position: nat, b: Branch, markerOk: bool): World
    requires position < |w.topic|
  {
    if markerOk then HandledFor(ttl, w, position, b) else FreshFor(ttl, w, position, w.topic[position].webhook, b)
  }

  /** What follows the response. */
  function Concluded(ttl: int, w: World, position: nat, m: Webhook, b: Branch): World
    requires b.Attempted?
  {
    if Succeeds(b) then Finished(w, position, m, Delivered, b.cleanupOk)
    else if ShouldRetry(m, b.statusCode, b.networkError)
    then WithoutData(Retried(w, position, m, b), m.id, DropsData(ttl, w.store, m, b))
    else Finished(w, position, m, if b.deadLetterOk then DeadLettered else ExhaustedUnrecorded, b.cleanupOk)
  }

  lemma RequestThenConclude(ttl: int, w: World, position: nat, m: Webhook, b: Branch)
    requires b.Attempted?
    ensures Concluded(ttl, w.(deliveries := w.deliveries + [RefOf(m)]), position, m, b)
            == WithoutData(Delivering(w, position, m, b), m.id, DropsData(ttl, w.store, m, b))
  {
  }

  /** Setting the marker, then going on from there, is one handler step. */
  lemma MarkThenGoOn(ttl: int, w: World, position: nat, b: Branch, markerOk: bool, marked: World)
    requires position < |w.topic|
    requires var r := RefOf(w.topic[position].webhook);
             marked == if markerOk then w.(store := w.store.(markers := w.store.markers + {r})) else w
    requires markerOk ==> RefOf(w.topic[position].webhook) !in w.store.markers
    ensures FreshFor(ttl, marked, position, w.topic[position].webhook, b) ==
        HandlerStepFor(ttl, w, position, b, markerOk)
  {
  }

  /** With a positive time to live the data is kept. */
  lemma PositiveTtl(ttl: int, w: World, position: nat, b: Branch, markerOk: bool)
    requires position < |w.topic| && 0 < ttl
    ensures HandlerStepFor(ttl, w, position, b, markerOk) == HandlerStep(w, position, b, markerOk)
  {
  }

  /** The response asks for another attempt: it is no success, an attempt is left, and it is a network error, a status
      the webhook lists, a server error, a request timeout or too many requests. */
  predicate WantsRetry(m: Webhook, statusCode: int, networkError: bool) {
    && !(!networkError && 200 <= statusCode <= 299)
    && m.attempt < m.maxAttempts
    && (networkError || statusCode in m.request.retryOnStatus || 500 <= statusCode || statusCode in {408, 429})
  }

  /** A call that gets past its marker returns nil, and so has its message acknowledged. */
  predicate ReturnsNil(m: Webhook, b: Branch) {
    match b
    case CircuitOpen(_, ensureOk, scheduleOk) => ensureOk && scheduleOk
    case Diverted => true
    case Nacked => false
    case Attempted(statusCode, networkError, _, ensureOk, scheduleOk, _, _) =>
      WantsRetry(m, statusCode, networkError) ==> ensureOk && scheduleOk
  }

  /** What the call reports, in order, on the branch it takes. */
  function Reports(m: Webhook, b: Branch): seq<Report> {
    if !b.Attempted? then []
    else
      [StatusSet(m.id, StateDelivering, m.attempt + 1), OutcomeRecorded(m.request.endpointHash, Succeeds(b))]
      + EndReports(m, PhaseAfter(m, b))
  }

  function EndReports(m: Webhook, phase: Phase): seq<Report> {
    match phase
    case Lost => []
    case Active => [StatusSet(m.id, StateFailed, m.attempt + 2), ResultPublished(RefOf(m), false, true)]
    case Done(kind) =>
      [StatusSet(m.id, if kind.Delivered? then StateDelivered else StateExhausted, m.attempt + 1),
       ResultPublished(RefOf(m), kind.Delivered?, false)]
  }

  /** The status a reader finds after these reports, and the outcomes the breaker has been given. */
  function LastStatus(reports: seq<Report>): Option<WebhookState> {
    if reports == [] then None
    else if reports[|reports| - 1].StatusSet? then Some(reports[|reports| - 1].state)
    else LastStatus(reports[..|reports| - 1])
  }

  function OutcomesRecorded(reports: seq<Report>): seq<bool> {
    if reports == [] then []
    else
      var front, last := OutcomesRecorded(reports[..|reports| - 1]), reports[|reports| - 1];
      if last.OutcomeRecorded? then front + [last.good] else front
  }

  /** A delivery gives the breaker exactly one outcome, and leaves the status that tells its phase: a webhook whose
      retry could not be scheduled is left delivering. */
  lemma ReportsTellPhase(m: Webhook, b: Branch)
    requires b.Attempted?
    ensures OutcomesRecorded(Reports(m, b)) == [Succeeds(b)]
    ensures LastStatus(Reports(m, b)) == Some(match PhaseAfter(m, b)
                                              case Lost => StateDelivering
                                              case Active => StateFailed
                                              case Done(kind) => if kind.Delivered? then StateDelivered
                                                else StateExhausted)
  {
    var delivering, recorded :=
        StatusSet(m.id, StateDelivering, m.attempt + 1), OutcomeRecorded(m.request.endpointHash, Succeeds(b));
    var rs, ends := Reports(m, b), EndReports(m, PhaseAfter(m, b));
    OneMoreReport([], delivering);
    OneMoreReport([delivering], recorded);
    assert [delivering] + [recorded] == [delivering, recorded];
    if ends == [] {
      assert rs == [delivering, recorded];
    } else {
      OneMoreReport([delivering, recorded], ends[0]);
      OneMoreReport([delivering, recorded] + [ends[0]], ends[1]);
      assert rs == [delivering, recorded] + [ends[0]] + [ends[1]];
    }
  }

  lemma OneMoreReport(reports: seq<Report>, r: Report)
    ensures LastStatus(reports + [r]) == if r.StatusSet? then Some(r.state) else LastStatus(reports)
    ensures OutcomesRecorded(reports + [r]) == if r.OutcomeRecorded? then OutcomesRecorded(reports) + [r.good]
        else OutcomesRecorded(reports)
  {
    assert (reports + [r])[..|reports|] == reports;
  }

  /** No Redis command on either counter fails. */
  predicate CountersReachable(e: Environment) {
    && e.domainIncrOk && e.domainUndoOk && e.domainReleaseOk
    && e.inflightIncrOk && e.inflightUndoOk && e.reacquireOk && e.inflightReleaseOk
  }

  /** Main result: every path through the gates, the failed diverts included, leaves both counters as it found them. */
  lemma GatesBalance(active: bool, domainCount: nat, domainMax: int, count: nat, max: int, slow: bool, e: Environment)
    requires CountersReachable(e)
    ensures DomainAfter(active, domainCount, domainMax, slow, e) == domainCount
    ensures InflightAfter(count, max, slow, e) == count
  {
  }

  class Worker {
    const hot: HotState
    const broker: Broker
    const journal: Journal
    const domains: Counters
    const inflight: Counters
    const limitDomains: bool
    const domainOf: string -> string      // host of an endpoint
    const domainMax: string -> int        // override or default
    const maxInflight: int
    const dataTtl: int                    // ttl.retry_data_ttl

    constructor (hot: HotState, broker: Broker, journal: Journal, domains: Counters, inflight: Counters,
        limitDomains: bool,
                 domainOf: string -> string, domainMax: string -> int, maxInflight: int, dataTtl: int)
      requires domains != inflight
      ensures this.hot == hot && this.broker == broker && this.journal == journal && this.domains == domains &&
          this.inflight == inflight
      ensures this.limitDomains == limitDomains && this.domainOf == domainOf && this.domainMax == domainMax &&
          this.maxInflight == maxInflight
      ensures this.dataTtl == dataTtl
      ensures Valid() <==> hot.Valid()
    {
      this.hot, this.broker, this.journal, this.domains, this.inflight := hot, broker, journal, domains, inflight;
      this.limitDomains, this.domainOf, this.domainMax, this.maxInflight :=
          limitDomains, domainOf, domainMax, maxInflight;
      this.dataTtl := dataTtl;
    }

    ghost predicate Valid()
      reads hot
    {
      hot.Valid() && domains != inflight
    }

    /** `scheduleRetry`: store the data if it is missing, then the reference. */
    method ScheduleRetry(webhook: Webhook, at: int, reason: string, ensureOk: bool, scheduleOk: bool) returns (ok: bool)
      requires hot.Valid() && ':' !in webhook.id && IsInt64(webhook.attempt)
      modifies hot
      ensures hot.Valid() && hot.View() == ScheduledFor(dataTtl, old(hot.View()), webhook, at, ensureOk, scheduleOk)
      ensures ok == (ensureOk && scheduleOk)
    {
      ok := hot.EnsureRetryData(webhook, dataTtl, ensureOk);
      if ok {
        ok := hot.ScheduleRetry(webhook.id, webhook.attempt, at, reason, scheduleOk);
      }
    }

    /** A terminal outcome: tombstone on the state topic, then the stored retry data is deleted. */
    method Finish(m: Webhook, kind: OutcomeKind, cleanupOk: bool)
      requires hot.Valid()
      modifies hot, broker, journal
      ensures journal.reports == old(journal.reports) + EndReports(m, Done(kind))
      ensures hot.Valid() && hot.View() == Cleaned(old(hot.View()), m.id, cleanupOk)
      ensures broker.stateLog == old(broker.stateLog) + [Tombstone(m.id)]
      ensures broker.outcomes == old(broker.outcomes) + [Outcome(m.id, kind)]
      ensures broker.book == Noted(old(broker.book), m.id, Done(kind), DueOf(old(broker.book), m.id))
      ensures unchanged(broker`messages) && unchanged(broker`acked) && unchanged(broker`deliveries)
    {
      journal.reports := journal.reports +
          [StatusSet(m.id, if kind.Delivered? then StateDelivered else StateExhausted, m.attempt + 1),
                                            ResultPublished(RefOf(m), kind.Delivered?, false)];
      broker.stateLog := broker.stateLog + [Tombstone(m.id)];
      broker.outcomes := broker.outcomes + [Outcome(m.id, kind)];
      broker.book := Noted(broker.book, m.id, Done(kind), DueOf(broker.book, m.id));
      hot.DeleteRetryData(m.id, cleanupOk);
    }

    /** A retryable failure: reschedule the next attempt and publish its snapshot, or give the message back. */
    method Retry(m: Webhook, e: Environment) returns (ok: bool)
      requires hot.Valid() && ':' !in m.id && IsInt64(m.attempt + 1)
      modifies hot, broker, journal
      ensures hot.Valid() && ok == (e.ensureOk && e.scheduleOk)
      ensures journal.reports == old(journal.reports) + EndReports(m, if ok then Active else Lost)
      ensures var next := NextAttempt(m, e.retryAt);
              && hot.View() == ScheduledFor(dataTtl, old(hot.View()), next, e.retryAt, e.ensureOk, e.scheduleOk)
              && broker.stateLog == (if ok then old(broker.stateLog) + [Snap(m.id, SnapshotOf(next, e.retryAt))]
                  else old(broker.stateLog))
      ensures broker.book == if ok then Noted(old(broker.book), m.id, Active, e.retryAt)
                             else Noted(old(broker.book), m.id, Lost, DueOf(old(broker.book), m.id))
      ensures unchanged(broker`messages) && unchanged(broker`acked) && unchanged(broker`deliveries) &&
          unchanged(broker`outcomes)
    {
      var next := m.(attempt := m.attempt + 1, scheduledAt := e.retryAt);
      ok := ScheduleRetry(next, e.retryAt, e.reason, e.ensureOk, e.scheduleOk);
      if ok {
        broker.stateLog := broker.stateLog + [Snap(m.id, SnapshotOf(next, e.retryAt))];
        broker.book := Noted(broker.book, m.id, Active, e.retryAt);
        journal.reports := journal.reports +
            [StatusSet(m.id, StateFailed, m.attempt + 2), ResultPublished(RefOf(m), false, true)];
      } else {
        broker.book := Noted(broker.book, m.id, Lost, DueOf(broker.book, m.id));
      }
    }

    /** `scheduleRetryForCircuit`: the same attempt is scheduled again. */
    method ScheduleRetryForCircuit(position: nat, m: Webhook, e: Environment, ghost hands: Hands) returns (ok: bool)
      requires hot.Valid() && ':' !in m.id && IsInt64(m.attempt)
      modifies hot, broker`book
      ensures hot.Valid() && Leaves(position, m, CircuitOpen(e.retryAt, e.ensureOk, e.scheduleOk), hands, ok)
      ensures ok == (e.ensureOk && e.scheduleOk)
    {
      ok := ScheduleRetry(m.(scheduledAt := e.retryAt), e.retryAt, "circuit_open", e.ensureOk, e.scheduleOk);
      broker.book := Noted(broker.book, m.id, Lost, DueOf(broker.book, m.id));
    }

    /** After the response: delivered, retried or exhausted. The message is not acknowledged here. */
    method Conclude(position: nat, m: Webhook, e: Environment, ghost b: Branch, ghost hands: Hands) returns (ok: bool)
      requires hot.Valid() && ':' !in m.id && IsInt64(m.attempt) && IsInt64(m.maxAttempts)
      requires b == Attempted(e.statusCode, e.networkError, e.retryAt, e.ensureOk, e.scheduleOk, e.deadLetterOk,
          e.cleanupOk)
      modifies hot, broker, journal
      ensures hot.Valid() && unchanged(broker`acked)
      ensures ok == ReturnsNil(m, b)
      ensures journal.reports == old(journal.reports) + EndReports(m, PhaseAfter(m, b))
      ensures var w' := Concluded(dataTtl, old(WorldOf(hot, broker, hands)), position, m, b);
              && WorldOf(hot, broker, hands) == w'.(acked := old(broker.acked))
              && w'.acked == (if ok then old(broker.acked) + {position} else old(broker.acked))
    {
      ok := true;
      if !e.networkError && IsSuccess(e.statusCode) {
        Finish(m, Delivered, e.cleanupOk);
      } else if ShouldRetry(m, e.statusCode, e.networkError) {
        ok := Retry(m, e);
      } else {
        Finish(m, if e.deadLetterOk then DeadLettered else ExhaustedUnrecorded, e.cleanupOk);
      }
    }

    /** The delivery half: one HTTP request, its outcome given to the breaker, then its conclusion. */
    method Deliver(position: nat, m: Webhook, e: Environment, ghost b: Branch, ghost hands: Hands) returns (ok: bool)
      requires hot.Valid() && ':' !in m.id && IsInt64(m.attempt) && IsInt64(m.maxAttempts)
      requires b == Attempted(e.statusCode, e.networkError, e.retryAt, e.ensureOk, e.scheduleOk, e.deadLetterOk,
          e.cleanupOk)
      modifies hot, broker, journal
      ensures hot.Valid() && unchanged(broker`acked)
      ensures ok == ReturnsNil(m, b)
      ensures journal.reports == old(journal.reports) + Reports(m, b)
      ensures var w := old(WorldOf(hot, broker, hands));
              var w' := WithoutData(Delivering(w, position, m, b), m.id, DropsData(dataTtl, w.store, m, b));
              && WorldOf(hot, broker, hands) == w'.(acked := old(broker.acked))
              && w'.acked == (if ok then old(broker.acked) + {position} else old(broker.acked))
    {
      ghost var w, reports := WorldOf(hot, broker, hands), journal.reports;
      journal.reports := journal.reports + [StatusSet(m.id, StateDelivering, m.attempt + 1)];
      broker.deliveries := broker.deliveries + [RefOf(m)];
      journal.reports := journal.reports +
          [OutcomeRecorded(m.request.endpointHash, !e.networkError && IsSuccess(e.statusCode))];
      assert WorldOf(hot, broker, hands) == w.(deliveries := w.deliveries + [RefOf(m)]);
      ok := Conclude(position, m, e, b, hands);
      RequestThenConclude(dataTtl, w, position, m, b);
      assert journal.reports == reports + Reports(m, b);
    }

    /** `PublishToSlow`. */
    method Forward(m: Webhook, publishOk: bool)
      modifies broker`messages
      ensures broker.messages == if publishOk then old(broker.messages) + [Message(m, true)] else old(broker.messages)
    {
      if publishOk {
        broker.messages := broker.messages + [Message(m, true)];
      }
    }

    /** The domain gate of `runConcurrencyGate`: INCR, compare, undo, then forward or refuse. */
    method PassDomainGate(m: Webhook, slow: bool, e: Environment) returns (gate: Gate)
      modifies domains, broker`messages
      ensures var key := domainOf(m.request.endpoint);
              var count := Count(old(domains.values), key);
              && gate == DomainGate(limitDomains, count, domainMax(key), slow, e)
              && (forall k :: Count(domains.values, k) ==
                    if k == key then DomainCount(limitDomains, count, domainMax(key), e)
                        else Count(old(domains.values), k))
      ensures broker.messages == if gate.Forwarded? then old(broker.messages) + [Message(m, true)]
          else old(broker.messages)
    {
      if !limitDomains {
        return Free;
      }
      var key := domainOf(m.request.endpoint);
      var count, ok := domains.Incr(key, e.domainIncrOk);
      if !ok {
        return Held;
      }
      if count <= domainMax(key) {
        return Held;
      }
      domains.Decr(key, e.domainUndoOk);
      if slow {
        return Refused;
      }
      Forward(m, e.domainDivertOk);
      gate := if e.domainDivertOk then Forwarded else Free;
    }

    /** The in-flight gate; when the divert fails the slot is taken again so that the release balances. */
    method PassInflightGate(m: Webhook, slow: bool, e: Environment) returns (gate: Gate)
      modifies inflight, broker`messages
      ensures var key := m.request.endpointHash;
              var count := Count(old(inflight.values), key);
              && gate == InflightGate(count, maxInflight, slow, e)
              && (forall k :: Count(inflight.values, k) ==
                    if k == key then InflightCount(count, maxInflight, slow, e) else Count(old(inflight.values), k))
      ensures broker.messages == if gate.Forwarded? then old(broker.messages) + [Message(m, true)]
          else old(broker.messages)
    {
      var key := m.request.endpointHash;
      var count, ok := inflight.Incr(key, e.inflightIncrOk);
      if !ok {
        return Free;
      }
      if count <= maxInflight {
        return Held;
      }
      inflight.Decr(key, e.inflightUndoOk);
      if slow {
        return Refused;
      }
      Forward(m, e.inflightDivertOk);
      if e.inflightDivertOk {
        return Forwarded;
      }
      var _, _ := inflight.Incr(key, e.reacquireOk);
      return Held;
    }

    /** The state a handler call leaves, before its caller acknowledges the message. */
    twostate predicate Leaves(position: nat, m: Webhook, b: Branch, hands: Hands, ok: bool)
      requires old(hot.Valid()) && hot.Valid()
      reads hot, broker
    {
      var w' := FreshFor(dataTtl, old(WorldOf(hot, broker, hands)), position, m, b);
      && WorldOf(hot, broker, hands) == w'.(acked := old(broker.acked))
      && w'.acked == (if ok then old(broker.acked) + {position} else old(broker.acked))
    }

    /** The in-flight gate and whatever follows it, with the deferred release. */
    method PassInflight(position: nat, m: Webhook, slow: bool, e: Environment, ghost b: Branch,
        ghost hands: Hands) returns (ok: bool)
      requires Valid() && e.circuitAllows && ':' !in m.id && IsInt64(m.attempt) && IsInt64(m.maxAttempts)
      requires b == BranchOf(Free, InflightGate(Count(inflight.values, m.request.endpointHash), maxInflight, slow, e),
          e)
      modifies hot, broker, journal, inflight
      ensures Valid() && Leaves(position, m, b, hands, ok)
      ensures ok == ReturnsNil(m, b)
      ensures journal.reports == old(journal.reports) + Reports(m, b)
      ensures var hash := m.request.endpointHash;
              && Count(inflight.values, hash) == InflightAfter(Count(old(inflight.values), hash), maxInflight, slow, e)
              && (forall k :: k != hash ==> Count(inflight.values, k) == Count(old(inflight.values), k))
    {
      var gate := PassInflightGate(m, slow, e);
      if !Passes(gate) {
        broker.book := Noted(broker.book, m.id, Lost, DueOf(broker.book, m.id));
        return gate.Forwarded?;
      }
      ok := Deliver(position, m, e, b, hands);
      if gate.Held? {
        inflight.Decr(m.request.endpointHash, e.inflightReleaseOk);
      }
    }

    /** Both gates and whatever follows them, with the two deferred releases. */
    method PassGates(position: nat, m: Webhook, slow: bool, e: Environment, ghost hands: Hands) returns (ok: bool,
        ghost b: Branch)
      requires Valid() && e.circuitAllows && ':' !in m.id && IsInt64(m.attempt) && IsInt64(m.maxAttempts)
      modifies hot, broker, journal, domains, inflight
      ensures Valid() && Leaves(position, m, b, hands, ok)
      ensures ok == ReturnsNil(m, b)
      ensures journal.reports == old(journal.reports) + Reports(m, b)
      ensures var host, hash := domainOf(m.request.endpoint), m.request.endpointHash;
              var d, n := Count(old(domains.values), host), Count(old(inflight.values), hash);
              var gate := DomainGate(limitDomains, d, domainMax(host), slow, e);
              && b == BranchOf(gate, InflightGate(n, maxInflight, slow, e), e)
              && Count(domains.values, host) == DomainAfter(limitDomains, d, domainMax(host), slow, e)
              && Count(inflight.values, hash) == (if Passes(gate) then InflightAfter(n, maxInflight, slow, e) else n)
              && (forall k :: k != host ==> Count(domains.values, k) == Count(old(domains.values), k))
              && (forall k :: k != hash ==> Count(inflight.values, k) == Count(old(inflight.values), k))
    {
      var domainGate := PassDomainGate(m, slow, e);
      b := BranchOf(domainGate, InflightGate(Count(inflight.values, m.request.endpointHash), maxInflight, slow, e), e);
      if !Passes(domainGate) {
        broker.book := Noted(broker.book, m.id, Lost, DueOf(broker.book, m.id));
        return domainGate.Forwarded?, b;
      }
      ok := PassInflight(position, m, slow, e, b, hands);
      if domainGate.Held? {
        domains.Decr(domainOf(m.request.endpoint), e.domainReleaseOk);
      }
    }

    /** What follows the marker check: the circuit, then the gates. */
    method Proceed(position: nat, m: Webhook, slow: bool, e: Environment, ghost hands: Hands) returns (ok: bool,
        ghost b: Branch)
      requires Valid() && ':' !in m.id && IsInt64(m.attempt) && IsInt64(m.maxAttempts)
      modifies hot, broker, journal, domains, inflight
      ensures Valid() && Leaves(position, m, b, hands, ok)
      ensures ok == ReturnsNil(m, b)
      ensures journal.reports == old(journal.reports) + Reports(m, b)
      ensures var host, hash := domainOf(m.request.endpoint), m.request.endpointHash;
              var d, n := Count(old(domains.values), host), Count(old(inflight.values), hash);
              var gate := DomainGate(limitDomains, d, domainMax(host), slow, e);
              && b == BranchOf(gate, InflightGate(n, maxInflight, slow, e), e)
              && Count(domains.values, host) ==
                  (if e.circuitAllows then DomainAfter(limitDomains, d, domainMax(host), slow, e) else d)
              && Count(inflight.values, hash) ==
                  (if e.circuitAllows && Passes(gate) then InflightAfter(n, maxInflight, slow, e) else n)
              && (forall k :: k != host ==> Count(domains.values, k) == Count(old(domains.values), k))
              && (forall k :: k != hash ==> Count(inflight.values, k) == Count(old(inflight.values), k))
    {
      if e.circuitAllows {
        ok, b := PassGates(position, m, slow, e, hands);
      } else {
        b := CircuitOpen(e.retryAt, e.ensureOk, e.scheduleOk);
        ok := ScheduleRetryForCircuit(position, m, e, hands);
      }
    }

    /** `processMessage`, and the acknowledgement its caller makes when it returns nil. It takes exactly one handler
        step of the protocol, on the branch its environment and the gates select, and moves the counters as the gates
        say. */
    method ProcessMessage(position: nat, e: Environment, ghost hands: Hands) returns (ok: bool, ghost b: Branch)
      requires Valid() && position < |broker.messages|
      requires var m := broker.messages[position].webhook; ':' !in m.id && IsInt64(m.attempt) && IsInt64(m.maxAttempts)
      modifies hot, broker, journal, domains, inflight
      ensures Valid()
      ensures var m := old(broker.messages)[position].webhook;
              ok == ((e.markerOk && RefOf(m) in old(hot.View()).markers) || ReturnsNil(m, b))
      ensures position in broker.acked <==> ok || position in old(broker.acked)
      ensures journal.reports == old(journal.reports) + Reports(old(broker.messages)[position].webhook, b)
      ensures WorldOf(hot, broker, hands) ==
          HandlerStepFor(dataTtl, old(WorldOf(hot, broker, hands)), position, b, e.markerOk)
      ensures var message := old(broker.messages)[position];
              var host, hash := domainOf(message.webhook.request.endpoint), message.webhook.request.endpointHash;
              var d, n := Count(old(domains.values), host), Count(old(inflight.values), hash);
              var gate := DomainGate(limitDomains, d, domainMax(host), message.slow, e);
              var reaches := ReachesGates(RefOf(message.webhook) in old(hot.View()).markers, e);
              && (reaches || !e.circuitAllows ==> b == BranchOf(gate, InflightGate(n, maxInflight, message.slow, e), e))
              && Count(domains.values, host) ==
                  (if reaches then DomainAfter(limitDomains, d, domainMax(host), message.slow, e) else d)
              && Count(inflight.values, hash) ==
                   (if reaches && Passes(gate) then InflightAfter(n, maxInflight, message.slow, e) else n)
              && (forall k :: k != host ==> Count(domains.values, k) == Count(old(domains.values), k))
              && (forall k :: k != hash ==> Count(inflight.values, k) == Count(old(inflight.values), k))
    {
      var m, slow := broker.messages[position].webhook, broker.messages[position].slow;
      ghost var w := WorldOf(hot, broker, hands);
      b := CircuitOpen(e.retryAt, e.ensureOk, e.scheduleOk);
      var first, checked := hot.CheckAndSetProcessed(m.id, m.attempt, e.markerOk);
      if checked && !first {
        broker.acked := broker.acked + {position};
        return true, b;
      }
      ghost var marked := WorldOf(hot, broker, hands);
      ok, b := Proceed(position, m, slow, e, hands);
      if ok {
        broker.acked := broker.acked + {position};
      }
      assert WorldOf(hot, broker, hands) == FreshFor(dataTtl, marked, position, m, b);
      MarkThenGoOn(dataTtl, w, position, b, e.markerOk, marked);
    }
  }
}
