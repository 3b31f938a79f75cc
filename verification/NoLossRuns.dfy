/** No loss over whole runs. */
module NoLossRuns {
  import opened Domain
  import opened Lifecycle
  import opened LifecycleInvariant
  import opened DeliveryBounds
  import opened NoLoss

  /** `GetRetryData` never returns an error for data that is there. */
  predicate ReadsSucceed(run: seq<Step>) {
    forall k :: 0 <= k < |run| && run[k].Fetch? ==> run[k].getOk
  }

  /** At some point of the run a worker takes a lossy branch on the head attempt of `id`. */
  predicate TakesLossyBranch(w: World, run: seq<Step>, id: WebhookId)
    requires ValidRun(w, run)
    decreases |run|
  {
    run != [] && (LossyHandle(w, run[0], id) || TakesLossyBranch(Apply(w, run[0]), run[1..], id))
  }

  /** Data is there for every reference that can still produce a delivery, and only spent references are discarded. */
  ghost predicate InvReads(w: World) {
    && (forall r :: (r in w.store.retries || r in w.hands.leased) && r !in w.store.markers ==> r.id in w.store.data)
    && (forall r :: r in w.hands.discarded ==> r in w.store.markers)
  }

  ghost predicate Sound(w: World) {
    Inv(w) && InvHistory(w) && InvReads(w)
  }

  lemma HandleKeepsReads(w: World, s: Step)
    requires Inv(w) && InvReads(w) && Enabled(w, s) && s.Handle?
    ensures InvReads(Apply(w, s))
  {
    var m := w.topic[s.position].webhook;
    if RefOf(m) !in w.store.markers {
      HandledShape(w, s.position, s.branch);
      HandledStore(w, s.position, s.branch);
      var w' := Handled(w, s.position, s.branch);
      HandleKeepsInv(w, s.position, s.branch);
      forall r | (r in w'.store.retries || r in w'.hands.leased) && r !in w'.store.markers
        ensures r.id in w'.store.data
      {
        assert Known(w'.book, r);
        UnmarkedIsHead(w'.store.markers, w'.book, r);
      }
    }
  }

  lemma FetchKeepsReads(w: World, s: Step)
    requires Inv(w) && InvReads(w) && Enabled(w, s) && s.Fetch? && s.getOk
    ensures InvReads(Apply(w, s))
  {
  }

  lemma ElsewhereKeepsReads(w: World, s: Step)
    requires Inv(w) && InvReads(w) && Enabled(w, s) && !s.Handle? && !s.Fetch?
    ensures InvReads(Apply(w, s))
  {
    ElsewhereShape(w, s);
    ElsewhereHands(w, s);
  }

  lemma ElsewhereHands(w: World, s: Step)
    requires Enabled(w, s) && !s.Handle? && !s.Fetch?
    ensures var w' := Apply(w, s);
            && (forall r :: r in w'.hands.leased ==> r in w.hands.leased || r in w.store.retries)
            && (forall r :: r in w'.store.retries ==> r in w.store.retries)
            && (forall r :: r in w'.hands.discarded ==> r in w.hands.discarded)
  {
  }

  lemma StepKeepsSound(w: World, s: Step)
    requires Sound(w) && Enabled(w, s) && (s.Fetch? ==> s.getOk)
    ensures Sound(Apply(w, s))
  {
    StepKeepsInv(w, s);
    StepKeepsHistory(w, s);
    if s.Handle? {
      HandleKeepsReads(w, s);
    } else if s.Fetch? {
      FetchKeepsReads(w, s);
    } else {
      ElsewhereKeepsReads(w, s);
    }
  }

  /** Once given up, a webhook has no attempt left that any process would handle. */
  ghost predicate GivenUp(w: World, id: WebhookId) {
    id in w.book && w.book[id].phase in {Lost, Done(ExhaustedUnrecorded)}
  }

  lemma GivenUpIsUnsafe(w: World, id: WebhookId)
    requires Inv(w) && InvHistory(w) && GivenUp(w, id)
    ensures !Safe(w, id)
  {
    InactiveNotLive(w, id);
    SettledIsDone(w, id);
  }

  lemma GivenUpStays(w: World, s: Step, id: WebhookId)
    requires Inv(w) && Enabled(w, s) && GivenUp(w, id)
    ensures GivenUp(Apply(w, s), id) && !LossyHandle(w, s, id)
  {
    if s.Handle? {
      var m := w.topic[s.position].webhook;
      if RefOf(m) !in w.store.markers {
        UnmarkedIsHead(w.store.markers, w.book, RefOf(m));
        HandledShape(w, s.position, s.branch);
      }
    }
  }

  lemma {:induction false} GivenUpForever(w: World, run: seq<Step>, id: WebhookId)
    requires Inv(w) && InvHistory(w) && ValidRun(w, run) && GivenUp(w, id)
    ensures GivenUp(After(w, run), id) && !Safe(After(w, run), id)
    decreases |run|
  {
    if run == [] {
      GivenUpIsUnsafe(w, id);
    } else {
      GivenUpStays(w, run[0], id);
      StepKeepsInv(w, run[0]);
      StepKeepsHistory(w, run[0]);
      GivenUpForever(Apply(w, run[0]), run[1..], id);
    }
  }

  lemma LossyHandleGivesUp(w: World, s: Step, id: WebhookId)
    requires Inv(w) && Enabled(w, s) && LossyHandle(w, s, id)
    ensures GivenUp(Apply(w, s), id)
  {
    var m := w.topic[s.position].webhook;
    HandledShape(w, s.position, s.branch);
    LossyPhase(m, s.branch);
  }

  lemma NewIsSafe(w: World, s: Step, id: WebhookId)
    requires Inv(w) && Enabled(w, s) && id !in w.book && id in Apply(w, s).book
    ensures Safe(Apply(w, s), id)
  {
    if s.Handle? {
      var m := w.topic[s.position].webhook;
      if RefOf(m) !in w.store.markers {
        HandledShape(w, s.position, s.branch);
      }
    }
    assert s.Enqueue? && s.webhook.id == id;
    var w' := Apply(w, s);
    StepKeepsInv(w, s);
    OnTopicStays(w.topic, Message(s.webhook, false));
    OnTopicIsLive(w', Ref(id, 0));
    assert LiveAt(w', Ref(id, 0));
  }

  /** A webhook that was safe, or not yet accepted, is safe after the run exactly when no lossy branch was taken on
      it. */
  lemma {:induction false} SafeUnlessLossy(w: World, run: seq<Step>, id: WebhookId)
    requires Sound(w) && ValidRun(w, run) && ReadsSucceed(run)
    requires id in w.book ==> Safe(w, id)
    ensures id in After(w, run).book ==> (Safe(After(w, run), id) <==> !TakesLossyBranch(w, run, id))
    decreases |run|
  {
    if run != [] {
      var s, w' := run[0], Apply(w, run[0]);
      StepKeepsSound(w, s);
      if id in w.book {
        NoLossStep(w, s, id);
        assert !LossyDiscard(w, s, id);
      } else if id in w'.book {
        NewIsSafe(w, s, id);
      }
      if LossyHandle(w, s, id) {
        LossyHandleGivesUp(w, s, id);
        GivenUpForever(w', run[1..], id);
      } else {
        SafeUnlessLossy(w', run[1..], id);
      }
    }
  }

  /** Main result: over every run from the empty system, with scheduler crashes anywhere, failed or unconfirmed
      publishes, failed acks, lapsed leases and Kafka redelivery, an accepted webhook is delivered, dead-lettered or
      still has its head attempt waiting, if and only if no worker took a lossy branch on it. */
  lemma NoLossOverRuns(run: seq<Step>, id: WebhookId)
    requires ValidRun(INITIAL, run) && ReadsSucceed(run)
    requires id in After(INITIAL, run).book
    ensures Safe(After(INITIAL, run), id) <==> !TakesLossyBranch(INITIAL, run, id)
  {
    SafeUnlessLossy(INITIAL, run, id);
  }

  /** At some point of the run a worker takes a lossy branch on the head attempt of `id`, or a scheduler whose read
      failed discards the only copy of it. */
  ghost predicate TakesLossyStep(w: World, run: seq<Step>, id: WebhookId)
    requires ValidRun(w, run)
    decreases |run|
  {
    run != []
    && (LossyHandle(w, run[0], id) || LossyDiscard(w, run[0], id) || TakesLossyStep(Apply(w, run[0]), run[1..], id))
  }

  lemma {:induction false} SafeUnlessLossyStep(w: World, run: seq<Step>, id: WebhookId)
    requires Inv(w) && InvHistory(w) && ValidRun(w, run) && !TakesLossyStep(w, run, id)
    requires id in w.book ==> Safe(w, id)
    ensures id in After(w, run).book ==> Safe(After(w, run), id)
    decreases |run|
  {
    if run != [] {
      var s, w' := run[0], Apply(w, run[0]);
      StepKeepsInv(w, s);
      StepKeepsHistory(w, s);
      if id in w.book {
        NoLossStep(w, s, id);
      } else if id in w'.book {
        NewIsSafe(w, s, id);
      }
      SafeUnlessLossyStep(w', run[1..], id);
    }
  }

  /** Main result: over every run from the empty system, failed reads of retry data included, nothing but the lossy
      steps loses a webhook. */
  lemma NoLossWithFailingReads(run: seq<Step>, id: WebhookId)
    requires ValidRun(INITIAL, run) && !TakesLossyStep(INITIAL, run, id)
    requires id in After(INITIAL, run).book
    ensures Safe(After(INITIAL, run), id)
  {
    SafeUnlessLossyStep(INITIAL, run, id);
  }

  // ---------------------------------------------------------------- a losing run

  /** The scheduler's half of the losing run: pop, fetch, publish and ack, then the worker skips the copy. */
  function RepublishRun(r: Ref, stored: Webhook): seq<Step> {
    [Pop({r}, 35)] + ([Fetch(r, true)] + ([Publish(stored, Published)] + ([AckSent(r, true)] + [Handle(1, Nacked)])))
  }

  /** A run that loses a webhook without delivering it once: the circuit is open, the same attempt is rescheduled,
      popped and republished, and then skipped because its marker is already set. */
  function CircuitOpenRun(webhook: Webhook): seq<Step> {
    [Enqueue(webhook)] + ([Handle(0, CircuitOpen(5, true, true))] +
        RepublishRun(RefOf(webhook), webhook.(scheduledAt := 5)))
  }

  lemma SkippedCopy(w: World, r: Ref, stored: Webhook)
    requires |w.topic| == 1 && r in w.store.markers && RefOf(stored) == r
    requires w.store.retries.Keys == {r} && w.store.data == map[r.id := stored]
    requires w.hands == INITIAL.hands
    ensures ValidRun(w, RepublishRun(r, stored))
    ensures After(w, RepublishRun(r, stored)).deliveries == w.deliveries
  {
    var w1 := Apply(w, Pop({r}, 35));
    var w2 := Apply(w1, Fetch(r, true));
    assert w2.hands.fetched == multiset{stored};
    var w3 := Apply(w2, Publish(stored, Published));
    var w4 := Apply(w3, AckSent(r, true));
    var w5 := Apply(w4, Handle(1, Nacked));
    assert w5.deliveries == w.deliveries;
    assert [Handle(1, Nacked)] + [] == [Handle(1, Nacked)];
    ThenStep(w4, Handle(1, Nacked), []);
    ThenStep(w3, AckSent(r, true), [Handle(1, Nacked)]);
    ThenStep(w2, Publish(stored, Published), [AckSent(r, true)] + [Handle(1, Nacked)]);
    ThenStep(w1, Fetch(r, true), [Publish(stored, Published)] + ([AckSent(r, true)] + [Handle(1, Nacked)]));
    ThenStep(w, Pop({r}, 35),
        [Fetch(r, true)] + ([Publish(stored, Published)] + ([AckSent(r, true)] + [Handle(1, Nacked)])));
  }

  /** The state once the handler has rescheduled attempt 0 itself. */
  function Opened(webhook: Webhook): World {
    var r := RefOf(webhook);
    World([Message(webhook, false)], {0}, Store({r}, map[r := Unix(5)], map[r.id := webhook.(scheduledAt := 5)]), [],
          INITIAL.hands, [], [], map[r.id := Entry(webhook, 1, Lost, 0)])
  }

  lemma OpenedIsReached(webhook: Webhook)
    requires webhook.attempt == 0
    ensures var w1 := Apply(INITIAL, Enqueue(webhook));
            Apply(w1, Handle(0, CircuitOpen(5, true, true))) == Opened(webhook)
    ensures Inv(Opened(webhook)) && InvHistory(Opened(webhook))
  {
    var w1 := Apply(INITIAL, Enqueue(webhook));
    StepKeepsInv(INITIAL, Enqueue(webhook));
    StepKeepsInv(w1, Handle(0, CircuitOpen(5, true, true)));
    StepKeepsHistory(w1, Handle(0, CircuitOpen(5, true, true)));
  }

  lemma TwoSteps(w: World, s1: Step, s2: Step, rest: seq<Step>, w2: World)
    requires Enabled(w, s1) && Enabled(Apply(w, s1), s2) && Apply(Apply(w, s1), s2) == w2 && ValidRun(w2, rest)
    ensures ValidRun(w, [s1] + ([s2] + rest)) && After(w, [s1] + ([s2] + rest)) == After(w2, rest)
  {
    ThenStep(Apply(w, s1), s2, rest);
    ThenStep(w, s1, [s2] + rest);
  }

  lemma LosingRunReads(webhook: Webhook)
    ensures ReadsSucceed(CircuitOpenRun(webhook))
  {
    var r, stored := RefOf(webhook), webhook.(scheduledAt := 5);
    var flat := [Enqueue(webhook), Handle(0, CircuitOpen(5, true, true)), Pop({r}, 35), Fetch(r, true),
                 Publish(stored, Published), AckSent(r, true), Handle(1, Nacked)];
    assert ReadsSucceed(flat);
    assert CircuitOpenRun(webhook) == flat;
  }

  /** The same-attempt reschedule after an open circuit loses the webhook in a run without a single fault. */
  lemma CircuitOpenLoses(webhook: Webhook)
    requires webhook.attempt == 0
    ensures ValidRun(INITIAL, CircuitOpenRun(webhook)) && ReadsSucceed(CircuitOpenRun(webhook))
    ensures var w := After(INITIAL, CircuitOpenRun(webhook));
            webhook.id in w.book && !Safe(w, webhook.id) && w.deliveries == []
  {
    var rest := RepublishRun(RefOf(webhook), webhook.(scheduledAt := 5));
    LosingRunReads(webhook);
    OpenedIsReached(webhook);
    TwoSteps(INITIAL, Enqueue(webhook), Handle(0, CircuitOpen(5, true, true)), rest, Opened(webhook)) by {
      SkippedCopy(Opened(webhook), RefOf(webhook), webhook.(scheduledAt := 5));
    }
    assert After(Opened(webhook), rest).deliveries == [] by {
      SkippedCopy(Opened(webhook), RefOf(webhook), webhook.(scheduledAt := 5));
    }
    GivenUpForever(Opened(webhook), rest, webhook.id);
  }
}
