/** No accepted webhook is lost, and exactly which branches of the code break that promise. */
module NoLoss {
  import opened Domain
  import opened Lifecycle
  import opened LifecycleInvariant
  import opened DeliveryBounds

  /** `r` will still be handled as a new attempt: it is not marked, and it is unacknowledged on a topic
      or scheduled with its data present. */
  ghost predicate LiveAt(w: World, r: Ref) {
    && r !in w.store.markers
    && ((exists i :: 0 <= i < |w.topic| && i !in w.acked && RefOf(w.topic[i].webhook) == r)
        || (r in w.store.retries && r.id in w.store.data))
  }

  ghost predicate Live(w: World, id: WebhookId) {
    exists attempt: int :: LiveAt(w, Ref(id, attempt))
  }

  ghost predicate Settled(w: World, id: WebhookId) {
    Outcome(id, Delivered) in w.outcomes || Outcome(id, DeadLettered) in w.outcomes
  }

  ghost predicate Safe(w: World, id: WebhookId) {
    Settled(w, id) || Live(w, id)
  }

  /** The branches of `processMessage` that leave a marked attempt without a successor. */
  predicate LossyBranch(m: Webhook, b: Branch) {
    match b
    case CircuitOpen(_, _, _) => true
    case Diverted => true
    case Nacked => true
    case Attempted(_, _, _, _, _, _, _) =>
      !Succeeds(b)
      && (if ShouldRetry(m, b.statusCode, b.networkError) then !(b.ensureOk && b.scheduleOk) else !b.deadLetterOk)
  }

  predicate LossyHandle(w: World, s: Step, id: WebhookId) {
    && s.Handle? && s.position < |w.topic|
    && var m := w.topic[s.position].webhook;
       m.id == id && RefOf(m) !in w.store.markers && LossyBranch(m, s.branch)
  }

  /** A reference discarded although its data is there and nothing on a topic stands in for it. */
  ghost predicate LossyDiscard(w: World, s: Step, id: WebhookId) {
    && s.AckDiscarded? && s.ackOk && s.dropped.id == id
    && s.dropped !in w.store.markers && s.dropped in w.store.retries && id in w.store.data
    && !OnTopic(w.topic, s.dropped)
  }

  /** A webhook has at most one attempt still to be handled. */
  lemma OneHead(w: World, r: Ref, r': Ref)
    requires Inv(w) && LiveAt(w, r) && LiveAt(w, r') && r.id == r'.id
    ensures r == r'
  {
    LiveIsHead(w, r);
    LiveIsHead(w, r');
  }

  lemma LiveIsHead(w: World, r: Ref)
    requires Inv(w) && LiveAt(w, r)
    ensures r.id in w.book && w.book[r.id].phase.Active? && r.attempt == w.book[r.id].next
  {
    assert Known(w.book, r) by {
      if r !in w.store.retries {
        var i :| 0 <= i < |w.topic| && i !in w.acked && RefOf(w.topic[i].webhook) == r;
        assert KnownWebhook(w.book, w.topic[i].webhook);
      }
    }
    UnmarkedIsHead(w.store.markers, w.book, r);
  }

  /** Unmarked messages are never acknowledged, so being on a topic is enough to be live. */
  lemma OnTopicIsLive(w: World, r: Ref)
    requires Inv(w) && r !in w.store.markers
    ensures OnTopic(w.topic, r) ==> LiveAt(w, r)
    ensures LiveAt(w, r) <==> OnTopic(w.topic, r) || (r in w.store.retries && r.id in w.store.data)
  {
    if OnTopic(w.topic, r) {
      var i :| 0 <= i < |w.topic| && RefOf(w.topic[i].webhook) == r;
      assert i !in w.acked;
    }
  }

  lemma InactiveNotLive(w: World, id: WebhookId)
    requires Inv(w) && id in w.book && !w.book[id].phase.Active?
    ensures !Live(w, id)
  {
    if Live(w, id) {
      var attempt: int :| LiveAt(w, Ref(id, attempt));
      LiveIsHead(w, Ref(id, attempt));
    }
  }

  lemma SettledIsDone(w: World, id: WebhookId)
    requires InvOutcomes(w.outcomes, w.book)
    ensures Settled(w, id) <==>
        id in w.book && (w.book[id].phase == Done(Delivered) || w.book[id].phase == Done(DeadLettered))
  {
  }

  lemma LossyPhase(m: Webhook, b: Branch)
    ensures LossyBranch(m, b) <==> PhaseAfter(m, b) in {Lost, Done(ExhaustedUnrecorded)}
  {
  }

  lemma NoLossOnSkip(w: World, s: Step, id: WebhookId)
    requires Inv(w) && Enabled(w, s) && s.Handle? && Safe(w, id)
    requires RefOf(w.topic[s.position].webhook) in w.store.markers
    ensures Safe(Apply(w, s), id)
  {
    var w' := w.(acked := w.acked + {s.position});
    assert w' == Handled(w, s.position, s.branch);
    HandleKeepsInv(w, s.position, s.branch);
    if Live(w, id) {
      LiveOutlivesOther(w, w', id);
    }
  }

  lemma NoLossOnOtherHandle(w: World, s: Step, id: WebhookId)
    requires Inv(w) && Enabled(w, s) && s.Handle? && Safe(w, id)
    requires var m := w.topic[s.position].webhook; RefOf(m) !in w.store.markers && m.id != id
    ensures Safe(Apply(w, s), id)
  {
    var w' := Handled(w, s.position, s.branch);
    HandleKeepsInv(w, s.position, s.branch);
    HandledShape(w, s.position, s.branch);
    HandledStore(w, s.position, s.branch);
    if Live(w, id) {
      OtherLives(w, s, w', id);
    }
  }

  lemma OtherLives(w: World, s: Step, w': World, id: WebhookId)
    requires Inv(w) && Inv(w') && Live(w, id) && s.Handle? && s.position < |w.topic|
    requires var m := w.topic[s.position].webhook;
             && m.id != id && w'.store.markers == w.store.markers + {RefOf(m)}
             && (w'.topic == w.topic || w'.topic == w.topic + [Message(m, true)])
             && (forall r :: r in w.store.retries ==> r in w'.store.retries)
             && (id in w.store.data ==> id in w'.store.data)
    ensures Live(w', id)
  {
    LiveOutlivesOther(w, w', id);
  }

  lemma NoLossOnOwnHandle(w: World, s: Step, id: WebhookId)
    requires Inv(w) && InvHistory(w) && Enabled(w, s) && s.Handle? && Safe(w, id)
    requires var m := w.topic[s.position].webhook; RefOf(m) !in w.store.markers && m.id == id
    ensures Safe(Apply(w, s), id) <==> !LossyBranch(w.topic[s.position].webhook, s.branch)
  {
    var m := w.topic[s.position].webhook;
    var w' := Handled(w, s.position, s.branch);
    HandleKeepsInv(w, s.position, s.branch);
    HandleKeepsHistory(w, s.position, s.branch);
    HandledShape(w, s.position, s.branch);
    LossyPhase(m, s.branch);
    SettledIsDone(w', id);
    if PhaseAfter(m, s.branch).Active? {
      HandledStore(w, s.position, s.branch);
      NextIsLive(w, s, m);
    } else {
      InactiveNotLive(w', id);
    }
  }

  lemma NextIsLive(w: World, s: Step, m: Webhook)
    requires Inv(w) && Enabled(w, s) && s.Handle?
    requires m == w.topic[s.position].webhook && RefOf(m) !in w.store.markers
    requires PhaseAfter(m, s.branch).Active?
    ensures LiveAt(Handled(w, s.position, s.branch), Ref(m.id, m.attempt + 1))
  {
    HandledShape(w, s.position, s.branch);
    HandledStore(w, s.position, s.branch);
    UnmarkedIsHead(w.store.markers, w.book, RefOf(m));
  }

  /** A step that neither marks the head nor takes it out of the store or the topic keeps it live. */
  lemma LiveOutlivesOther(w: World, w': World, id: WebhookId)
    requires Inv(w) && Inv(w') && Live(w, id)
    requires |w.topic| <= |w'.topic| && w.topic == w'.topic[..|w.topic|]
    requires forall r: Ref :: r.id == id && r in w'.store.markers ==> r in w.store.markers
    requires forall r: Ref :: r.id == id && r in w.store.retries && r !in w.store.markers ==>
        r in w'.store.retries || OnTopic(w'.topic, r)
    requires id in w.store.data ==> id in w'.store.data
    ensures Live(w', id)
  {
    var attempt: int :| LiveAt(w, Ref(id, attempt));
    var r := Ref(id, attempt);
    OnTopicIsLive(w, r);
    OnTopicIsLive(w', r);
    if OnTopic(w.topic, r) {
      var i :| 0 <= i < |w.topic| && RefOf(w.topic[i].webhook) == r;
      assert w'.topic[i] == w.topic[i];
      assert OnTopic(w'.topic, r);
    }
    assert LiveAt(w', r);
  }

  lemma ElsewhereShape(w: World, s: Step)
    requires Enabled(w, s) && !s.Handle?
    ensures var w' := Apply(w, s);
            && |w.topic| <= |w'.topic| && w.topic == w'.topic[..|w.topic|]
            && w'.store.markers == w.store.markers && w'.store.data == w.store.data && w'.outcomes == w.outcomes
  {
  }

  lemma ElsewhereRetries(w: World, s: Step, r: Ref)
    requires Inv(w) && Enabled(w, s) && !s.Handle?
    requires r in w.store.retries && r.id in w.store.data && r !in w.store.markers && !LossyDiscard(w, s, r.id)
    ensures r in Apply(w, s).store.retries || OnTopic(w.topic, r)
  {
  }

  lemma NoLossElsewhere(w: World, s: Step, id: WebhookId)
    requires Inv(w) && Enabled(w, s) && !s.Handle? && Safe(w, id) && !LossyDiscard(w, s, id)
    ensures Safe(Apply(w, s), id)
  {
    var w' := Apply(w, s);
    StepKeepsInv(w, s);
    ElsewhereShape(w, s);
    if Live(w, id) {
      if id in w.store.data {
        forall r: Ref | r.id == id && r in w.store.retries && r !in w.store.markers
          ensures r in w'.store.retries || OnTopic(w'.topic, r)
        {
          ElsewhereRetries(w, s, r);
          if OnTopic(w.topic, r) {
            OnTopicPrefix(w.topic, w'.topic, r);
          }
        }
        LiveOutlivesOther(w, w', id);
      } else {
        LiveOnTopicStays(w, w', id);
      }
    }
  }

  lemma OnTopicPrefix(topic: seq<Message>, topic': seq<Message>, r: Ref)
    requires |topic| <= |topic'| && topic == topic'[..|topic|] && OnTopic(topic, r)
    ensures OnTopic(topic', r)
  {
    var i :| 0 <= i < |topic| && RefOf(topic[i].webhook) == r;
    assert topic'[i] == topic[i];
  }

  lemma LiveOnTopicStays(w: World, w': World, id: WebhookId)
    requires Inv(w) && Inv(w') && Live(w, id) && id !in w.store.data
    requires |w.topic| <= |w'.topic| && w.topic == w'.topic[..|w.topic|]
    requires w'.store.markers == w.store.markers
    ensures Live(w', id)
  {
    var attempt: int :| LiveAt(w, Ref(id, attempt));
    var i :| 0 <= i < |w.topic| && i !in w.acked && RefOf(w.topic[i].webhook) == Ref(id, attempt);
    assert w'.topic[i] == w.topic[i];
    OnTopicIsLive(w', Ref(id, attempt));
  }

  lemma LossyDiscardLoses(w: World, s: Step, id: WebhookId)
    requires Inv(w) && InvHistory(w) && Enabled(w, s) && LossyDiscard(w, s, id)
    ensures !Safe(Apply(w, s), id)
  {
    var w' := Apply(w, s);
    StepKeepsInv(w, s);
    UnmarkedIsHead(w.store.markers, w.book, s.dropped);
    SettledIsDone(w', id);
    if Live(w', id) {
      var attempt: int :| LiveAt(w', Ref(id, attempt));
      LiveIsHead(w', Ref(id, attempt));
      OnTopicIsLive(w', Ref(id, attempt));
    }
  }

  /** Main result: one step of any process loses a safe webhook exactly when the worker takes a lossy branch
      on its head attempt, or the scheduler discards the only copy of it. */
  lemma NoLossStep(w: World, s: Step, id: WebhookId)
    requires Inv(w) && InvHistory(w) && Enabled(w, s) && Safe(w, id)
    ensures Safe(Apply(w, s), id) <==> !LossyHandle(w, s, id) && !LossyDiscard(w, s, id)
  {
    if s.Handle? {
      var m := w.topic[s.position].webhook;
      if RefOf(m) in w.store.markers {
        NoLossOnSkip(w, s, id);
      } else if m.id != id {
        NoLossOnOtherHandle(w, s, id);
      } else {
        NoLossOnOwnHandle(w, s, id);
      }
    } else if LossyDiscard(w, s, id) {
      LossyDiscardLoses(w, s, id);
    } else {
      NoLossElsewhere(w, s, id);
    }
  }
}
