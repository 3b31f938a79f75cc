/** No loss over runs in which marker checks may fail and markers expire: an unchecked call leaves no marker, so it
    loses less. */
module UncheckedNoLoss {
  import opened Domain
  import opened Lifecycle
  import opened LifecycleInvariant
  import opened DeliveryBounds
  import opened NoLoss
  import opened Rebuild
  import opened UncheckedRuns
  import opened UncheckedBounds

  /** The moves that can lose `id`: the lossy steps of the protocol, and an unchecked call that does reschedule its own
      attempt, which a late ack can remove, or that exhausts the webhook without recording it. */
  ghost predicate LossyMove(w: World, m: Move, id: WebhookId) {
    match m
    case Ordinary(s) => LossyHandle(w, s, id) || LossyDiscard(w, s, id)
    case Unchecked(position, b) =>
      && position < |w.topic| && w.topic[position].webhook.id == id
      && ((b.CircuitOpen? && b.ensureOk && b.scheduleOk) ||
          PhaseAfter(w.topic[position].webhook, b) == Done(ExhaustedUnrecorded))
    case Expire(_) => false
    case Flush => true
    case Restore(_) => false
  }

  ghost predicate TakesLossyMove(w: World, run: seq<Move>, id: WebhookId)
    requires PossibleRun(w, run)
    decreases |run|
  {
    run != [] && (LossyMove(w, run[0], id) || TakesLossyMove(Next(w, run[0]), run[1..], id))
  }

  ghost predicate Unacked(w: World, r: Ref) {
    exists i :: 0 <= i < |w.topic| && i !in w.acked && RefOf(w.topic[i].webhook) == r
  }

  /** `r` will be handled, and no ack of a scheduler can take it away. */
  ghost predicate Waiting(w: World, r: Ref) {
    r !in w.store.markers && (Unacked(w, r) || (!OnTopic(w.topic, r) && r in w.store.retries && r.id in w.store.data))
  }

  ghost predicate WellAcked(w: World) {
    && (forall i :: i in w.acked ==> i < |w.topic|)
    && (forall r :: r in w.hands.sent ==> OnTopic(w.topic, r))
  }

  /** The furthest attempt of `id` waits, unless the webhook is settled. */
  ghost predicate Held(w: World, id: WebhookId, top: int) {
    Settled(w, id) || (0 <= top && Waiting(w, Ref(id, top)))
  }

  lemma HeldIsSafe(w: World, id: WebhookId, top: int)
    requires Held(w, id, top)
    ensures Safe(w, id)
  {
    if !Settled(w, id) {
      assert LiveAt(w, Ref(id, top));
    }
  }

  predicate OneMore(topic: seq<Message>, topic': seq<Message>) {
    |topic'| == |topic| + 1 && topic'[..|topic|] == topic
  }

  lemma NotOnTopic(topic: seq<Message>, r: Ref)
    requires !OnTopic(topic, r)
    ensures forall i :: 0 <= i < |topic| ==> RefOf(topic[i].webhook) != r
  {
  }

  lemma FurtherIsNew(topic: seq<Message>, book: Book, id: WebhookId, top: int)
    requires TopicFits(topic, book, id, top)
    ensures !OnTopic(topic, Ref(id, top + 1))
  {
    forall i | 0 <= i < |topic| ensures RefOf(topic[i].webhook) != Ref(id, top + 1) {
      assert WebhookFits(book, id, top, topic[i].webhook);
    }
  }

  /** A move that leaves the copies of `r` alone keeps it waiting. */
  lemma WaitingStays(w: World, w': World, r: Ref)
    requires Waiting(w, r) && WellAcked(w) && r !in w'.store.markers
    requires w'.topic == w.topic || (OneMore(w.topic, w'.topic) && |w.topic| !in w'.acked)
    requires forall i :: 0 <= i < |w.topic| && i in w'.acked && i !in w.acked ==> RefOf(w.topic[i].webhook) != r
    requires !OnTopic(w.topic, r) && r in w.store.retries ==> r in w'.store.retries
    requires r.id in w.store.data ==> r.id in w'.store.data
    ensures Waiting(w', r)
  {
    if Unacked(w, r) {
      var i :| 0 <= i < |w.topic| && i !in w.acked && RefOf(w.topic[i].webhook) == r;
      assert w'.topic[i] == w.topic[i] && i !in w'.acked;
      assert Unacked(w', r);
    } else if OnTopic(w'.topic, r) {
      var i :| 0 <= i < |w'.topic| && RefOf(w'.topic[i].webhook) == r;
      NotOnTopic(w.topic, r);
      assert forall k :: 0 <= k < |w.topic| ==> w'.topic[k] == w.topic[k];
      assert Unacked(w', r);
    }
  }

  /** What a proceeding call acknowledges and keeps. */
  lemma ProceedingKeeps(w: World, m: Move)
    requires Possible(w, m) && Proceeds(w, m)
    ensures var h, b, w' := Taken(w, m), BranchTaken(w, m), Next(w, m);
            var phase := PhaseAfter(h, b);
            && w.acked <= w'.acked <= w.acked + {PositionOf(m)}
            && (b.Nacked? || (b.Attempted? && phase.Lost?) ==> w'.acked == w.acked)
            && w'.topic == (if b.Diverted? then w.topic + [Message(h, true)] else w.topic)
            && w'.hands == w.hands
            && (forall r :: r in w.store.retries ==> r in w'.store.retries)
            && (forall id :: id in w.store.data && !(phase.Done? && id == h.id) ==> id in w'.store.data)
            && (phase.Active? ==> Ref(h.id, h.attempt + 1) in w'.store.retries && h.id in w'.store.data)
  {
    NextIsFresh(w, m);
    FreshKeeps(Past(w, m), PositionOf(m), Taken(w, m), BranchTaken(w, m));
  }

  lemma FreshKeeps(w: World, position: nat, h: Webhook, b: Branch)
    ensures var w' := Fresh(w, position, h, b);
            var phase := PhaseAfter(h, b);
            && w.acked <= w'.acked <= w.acked + {position}
            && (b.Nacked? || (b.Attempted? && phase.Lost?) ==> w'.acked == w.acked)
            && w'.topic == (if b.Diverted? then w.topic + [Message(h, true)] else w.topic)
            && w'.hands == w.hands
            && (forall r :: r in w.store.retries ==> r in w'.store.retries)
            && (forall id :: id in w.store.data && !(phase.Done? && id == h.id) ==> id in w'.store.data)
            && (phase.Active? ==> Ref(h.id, h.attempt + 1) in w'.store.retries && h.id in w'.store.data)
  {
  }

  lemma OtherCallHolds(w: World, m: Move, id: WebhookId, top: int)
    requires Possible(w, m) && Proceeds(w, m) && WellAcked(w)
    requires RefOf(Taken(w, m)) != Ref(id, top) &&
        !(Taken(w, m).id == id && PhaseAfter(Taken(w, m), BranchTaken(w, m)).Done?)
    requires Waiting(w, Ref(id, top))
    ensures Waiting(Next(w, m), Ref(id, top))
  {
    ProceedingShape(w, m);
    ProceedingKeeps(w, m);
    WaitingStays(w, Next(w, m), Ref(id, top));
  }

  /** A lossless call on the furthest attempt itself: it goes one further, settles, or stays where it is. */
  lemma OwnCallHolds(w: World, m: Move, id: WebhookId, top: int)
    requires Possible(w, m) && Proceeds(w, m) && WellAcked(w) && Fits(w, id, top) && !LossyMove(w, m, id)
    requires RefOf(Taken(w, m)) == Ref(id, top) && Waiting(w, Ref(id, top))
    requires !PhaseAfter(Taken(w, m), BranchTaken(w, m)).Done?
    ensures Waiting(Next(w, m), Ref(id, NextTop(w, m, id, top)))
  {
    var h, b, w' := Taken(w, m), BranchTaken(w, m), Next(w, m);
    ProceedingShape(w, m);
    ProceedingKeeps(w, m);
    if PhaseAfter(h, b).Active? {
      var next := Ref(id, top + 1);
      assert !RefFits(id, top, next);
      FurtherIsNew(w.topic, w.book, id, top);
    } else if b.Diverted? {
      assert w'.topic[|w.topic|].webhook == h && |w.topic| !in w'.acked;
      assert Unacked(w', Ref(id, top));
    } else {
      WaitingStays(w, w', Ref(id, top));
    }
  }

  lemma SettledStays(w: World, m: Move, id: WebhookId)
    requires Possible(w, m) && Settled(w, id)
    ensures Settled(Next(w, m), id)
  {
    if Proceeds(w, m) {
      ProceedingShape(w, m);
    } else {
      OtherwiseShape(w, m);
    }
  }

  lemma CallSettles(w: World, m: Move, id: WebhookId)
    requires Possible(w, m) && Proceeds(w, m) && Taken(w, m).id == id && !LossyMove(w, m, id)
    requires PhaseAfter(Taken(w, m), BranchTaken(w, m)).Done?
    ensures Settled(Next(w, m), id)
  {
    ProceedingShape(w, m);
    if m.Ordinary? {
      LossyPhase(Taken(w, m), BranchTaken(w, m));
    }
    assert Next(w, m).outcomes[|w.outcomes|] == Outcome(id, PhaseAfter(Taken(w, m), BranchTaken(w, m)).kind);
  }

  lemma CallHolds(w: World, m: Move, id: WebhookId, top: int)
    requires Possible(w, m) && Proceeds(w, m) && WellAcked(w) && Fits(w, id, top) && !LossyMove(w, m, id)
    requires 0 <= top && Waiting(w, Ref(id, top))
    ensures Held(Next(w, m), id, NextTop(w, m, id, top))
  {
    if Taken(w, m).id == id && PhaseAfter(Taken(w, m), BranchTaken(w, m)).Done? {
      CallSettles(w, m, id);
    } else if RefOf(Taken(w, m)) == Ref(id, top) {
      OwnCallHolds(w, m, id, top);
    } else {
      OtherCallHolds(w, m, id, top);
    }
  }

  /** What moves other than handler calls do to topics and store. */
  lemma QuietShape(w: World, m: Move, r: Ref)
    requires Possible(w, m) && !Proceeds(w, m) && !m.Flush? && !LossyMove(w, m, r.id) && WellAcked(w) &&
        r !in w.store.markers
    ensures var w' := Next(w, m);
            && (w'.topic == w.topic || (OneMore(w.topic, w'.topic) && w'.acked == w.acked))
            && (forall i :: 0 <= i < |w.topic| && i in w'.acked && i !in w.acked ==>
                RefOf(w.topic[i].webhook) in w.store.markers)
            && (!OnTopic(w.topic, r) && r in w.store.retries && r.id in w.store.data ==> r in w'.store.retries)
            && (r.id in w.store.data ==> r.id in w'.store.data)
  {
    if m.Ordinary? && !m.step.Handle? {
      ElsewhereShape(w, m.step);
    }
  }

  lemma MoveHolds(w: World, m: Move, id: WebhookId, top: int)
    requires Possible(w, m) && WellAcked(w) && Fits(w, id, top) && !LossyMove(w, m, id)
    requires id in w.book ==> Held(w, id, top)
    ensures id in Next(w, m).book ==> Held(Next(w, m), id, NextTop(w, m, id, top))
  {
    var w' := Next(w, m);
    if id in w.book {
      if Settled(w, id) {
        SettledStays(w, m, id);
      } else if Proceeds(w, m) {
        CallHolds(w, m, id, top);
      } else {
        OtherwiseShape(w, m);
        QuietShape(w, m, Ref(id, top));
        WaitingStays(w, w', Ref(id, top));
      }
    } else if id in w'.book {
      NewWaits(w, m, id);
    }
  }

  lemma NewWaits(w: World, m: Move, id: WebhookId)
    requires Possible(w, m) && WellAcked(w) && Fits(w, id, -1) && id !in w.book && id in Next(w, m).book
    ensures m.Ordinary? && m.step.Enqueue? && m.step.webhook.id == id
    ensures Waiting(Next(w, m), Ref(id, 0))
  {
    if Proceeds(w, m) {
      NextIsFresh(w, m);
      FreshParts(Past(w, m), PositionOf(m), Taken(w, m), BranchTaken(w, m));
    }
    var w' := Next(w, m);
    assert w'.topic[|w.topic|].webhook == m.step.webhook && |w.topic| !in w'.acked;
    assert Unacked(w', Ref(id, 0));
    assert !RefFits(id, -1, Ref(id, 0));
  }

  lemma MoveKeepsAcked(w: World, m: Move)
    requires Possible(w, m) && WellAcked(w)
    ensures WellAcked(Next(w, m))
  {
    var w' := Next(w, m);
    if Proceeds(w, m) {
      ProceedingKeeps(w, m);
      if w'.topic != w.topic {
        OnTopicStays(w.topic, Message(Taken(w, m), true));
      }
    } else if m.Ordinary? {
      StepKeepsAcked(w, m.step);
    }
  }

  lemma StepKeepsAcked(w: World, s: Step)
    requires Enabled(w, s) && WellAcked(w) && !Proceeds(w, Ordinary(s))
    ensures WellAcked(Apply(w, s))
  {
    if s.Enqueue? {
      OnTopicStays(w.topic, Message(s.webhook, false));
    } else if s.Publish? && !s.outcome.NotPublished? {
      OnTopicStays(w.topic, Message(s.next, false));
    }
  }

  lemma {:induction false} RunHolds(w: World, run: seq<Move>, id: WebhookId, top: int)
    requires PossibleRun(w, run) && WellAcked(w) && Fits(w, id, top) && !TakesLossyMove(w, run, id)
    requires id in w.book ==> Held(w, id, top)
    ensures id in Ending(w, run).book ==> Safe(Ending(w, run), id)
    decreases |run|
  {
    if run == [] {
      if id in w.book {
        HeldIsSafe(w, id, top);
      }
    } else {
      MoveHolds(w, run[0], id, top);
      MoveFits(w, run[0], id, top);
      MoveKeepsAcked(w, run[0]);
      RunHolds(Next(w, run[0]), run[1..], id, NextTop(w, run[0], id, top));
    }
  }

  /** Main result: over every run with failing marker checks, expiring markers, and restores of old records beside live
      traffic, only the lossy moves lose a webhook: an unchecked divert, refusal or failed reschedule does not. */
  lemma NoLossUnchecked(run: seq<Move>, id: WebhookId)
    requires PossibleRun(INITIAL, run) && !TakesLossyMove(INITIAL, run, id)
    requires id in Ending(INITIAL, run).book
    ensures Safe(Ending(INITIAL, run), id)
  {
    RunHolds(INITIAL, run, id, -1);
  }
}
