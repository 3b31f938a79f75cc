/** No loss with failing reads of retry data, exactly: a webhook is kept as long as one copy of its head attempt is left
    anywhere, in the memory of a scheduler included. */
module LastCopy {
  import opened Domain
  import opened Lifecycle
  import opened LifecycleInvariant
  import opened DeliveryBounds
  import opened NoLoss

  /** A scheduler holds the webhook, or a lease on it that it can still resolve. */
  ghost predicate InHands(h: Hands, data: map<WebhookId, Webhook>, r: Ref) {
    (r in h.leased && r.id in data) || exists m :: m in h.fetched && RefOf(m) == r
  }

  predicate Stored(s: Store, r: Ref) {
    r in s.retries && r.id in s.data
  }

  /** Some process can still hand `r` to a worker. */
  ghost predicate Copied(w: World, r: Ref) {
    OnTopic(w.topic, r) || Stored(w.store, r) || InHands(w.hands, w.store.data, r)
  }

  ghost predicate Kept(w: World, id: WebhookId) {
    Settled(w, id) || exists attempt: int :: Ref(id, attempt) !in w.store.markers && Copied(w, Ref(id, attempt))
  }

  /** The step takes away the only copy of `r`: a discard, a refused publish or a failed read by the one scheduler that
      holds it, or a crash of all that do. */
  ghost predicate TakesLastCopy(w: World, s: Step, r: Ref) {
    && r !in w.store.markers && !OnTopic(w.topic, r)
    && match s
       case AckDiscarded(dropped, ackOk) =>
         ackOk && dropped == r && Stored(w.store, r) && !InHands(w.hands, w.store.data, r)
       case Publish(next, outcome) =>
         && outcome.NotPublished? && RefOf(next) == r && !Stored(w.store, r)
         && !InHands(w.hands.(fetched := w.hands.fetched - multiset{next}), w.store.data, r)
       case Fetch(ref, getOk) =>
         && !getOk && ref == r && r.id in w.store.data && !Stored(w.store, r)
         && !InHands(w.hands.(leased := w.hands.leased - multiset{ref}), w.store.data, r)
       case Crash(survivors) =>
         InHands(w.hands, w.store.data, r) && !Stored(w.store, r) && !InHands(survivors, w.store.data, r)
       case Enqueue(_) => false
       case Handle(_, _) => false
       case Pop(_, _) => false
       case AckSent(_, _) => false
  }

  /** The worker or a scheduler gives up the head attempt of `id`. */
  ghost predicate GivesUp(w: World, s: Step, id: WebhookId) {
    LossyHandle(w, s, id) || (id in w.book && TakesLastCopy(w, s, Head(w, id)))
  }

  /** The attempt of `id` to be taken up next. */
  function Head(w: World, id: WebhookId): Ref
    requires id in w.book
  {
    Ref(id, w.book[id].next)
  }

  lemma CopiedIsHead(w: World, r: Ref)
    requires Inv(w) && r !in w.store.markers && Copied(w, r)
    ensures r.id in w.book && w.book[r.id].phase.Active? && r.attempt == w.book[r.id].next
  {
    assert Known(w.book, r) by {
      if OnTopic(w.topic, r) {
        var i :| 0 <= i < |w.topic| && RefOf(w.topic[i].webhook) == r;
        assert KnownWebhook(w.book, w.topic[i].webhook);
      } else if m :| m in w.hands.fetched && RefOf(m) == r {
        assert KnownWebhook(w.book, m);
      }
    }
    UnmarkedIsHead(w.store.markers, w.book, r);
  }

  /** Being kept, told from the head attempt alone. */
  ghost predicate HeadKept(w: World, id: WebhookId)
    requires id in w.book
  {
    w.book[id].phase in {Done(Delivered), Done(DeadLettered)} || (w.book[id].phase.Active? && Copied(w, Head(w, id)))
  }

  lemma KeptMeans(w: World, id: WebhookId)
    requires Inv(w) && InvHistory(w) && id in w.book
    ensures Kept(w, id) <==> HeadKept(w, id)
  {
    SettledIsDone(w, id);
    if attempt: int :| Ref(id, attempt) !in w.store.markers && Copied(w, Ref(id, attempt)) {
      CopiedIsHead(w, Ref(id, attempt));
    }
    if w.book[id].phase.Active? && Copied(w, Head(w, id)) {
      assert Head(w, id) !in w.store.markers;
    }
  }

  // ---------------------------------------------------------------- one step

  lemma FetchResolves(w: World, s: Step, r: Ref)
    requires Inv(w) && s.Fetch? && Enabled(w, s) && s.getOk && s.ref.id in w.store.data
    ensures Copied(Apply(w, s), r) <==> Copied(w, r)
  {
    var h, h' := w.hands, Apply(w, s).hands;
    var next := w.store.data[s.ref.id].(attempt := s.ref.attempt);
    assert RefOf(next) == s.ref;
    assert forall m :: m in h'.fetched <==> m in h.fetched || m == next;
    assert forall x :: x != s.ref ==> (x in h'.leased <==> x in h.leased);
  }

  lemma FetchFails(w: World, s: Step, r: Ref)
    requires Inv(w) && s.Fetch? && Enabled(w, s) && !(s.getOk && s.ref.id in w.store.data) && r !in w.store.markers
    ensures Copied(Apply(w, s), r) <==> Copied(w, r) && !TakesLastCopy(w, s, r)
  {
    var h, h' := w.hands, Apply(w, s).hands;
    assert h'.fetched == h.fetched && h'.leased == h.leased - multiset{s.ref};
    assert forall x :: x != s.ref ==> (x in h'.leased <==> x in h.leased);
  }

  lemma PublishCopies(w: World, s: Step, r: Ref)
    requires Inv(w) && s.Publish? && Enabled(w, s) && r !in w.store.markers
    ensures Copied(Apply(w, s), r) <==> Copied(w, r) && !TakesLastCopy(w, s, r)
  {
    var h, h' := w.hands, Apply(w, s).hands;
    assert h'.leased == h.leased && h'.fetched == h.fetched - multiset{s.next};
    assert forall m :: m in h'.fetched ==> m in h.fetched;
    assert forall m :: m in h.fetched && m != s.next ==> m in h'.fetched;
    if s.outcome.NotPublished? {
      assert Apply(w, s).topic == w.topic;
    } else {
      OnTopicStays(w.topic, Message(s.next, false));
      OnlyNewOnTopic(w.topic, Message(s.next, false), r);
    }
  }

  lemma OnlyNewOnTopic(topic: seq<Message>, m: Message, r: Ref)
    ensures OnTopic(topic + [m], r) <==> OnTopic(topic, r) || RefOf(m.webhook) == r
  {
    OnTopicStays(topic, m);
    if i :| 0 <= i < |topic + [m]| && RefOf((topic + [m])[i].webhook) == r {
      assert i < |topic| ==> topic[i] == (topic + [m])[i];
    }
  }

  lemma PopCopies(w: World, s: Step, r: Ref)
    requires Inv(w) && s.Pop? && Enabled(w, s)
    ensures Copied(Apply(w, s), r) <==> Copied(w, r)
  {
  }

  /** A sent reference is on the topic, so its ack takes no last copy. */
  lemma AckSentCopies(w: World, s: Step, r: Ref)
    requires Inv(w) && s.AckSent? && Enabled(w, s)
    ensures Copied(Apply(w, s), r) <==> Copied(w, r)
  {
    assert OnTopic(w.topic, s.done);
    var w' := Apply(w, s);
    assert w'.topic == w.topic && w'.store.data == w.store.data;
    assert InHands(w'.hands, w.store.data, r) == InHands(w.hands, w.store.data, r);
    assert r != s.done ==> Stored(w'.store, r) == Stored(w.store, r);
  }

  lemma DiscardCopies(w: World, s: Step, r: Ref)
    requires Inv(w) && s.AckDiscarded? && Enabled(w, s) && r !in w.store.markers
    ensures Copied(Apply(w, s), r) <==> Copied(w, r) && !TakesLastCopy(w, s, r)
  {
    var w' := Apply(w, s);
    assert w'.topic == w.topic && w'.store.data == w.store.data;
    assert InHands(w'.hands, w.store.data, r) == InHands(w.hands, w.store.data, r);
    assert !s.ackOk || r != s.dropped ==> Stored(w'.store, r) == Stored(w.store, r);
  }

  lemma CrashCopies(w: World, s: Step, r: Ref)
    requires Inv(w) && s.Crash? && Enabled(w, s) && r !in w.store.markers
    ensures Copied(Apply(w, s), r) <==> Copied(w, r) && !TakesLastCopy(w, s, r)
  {
    assert InHands(s.survivors, w.store.data, r) ==> InHands(w.hands, w.store.data, r);
  }

  /** A step other than a handler call or an enqueue keeps `r` copied exactly when it does not take its last copy. */
  lemma QuietCopies(w: World, s: Step, r: Ref)
    requires Inv(w) && Enabled(w, s) && !s.Handle? && !s.Enqueue? && r !in w.store.markers
    ensures Copied(Apply(w, s), r) <==> Copied(w, r) && !TakesLastCopy(w, s, r)
  {
    if s.Fetch? {
      if s.getOk && s.ref.id in w.store.data {
        FetchResolves(w, s, r);
      } else {
        FetchFails(w, s, r);
      }
    } else if s.Publish? {
      PublishCopies(w, s, r);
    } else if s.Pop? {
      PopCopies(w, s, r);
    } else if s.AckSent? {
      AckSentCopies(w, s, r);
    } else if s.Crash? {
      CrashCopies(w, s, r);
    } else {
      DiscardCopies(w, s, r);
    }
  }

  /** Only an active webhook has a copy to take. */
  lemma TakenIsCopied(w: World, s: Step, r: Ref)
    requires Inv(w) && Enabled(w, s) && TakesLastCopy(w, s, r)
    ensures Copied(w, r)
  {
    if s.Publish? {
      assert s.next in w.hands.fetched && RefOf(s.next) == r;
    }
  }

  lemma QuietBook(w: World, s: Step)
    requires Enabled(w, s) && !s.Handle? && !s.Enqueue?
    ensures Apply(w, s).book == w.book
  {
  }

  /** Keeping the head's copies keeps the webhook. */
  lemma SameBookKept(w: World, w': World, id: WebhookId, taken: bool)
    requires id in w.book && w'.book == w.book
    requires w.book[id].phase.Active? ==> (Copied(w', Head(w, id)) <==> Copied(w, Head(w, id)) && !taken)
    requires taken ==> w.book[id].phase.Active?
    ensures HeadKept(w', id) <==> HeadKept(w, id) && !taken
  {
  }

  lemma KeptQuiet(w: World, s: Step, id: WebhookId)
    requires Inv(w) && Enabled(w, s) && !s.Handle? && !s.Enqueue? && id in w.book
    ensures id in Apply(w, s).book
    ensures HeadKept(Apply(w, s), id) <==> HeadKept(w, id) && !TakesLastCopy(w, s, Head(w, id))
  {
    var r := Head(w, id);
    QuietBook(w, s);
    if r !in w.store.markers {
      QuietCopies(w, s, r);
    }
    if TakesLastCopy(w, s, r) {
      TakenIsCopied(w, s, r);
      CopiedIsHead(w, r);
    }
    SameBookKept(w, Apply(w, s), id, TakesLastCopy(w, s, r));
  }

  lemma KeptEnqueue(w: World, s: Step, id: WebhookId)
    requires Enabled(w, s) && s.Enqueue?
    ensures id in w.book ==> (HeadKept(Apply(w, s), id) <==> HeadKept(w, id))
    ensures id == s.webhook.id ==> HeadKept(Apply(w, s), id)
  {
    OnTopicStays(w.topic, Message(s.webhook, false));
    if id in w.book {
      OnlyNewOnTopic(w.topic, Message(s.webhook, false), Head(w, id));
    }
  }

  lemma OtherHandleCopies(w: World, s: Step, r: Ref)
    requires Inv(w) && Enabled(w, s) && s.Handle? && w.topic[s.position].webhook.id != r.id
    ensures Copied(Apply(w, s), r) <==> Copied(w, r)
  {
    var m := w.topic[s.position].webhook;
    if RefOf(m) !in w.store.markers {
      HandledShape(w, s.position, s.branch);
      HandledStore(w, s.position, s.branch);
      OnlyNewOnTopic(w.topic, Message(m, true), r);
    }
  }

  lemma KeptSkip(w: World, s: Step, id: WebhookId)
    requires Enabled(w, s) && s.Handle? && RefOf(w.topic[s.position].webhook) in w.store.markers && id in w.book
    ensures id in Apply(w, s).book && (HeadKept(Apply(w, s), id) <==> HeadKept(w, id))
  {
  }

  lemma KeptOtherHandle(w: World, s: Step, id: WebhookId)
    requires Inv(w) && Enabled(w, s) && s.Handle? && id in w.book
    requires var m := w.topic[s.position].webhook; RefOf(m) !in w.store.markers && m.id != id
    ensures id in Apply(w, s).book && (HeadKept(Apply(w, s), id) <==> HeadKept(w, id))
  {
    HandledShape(w, s.position, s.branch);
    OtherHandleCopies(w, s, Head(w, id));
  }

  lemma UnmarkedIsKept(w: World, position: nat)
    requires Inv(w) && position < |w.topic| && RefOf(w.topic[position].webhook) !in w.store.markers
    ensures var m := w.topic[position].webhook; m.id in w.book && HeadKept(w, m.id)
  {
    var m := w.topic[position].webhook;
    assert KnownWebhook(w.book, m);
    UnmarkedIsHead(w.store.markers, w.book, RefOf(m));
    assert OnTopic(w.topic, RefOf(m));
  }

  lemma NextIsStored(w: World, position: nat, b: Branch)
    requires Inv(w) && position < |w.topic| && RefOf(w.topic[position].webhook) !in w.store.markers
    ensures var m, w' := w.topic[position].webhook, Handled(w, position, b);
            && m.id in w'.book && w'.book[m.id].phase == PhaseAfter(m, b)
            && (PhaseAfter(m, b).Active? ==> Stored(w'.store, Head(w', m.id)))
  {
    var m := w.topic[position].webhook;
    assert KnownWebhook(w.book, m);
    UnmarkedIsHead(w.store.markers, w.book, RefOf(m));
    HandledShape(w, position, b);
    HandledStore(w, position, b);
  }

  lemma KeptOwnHandle(w: World, s: Step, id: WebhookId)
    requires Inv(w) && Enabled(w, s) && s.Handle?
    requires var m := w.topic[s.position].webhook; RefOf(m) !in w.store.markers && m.id == id
    ensures id in w.book && HeadKept(w, id) && id in Apply(w, s).book
    ensures HeadKept(Apply(w, s), id) <==> !LossyBranch(w.topic[s.position].webhook, s.branch)
  {
    UnmarkedIsKept(w, s.position);
    NextIsStored(w, s.position, s.branch);
    LossyPhase(w.topic[s.position].webhook, s.branch);
  }

  /** One step keeps a webhook exactly when it was kept and the step does not give it up. */
  lemma KeptStep(w: World, s: Step, id: WebhookId)
    requires Inv(w) && Enabled(w, s) && id in w.book
    ensures id in Apply(w, s).book && (HeadKept(Apply(w, s), id) <==> HeadKept(w, id) && !GivesUp(w, s, id))
  {
    if s.Handle? {
      var m := w.topic[s.position].webhook;
      if RefOf(m) in w.store.markers {
        KeptSkip(w, s, id);
      } else if m.id != id {
        KeptOtherHandle(w, s, id);
      } else {
        KeptOwnHandle(w, s, id);
      }
    } else if s.Enqueue? {
      KeptEnqueue(w, s, id);
    } else {
      KeptQuiet(w, s, id);
    }
  }

  // ---------------------------------------------------------------- whole runs

  ghost predicate GivenUpIn(w: World, run: seq<Step>, id: WebhookId)
    requires ValidRun(w, run)
    decreases |run|
  {
    run != [] && (GivesUp(w, run[0], id) || GivenUpIn(Apply(w, run[0]), run[1..], id))
  }

  lemma {:induction false} KnownUnlessGivenUp(w: World, run: seq<Step>, id: WebhookId)
    requires Inv(w) && ValidRun(w, run) && id in w.book
    ensures id in After(w, run).book && (HeadKept(After(w, run), id) <==> HeadKept(w, id) && !GivenUpIn(w, run, id))
    decreases |run|
  {
    if run != [] {
      StepKeepsInv(w, run[0]);
      KeptStep(w, run[0], id);
      KnownUnlessGivenUp(Apply(w, run[0]), run[1..], id);
    }
  }

  lemma {:induction false} NewUnlessGivenUp(w: World, run: seq<Step>, id: WebhookId)
    requires Inv(w) && ValidRun(w, run) && id !in w.book
    ensures id in After(w, run).book ==> (HeadKept(After(w, run), id) <==> !GivenUpIn(w, run, id))
    decreases |run|
  {
    if run != [] {
      var s, w' := run[0], Apply(w, run[0]);
      StepKeepsInv(w, s);
      UnknownNotGivenUp(w, s, id);
      if id in w'.book {
        NewIsEnqueued(w, s, id);
        KeptEnqueue(w, s, id);
        KnownUnlessGivenUp(w', run[1..], id);
      } else {
        NewUnlessGivenUp(w', run[1..], id);
      }
    }
  }

  lemma UnknownNotGivenUp(w: World, s: Step, id: WebhookId)
    requires Inv(w) && Enabled(w, s) && id !in w.book
    ensures !GivesUp(w, s, id)
  {
    forall i | 0 <= i < |w.topic| ensures w.topic[i].webhook.id != id {
      assert KnownWebhook(w.book, w.topic[i].webhook);
    }
  }

  lemma NewIsEnqueued(w: World, s: Step, id: WebhookId)
    requires Enabled(w, s) && id !in w.book && id in Apply(w, s).book
    ensures s.Enqueue? && s.webhook.id == id
  {
    if s.Handle? {
      var m := w.topic[s.position].webhook;
      if RefOf(m) !in w.store.markers {
        HandledShape(w, s.position, s.branch);
      }
    }
  }

  /** Main result: over every run from the empty system, failed reads of retry data included, an accepted webhook is
      delivered, dead-lettered or still has a copy of its head attempt somewhere, if and only if no worker took a lossy
      branch on it and no scheduler gave up its last copy. */
  lemma KeptOverRunsIff(run: seq<Step>, id: WebhookId)
    requires ValidRun(INITIAL, run) && id in After(INITIAL, run).book
    ensures Kept(After(INITIAL, run), id) <==> !GivenUpIn(INITIAL, run, id)
  {
    RunKeepsHistory(INITIAL, run);
    NewUnlessGivenUp(INITIAL, run, id);
    KeptMeans(After(INITIAL, run), id);
  }
}
