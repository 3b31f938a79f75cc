/** At most one delivery per attempt, at most one terminal outcome per webhook, and a bounded number of deliveries, over
    every run of the protocol: any duplication, reordering or crash, and any failed effect but that of the marker check
    itself. */
module DeliveryBounds {
  import opened Domain
  import opened Lifecycle
  import opened LifecycleInvariant

  function DeliveryCount(deliveries: seq<Ref>, id: WebhookId): nat {
    if deliveries == [] then 0
    else DeliveryCount(deliveries[..|deliveries| - 1], id) + (if deliveries[|deliveries| - 1].id == id then 1 else 0)
  }

  ghost predicate InvDeliveries(deliveries: seq<Ref>, markers: set<Ref>, book: Book) {
    && (forall i :: 0 <= i < |deliveries| ==> deliveries[i] in markers)
    && (forall i, j :: 0 <= i < j < |deliveries| ==> deliveries[i] != deliveries[j])
    && (forall id :: id in book ==> DeliveryCount(deliveries, id) <= book[id].next)
    && (forall id :: id !in book ==> DeliveryCount(deliveries, id) == 0)
  }

  ghost predicate InvOutcomes(outcomes: seq<Outcome>, book: Book) {
    && (forall i :: 0 <= i < |outcomes| ==>
        outcomes[i].id in book && book[outcomes[i].id].phase == Done(outcomes[i].kind))
    && (forall i, j :: 0 <= i < j < |outcomes| ==> outcomes[i].id != outcomes[j].id)
    && (forall id :: id in book && book[id].phase.Done? ==> Outcome(id, book[id].phase.kind) in outcomes)
  }

  ghost predicate InvHistory(w: World) {
    InvDeliveries(w.deliveries, w.store.markers, w.book) && InvOutcomes(w.outcomes, w.book)
  }

  lemma NotedKeepsDeliveries(deliveries: seq<Ref>, markers: set<Ref>, book: Book, r: Ref, phase: Phase, due: int,
      made: bool)
    requires InvMarkers(markers, book) && InvBook(book) && Known(book, r) && r !in markers
    requires InvDeliveries(deliveries, markers, book)
    ensures InvDeliveries(if made then deliveries + [r] else deliveries, markers + {r}, Noted(book, r.id, phase, due))
  {
    var all := deliveries + [r];
    assert all[..|all| - 1] == deliveries;
    var book' := Noted(book, r.id, phase, due);
    forall id ensures id in book' ==> DeliveryCount(all, id) <= book'[id].next
              ensures id !in book' ==> DeliveryCount(all, id) == 0 {
      assert DeliveryCount(all, id) == DeliveryCount(deliveries, id) + (if r.id == id then 1 else 0);
    }
  }

  lemma NotedKeepsOutcomes(outcomes: seq<Outcome>, book: Book, id: WebhookId, phase: Phase, due: int)
    requires InvOutcomes(outcomes, book) && id in book && book[id].phase.Active?
    ensures InvOutcomes(if phase.Done? then outcomes + [Outcome(id, phase.kind)]
        else outcomes, Noted(book, id, phase, due))
  {
    var book' := Noted(book, id, phase, due);
    if phase.Done? {
      var all := outcomes + [Outcome(id, phase.kind)];
      assert all[|outcomes|] == Outcome(id, phase.kind);
      forall x | x in book' && book'[x].phase.Done? ensures Outcome(x, book'[x].phase.kind) in all {
        if x != id {
          assert Outcome(x, book[x].phase.kind) in outcomes;
        }
      }
    } else {
      forall x | x in book' && book'[x].phase.Done? ensures Outcome(x, book'[x].phase.kind) in outcomes {
        assert x != id;
      }
    }
  }

  lemma HandleKeepsHistory(w: World, position: nat, b: Branch)
    requires Inv(w) && InvHistory(w) && position < |w.topic|
    ensures InvHistory(Handled(w, position, b))
  {
    var m := w.topic[position].webhook;
    var r := RefOf(m);
    if r !in w.store.markers {
      UnmarkedIsHead(w.store.markers, w.book, r);
      HandledShape(w, position, b);
      var phase, due := PhaseAfter(m, b), DueAfter(w.book, m, b);
      NotedKeepsDeliveries(w.deliveries, w.store.markers, w.book, r, phase, due, b.Attempted?);
      NotedKeepsOutcomes(w.outcomes, w.book, r.id, phase, due);
    }
  }

  lemma StepKeepsHistory(w: World, s: Step)
    requires Inv(w) && InvHistory(w) && Enabled(w, s)
    ensures InvHistory(Apply(w, s))
  {
    if s.Handle? {
      HandleKeepsHistory(w, s.position, s.branch);
    }
  }

  lemma {:induction false} RunKeepsHistory(w: World, run: seq<Step>)
    requires Inv(w) && InvHistory(w) && ValidRun(w, run)
    ensures Inv(After(w, run)) && InvHistory(After(w, run))
    decreases |run|
  {
    if run != [] {
      StepKeepsInv(w, run[0]);
      StepKeepsHistory(w, run[0]);
      RunKeepsHistory(Apply(w, run[0]), run[1..]);
    }
  }

  /** Main result: over every run from the empty system, no attempt is delivered twice. */
  lemma AtMostOneDeliveryPerAttempt(run: seq<Step>)
    requires ValidRun(INITIAL, run)
    ensures var w := After(INITIAL, run);
            forall i, j :: 0 <= i < j < |w.deliveries| ==> w.deliveries[i] != w.deliveries[j]
  {
    RunKeepsHistory(INITIAL, run);
  }

  /** Main result: a webhook is delivered, dead-lettered or dropped as exhausted at most once in all. */
  lemma AtMostOneOutcome(run: seq<Step>)
    requires ValidRun(INITIAL, run)
    ensures var w := After(INITIAL, run);
            forall i, j :: 0 <= i < j < |w.outcomes| ==> w.outcomes[i].id != w.outcomes[j].id
  {
    RunKeepsHistory(INITIAL, run);
  }

  /** Main result: a webhook is delivered at most MaxAttempts + 1 times, and no attempt number
      anywhere on the topic or in the retry set exceeds MaxAttempts. */
  lemma DeliveriesBounded(run: seq<Step>, id: WebhookId)
    requires ValidRun(INITIAL, run) && id in After(INITIAL, run).book
    ensures var w := After(INITIAL, run);
            var budget := if w.book[id].origin.maxAttempts < 0 then 0 else w.book[id].origin.maxAttempts;
            && DeliveryCount(w.deliveries, id) <= budget + 1
            && (forall i :: 0 <= i < |w.topic| && w.topic[i].webhook.id == id ==> w.topic[i].webhook.attempt <= budget)
            && (forall r :: r in w.store.retries && r.id == id ==> r.attempt <= budget)
  {
    RunKeepsHistory(INITIAL, run);
    var w := After(INITIAL, run);
    assert EntryOk(id, w.book[id]);
    forall i | 0 <= i < |w.topic| && w.topic[i].webhook.id == id
      ensures w.topic[i].webhook.attempt <= Top(w.book[id])
    {
      assert KnownWebhook(w.book, w.topic[i].webhook);
    }
  }
}
