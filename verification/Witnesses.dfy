/** Short runs from the empty system on the failing side of the exact conditions. */
module Witnesses {
  import opened Domain
  import opened Lifecycle
  import opened LifecycleInvariant
  import opened DeliveryBounds
  import opened NoLoss
  import opened LastCopy
  import opened Rebuild
  import opened Reconcilers
  import ExpiringData

  const SUCCESS := Attempted(200, false, 0, true, true, true, true)

  /** Accepted, delivered once, failed and rescheduled. */
  function Failing(webhook: Webhook, rest: seq<Step>): seq<Step> {
    [Enqueue(webhook)] + ([Handle(0, ExpiringData.FAILURE)] + rest)
  }

  lemma TwoSteps(w: World, s1: Step, s2: Step, w2: World, rest: seq<Step>)
    requires Enabled(w, s1) && Enabled(Apply(w, s1), s2) && Apply(Apply(w, s1), s2) == w2 && ValidRun(w2, rest)
    ensures ValidRun(w, [s1] + ([s2] + rest)) && After(w, [s1] + ([s2] + rest)) == After(w2, rest)
  {
    ThenStep(Apply(w, s1), s2, rest);
    ThenStep(w, s1, [s2] + rest);
  }

  lemma FailingRun(webhook: Webhook, rest: seq<Step>)
    requires webhook.attempt == 0 && 2 <= webhook.maxAttempts && ValidRun(ExpiringData.FailedOnce(webhook), rest)
    ensures ValidRun(INITIAL, Failing(webhook, rest))
    ensures After(INITIAL, Failing(webhook, rest)) == After(ExpiringData.FailedOnce(webhook), rest)
  {
    ExpiringData.FailedOnceIsReached(1, webhook);
    TwoSteps(INITIAL, Enqueue(webhook), Handle(0, ExpiringData.FAILURE), ExpiringData.FailedOnce(webhook), rest);
  }

  // ---------------------------------------------------------------- a read that fails

  function FailedReadRun(r: Ref): seq<Step> {
    [Pop({r}, 35)] + ([Fetch(r, false)] + ([AckDiscarded(r, true)] + []))
  }

  lemma DiscardedState(w: World, r: Ref)
    requires w.hands == INITIAL.hands && w.store.retries.Keys == {r}
    ensures ValidRun(w, FailedReadRun(r))
    ensures After(w, FailedReadRun(r)) == w.(store := w.store.(retries := map[]))
  {
    var w1 := Apply(w, Pop({r}, 35));
    var w2 := Apply(w1, Fetch(r, false));
    assert w2.hands == INITIAL.hands.(discarded := multiset{r});
    var w3 := Apply(w2, AckDiscarded(r, true));
    assert w3.hands == INITIAL.hands && w3.store.retries == map[];
    ThenStep(w2, AckDiscarded(r, true), []);
    TwoSteps(w, Pop({r}, 35), Fetch(r, false), w2, [AckDiscarded(r, true)] + []);
  }

  lemma NothingLeft(webhook: Webhook)
    requires webhook.attempt == 0
    ensures var w := ExpiringData.FailedOnce(webhook);
            var e := w.(store := w.store.(retries := map[]));
            webhook.id in e.book && !HeadKept(e, webhook.id)
  {
    var w := ExpiringData.FailedOnce(webhook);
    assert forall i :: 0 <= i < |w.topic| ==> RefOf(w.topic[i].webhook).attempt == 0;
  }

  lemma RunKeptMeans(run: seq<Step>, id: WebhookId)
    requires ValidRun(INITIAL, run) && id in After(INITIAL, run).book
    ensures Kept(After(INITIAL, run), id) <==> HeadKept(After(INITIAL, run), id)
  {
    RunKeepsHistory(INITIAL, run);
    KeptMeans(After(INITIAL, run), id);
  }

  /** One failed read of data that is there loses the webhook: the scheduler removes the only reference to it. */
  lemma FailedReadLoses(webhook: Webhook)
    requires webhook.attempt == 0 && 2 <= webhook.maxAttempts
    ensures var run := Failing(webhook, FailedReadRun(Ref(webhook.id, 1)));
            && ValidRun(INITIAL, run) && webhook.id in After(INITIAL, run).book
            && !Kept(After(INITIAL, run), webhook.id)
  {
    var w, r := ExpiringData.FailedOnce(webhook), Ref(webhook.id, 1);
    DiscardedState(w, r);
    FailingRun(webhook, FailedReadRun(r));
    NothingLeft(webhook);
    RunKeptMeans(Failing(webhook, FailedReadRun(r)), webhook.id);
  }

  // ---------------------------------------------------------------- a superseded snapshot

  function DeliveredRun(next: Webhook): seq<Step> {
    [Pop({RefOf(next)}, 35)] + ([Fetch(RefOf(next), true)] + ([Publish(next, Published)] + ([Handle(1, SUCCESS)] + [])))
  }

  lemma LastDelivery(w: World, next: Webhook)
    requires |w.topic| == 2 && w.topic[1].webhook == next && RefOf(next) !in w.store.markers && w.book.Keys == {next.id}
    ensures var e := Handled(w, 1, SUCCESS);
            && e.stateLog == w.stateLog + [Tombstone(next.id)]
            && e.book.Keys == {next.id} && e.book[next.id].phase == Done(Delivered)
  {
    assert Succeeds(SUCCESS);
  }

  lemma BeforeLast(webhook: Webhook)
    requires webhook.attempt == 0
    ensures var w, next := ExpiringData.FailedOnce(webhook), NextAttempt(webhook, 5);
            var w2 := ExpiringData.Resolved(w, next);
            && Enabled(w2, Publish(next, Published))
            && var w3 := Apply(w2, Publish(next, Published));
               && |w3.topic| == 2 && w3.topic[1].webhook == next && RefOf(next) !in w3.store.markers
               && w3.book.Keys == {next.id} && w3.stateLog == w.stateLog
  {
  }

  /** Delivered at the first retry: the log holds the snapshot of that retry and the tombstone after it. */
  lemma DeliveredState(webhook: Webhook)
    requires webhook.attempt == 0 && 2 <= webhook.maxAttempts
    ensures var w, next := ExpiringData.FailedOnce(webhook), NextAttempt(webhook, 5);
            && ValidRun(w, DeliveredRun(next))
            && var e := After(w, DeliveredRun(next));
               && e.stateLog == w.stateLog + [Tombstone(webhook.id)]
               && webhook.id in e.book && e.book[webhook.id].phase == Done(Delivered) && e.book.Keys == {webhook.id}
  {
    var w, next := ExpiringData.FailedOnce(webhook), NextAttempt(webhook, 5);
    var w2 := ExpiringData.Resolved(w, next);
    BeforeLast(webhook);
    ExpiringData.LeaseRun(w, RefOf(next), next);
    var w3 := Apply(w2, Publish(next, Published));
    LastDelivery(w3, next);
    var w4 := Apply(w3, Handle(1, SUCCESS));
    TwoSteps(w2, Publish(next, Published), Handle(1, SUCCESS), w4, []);
    TwoSteps(w, Pop({RefOf(next)}, 35), Fetch(RefOf(next), true), w2,
        [Publish(next, Published)] + ([Handle(1, SUCCESS)] + []));
  }

  /** Rebuilding from that log before it is compacted brings back the reference of a webhook that was delivered. */
  lemma StaleSnapshotReturns(webhook: Webhook)
    requires webhook.attempt == 0 && 2 <= webhook.maxAttempts
    ensures var run := Failing(webhook, DeliveredRun(NextAttempt(webhook, 5)));
            && ValidRun(INITIAL, run)
            && var w := After(INITIAL, run);
               && IsCleaning(w.stateLog, w.stateLog) && Ref(webhook.id, 1) in Rebuilt(w.stateLog).retries
               && Pending(w.book) == map[]
  {
    var next := NextAttempt(webhook, 5);
    var run := Failing(webhook, DeliveredRun(next));
    DeliveredState(webhook);
    FailingRun(webhook, DeliveredRun(next));
    var w := After(INITIAL, run);
    SelfCleaning(w.stateLog);
    RebuiltRetries(w.stateLog);
    assert w.stateLog[0] == Snap(webhook.id, SnapshotOf(next, 5)) && Restorable(w.stateLog[0]);
    assert RestoredRef(w.stateLog[0]) == Ref(webhook.id, 1);
  }

  lemma SelfCleaning(log: seq<StateRecord>)
    ensures IsCleaning(log, log)
  {
    forall key | Latest(log, key).Some? && Latest(log, key).value.Snap? ensures Latest(log, key).value in log {
      LatestIn(log, key);
    }
  }

  // ---------------------------------------------------------------- past the high-water mark

  /** A tombstone is the last record below the mark: a snapshot published after the reading began is restored as
      well. */
  lemma TombstoneReadsOn(key: WebhookId, later: StateRecord, read: nat)
    requires later.Snap?
    ensures var messages := [LogEntry(0, Some(Tombstone(key)), true, true, true, false),
                             LogEntry(1, Some(later), true, true, true, false)];
            ReadsTo(messages, 1, read) <==> read == 2
  {
  }
}
