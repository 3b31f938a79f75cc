/** Rebuilding the retry store from the compacted state topic. */
module Rebuild {
  import opened Domain
  import opened Lifecycle
  import opened LifecycleInvariant
  import opened NoLoss

  // ---------------------------------------------------------------- the fold

  /** The webhook `restoreState` reconstructs from a snapshot. */
  function WebhookOf(snap: Snapshot, scheduledAt: int): Webhook {
    Webhook(snap.webhookId,
            Request(snap.configId, snap.endpoint, snap.endpointHash, snap.payload, snap.headers, snap.idempotencyKey,
                    snap.signingSecret, snap.scriptHash, snap.deliveryQueryParams, snap.deliveryHeaders,
                        snap.retryOnStatus),
            snap.attempt, snap.maxAttempts, snap.createdAt, scheduledAt)
  }

  /** The snapshot describes a webhook that waits for a retry. */
  predicate Restorable(rec: StateRecord) {
    rec.Snap? && rec.snapshot.state == StateFailed && rec.snapshot.nextRetryAt.Some?
  }

  function RestoredRef(rec: StateRecord): Ref
    requires rec.Snap?
  {
    Ref(rec.snapshot.webhookId, rec.snapshot.attempt)
  }

  /** `consumePartition` on one record: tombstones are skipped, snapshots restored. */
  function Restored(s: Store, rec: StateRecord): Store {
    if Restorable(rec)
    then var at := rec.snapshot.nextRetryAt.value; Scheduled(s, WebhookOf(rec.snapshot, at), at, true, true)
    else s
  }

  const FLUSHED := Store({}, map[], map[])

  function Rebuilt(records: seq<StateRecord>): Store {
    if records == [] then FLUSHED
    else Restored(Rebuilt(records[..|records| - 1]), records[|records| - 1])
  }

  // ---------------------------------------------------------------- compaction

  function Latest(log: seq<StateRecord>, key: WebhookId): Option<StateRecord> {
    if log == [] then None
    else if log[|log| - 1].key == key then Some(log[|log| - 1])
    else Latest(log[..|log| - 1], key)
  }

  /** `c` holds only latest records, at most one per key, and every latest snapshot; old tombstones may be gone. */
  ghost predicate IsCompaction(log: seq<StateRecord>, c: seq<StateRecord>) {
    && (forall i :: 0 <= i < |c| ==> Latest(log, c[i].key) == Some(c[i]))
    && (forall i, j :: 0 <= i < j < |c| ==> c[i].key != c[j].key)
    && HoldsLatest(log, c)
  }

  ghost predicate HoldsLatest(log: seq<StateRecord>, c: seq<StateRecord>) {
    forall key :: Latest(log, key).Some? && Latest(log, key).value.Snap? ==> Latest(log, key).value in c
  }

  lemma {:induction false} LatestIn(log: seq<StateRecord>, key: WebhookId)
    ensures Latest(log, key).Some? ==> Latest(log, key).value in log && Latest(log, key).value.key == key
    ensures Latest(log, key).None? ==> forall i :: 0 <= i < |log| ==> log[i].key != key
  {
    if log != [] && log[|log| - 1].key != key {
      LatestIn(log[..|log| - 1], key);
    }
  }

  // ---------------------------------------------------------------- what the state log says

  /** The snapshot of a webhook whose latest scheduled attempt is `Top(e)`. */
  function HeadSnapshot(e: Entry): StateRecord {
    Snap(e.origin.id, SnapshotOf(e.origin.(attempt := Top(e)), e.due))
  }

  function ExpectedLatest(e: Entry): Option<StateRecord> {
    if e.phase.Done? then Some(Tombstone(e.origin.id))
    else if Top(e) == 0 then None
    else Some(HeadSnapshot(e))
  }

  ghost predicate InvLatest(log: seq<StateRecord>, book: Book) {
    && (forall id :: id in book ==> Latest(log, id) == ExpectedLatest(book[id]))
    && (forall id :: id !in book ==> Latest(log, id) == None)
  }

  /** Every snapshot in the log is restorable, names its own key, and is older than the head unless it is the head's. */
  ghost predicate InvSnapshots(log: seq<StateRecord>, book: Book) {
    forall i :: 0 <= i < |log| && log[i].Snap? ==>
      && log[i].key in book && log[i].snapshot.webhookId == log[i].key && Restorable(log[i])
      && log[i].snapshot.attempt <= Top(book[log[i].key])
      && (!book[log[i].key].phase.Done? && log[i].snapshot.attempt == Top(book[log[i].key]) ==>
            log[i] == HeadSnapshot(book[log[i].key]))
  }

  ghost predicate InvLog(w: World) {
    InvLatest(w.stateLog, w.book) && InvSnapshots(w.stateLog, w.book)
  }

  lemma LatestAppend(log: seq<StateRecord>, rec: StateRecord)
    ensures forall key :: Latest(log + [rec], key) == if rec.key == key then Some(rec) else Latest(log, key)
  {
    assert (log + [rec])[..|log|] == log;
  }

  lemma TakenUpKeepsLatest(log: seq<StateRecord>, book: Book, m: Webhook, b: Branch)
    requires InvBook(book) && InvLatest(log, book) && KnownWebhook(book, m)
    requires book[m.id].phase.Active? && book[m.id].next == m.attempt
    ensures var phase := PhaseAfter(m, b);
            var log' := if phase.Done? then log + [Tombstone(m.id)]
                        else if phase.Active? then log + [Snap(m.id, SnapshotOf(NextAttempt(m, b.retryAt), b.retryAt))]
                        else log;
            InvLatest(log', Noted(book, m.id, phase, DueAfter(book, m, b)))
  {
    var phase := PhaseAfter(m, b);
    if phase.Done? {
      LatestAppend(log, Tombstone(m.id));
    } else if phase.Active? {
      LatestAppend(log, Snap(m.id, SnapshotOf(NextAttempt(m, b.retryAt), b.retryAt)));
    }
  }

  lemma TakenUpKeepsSnapshots(log: seq<StateRecord>, book: Book, m: Webhook, b: Branch)
    requires InvBook(book) && InvSnapshots(log, book) && KnownWebhook(book, m)
    requires book[m.id].phase.Active? && book[m.id].next == m.attempt
    ensures var phase := PhaseAfter(m, b);
            var log' := if phase.Done? then log + [Tombstone(m.id)]
                        else if phase.Active? then log + [Snap(m.id, SnapshotOf(NextAttempt(m, b.retryAt), b.retryAt))]
                        else log;
            InvSnapshots(log', Noted(book, m.id, phase, DueAfter(book, m, b)))
  {
  }

  lemma StepKeepsLog(w: World, s: Step)
    requires Inv(w) && InvLog(w) && Enabled(w, s)
    ensures InvLog(Apply(w, s))
  {
    if s.Handle? {
      var m := w.topic[s.position].webhook;
      if RefOf(m) !in w.store.markers {
        UnmarkedIsHead(w.store.markers, w.book, RefOf(m));
        HandledShape(w, s.position, s.branch);
        TakenUpKeepsLatest(w.stateLog, w.book, m, s.branch);
        TakenUpKeepsSnapshots(w.stateLog, w.book, m, s.branch);
      }
    }
  }

  lemma {:induction false} RunKeepsLog(w: World, run: seq<Step>)
    requires Inv(w) && InvLog(w) && ValidRun(w, run)
    ensures Inv(After(w, run)) && InvLog(After(w, run))
    decreases |run|
  {
    if run != [] {
      StepKeepsInv(w, run[0]);
      StepKeepsLog(w, run[0]);
      RunKeepsLog(Apply(w, run[0]), run[1..]);
    }
  }

  // ---------------------------------------------------------------- what the fold computes

  /** The rebuilt references are those of the restorable records, each scored by one of them. */
  lemma {:induction false} RebuiltRetries(records: seq<StateRecord>)
    ensures forall i :: 0 <= i < |records| && Restorable(records[i]) ==>
        RestoredRef(records[i]) in Rebuilt(records).retries
    ensures forall r :: r in Rebuilt(records).retries ==>
              exists i :: 0 <= i < |records| && Restorable(records[i]) && RestoredRef(records[i]) == r
                          && Rebuilt(records).retries[r] == Unix(records[i].snapshot.nextRetryAt.value)
  {
    if records != [] {
      var front, last := records[..|records| - 1], records[|records| - 1];
      RebuiltRetries(front);
      forall r | r in Rebuilt(records).retries
        ensures exists i :: 0 <= i < |records| && Restorable(records[i]) && RestoredRef(records[i]) == r
                            && Rebuilt(records).retries[r] == Unix(records[i].snapshot.nextRetryAt.value)
      {
        if Restorable(last) && RestoredRef(last) == r {
          assert records[|records| - 1] == last;
        } else {
          assert r in Rebuilt(front).retries && Rebuilt(front).retries[r] == Rebuilt(records).retries[r];
          var i :| 0 <= i < |front| && Restorable(front[i]) && RestoredRef(front[i]) == r
                   && Rebuilt(front).retries[r] == Unix(front[i].snapshot.nextRetryAt.value);
          assert records[i] == front[i];
        }
      }
    }
  }

  lemma {:induction false} RebuiltData(records: seq<StateRecord>)
    ensures forall i :: 0 <= i < |records| && Restorable(records[i]) ==>
        records[i].snapshot.webhookId in Rebuilt(records).data
    ensures forall id :: id in Rebuilt(records).data ==>
              exists i :: 0 <= i < |records| && Restorable(records[i]) && records[i].snapshot.webhookId == id
                          && Rebuilt(records).data[id] ==
                              WebhookOf(records[i].snapshot, records[i].snapshot.nextRetryAt.value)
    ensures Rebuilt(records).markers == {}
  {
    if records != [] {
      var front, last := records[..|records| - 1], records[|records| - 1];
      RebuiltData(front);
      forall id | id in Rebuilt(records).data
        ensures exists i :: 0 <= i < |records| && Restorable(records[i]) && records[i].snapshot.webhookId == id
                            && Rebuilt(records).data[id] ==
                                WebhookOf(records[i].snapshot, records[i].snapshot.nextRetryAt.value)
      {
        if id in Rebuilt(front).data {
          var i :| 0 <= i < |front| && Restorable(front[i]) && front[i].snapshot.webhookId == id
                   && Rebuilt(front).data[id] == WebhookOf(front[i].snapshot, front[i].snapshot.nextRetryAt.value);
          assert records[i] == front[i];
        } else {
          assert records[|records| - 1] == last;
        }
      }
    }
  }

  /** The references that ought to exist: the head of every webhook that has failed and has no terminal outcome. */
  function Pending(book: Book): map<Ref, int> {
    map id | id in book && !book[id].phase.Done? && 1 <= Top(book[id]) :: Ref(id, Top(book[id])) := Unix(book[id].due)
  }

  lemma PendingKeys(book: Book, r: Ref)
    ensures r in Pending(book) <==>
              r.id in book && !book[r.id].phase.Done? && 1 <= Top(book[r.id]) && r.attempt == Top(book[r.id])
    ensures r in Pending(book) ==> Pending(book)[r] == Unix(book[r.id].due)
  {
  }

  // ---------------------------------------------------------------- main results

  /** The records kept by an arbitrary cleaning of the log: all from the log, every latest snapshot among them. */
  ghost predicate IsCleaning(log: seq<StateRecord>, c: seq<StateRecord>) {
    (forall i :: 0 <= i < |c| ==> c[i] in log) && HoldsLatest(log, c)
  }

  /** Every snapshot kept is the latest record of its key. */
  ghost predicate Compacted(log: seq<StateRecord>, c: seq<StateRecord>) {
    forall i :: 0 <= i < |c| && c[i].Snap? ==> Latest(log, c[i].key) == Some(c[i])
  }

  lemma CompactionIsCleaning(log: seq<StateRecord>, c: seq<StateRecord>)
    requires IsCompaction(log, c)
    ensures IsCleaning(log, c) && Compacted(log, c)
  {
    forall i | 0 <= i < |c| ensures c[i] in log {
      LatestIn(log, c[i].key);
    }
  }

  lemma PendingIsRebuilt(w: World, c: seq<StateRecord>, r: Ref)
    requires Inv(w) && InvLog(w) && HoldsLatest(w.stateLog, c) && r in Pending(w.book)
    ensures r in Rebuilt(c).retries && r.id in Rebuilt(c).data
  {
    PendingKeys(w.book, r);
    var head := HeadSnapshot(w.book[r.id]);
    assert Latest(w.stateLog, r.id) == Some(head);
    assert head in c;
    var i :| 0 <= i < |c| && c[i] == head;
    RebuiltRetries(c);
    RebuiltData(c);
  }

  lemma KeptHeadIsPending(w: World, rec: StateRecord)
    requires Inv(w) && InvLog(w) && rec.Snap? && Latest(w.stateLog, rec.key) == Some(rec)
    ensures rec.key in w.book && rec == HeadSnapshot(w.book[rec.key])
    ensures RestoredRef(rec) in Pending(w.book) &&
        Pending(w.book)[RestoredRef(rec)] == Unix(rec.snapshot.nextRetryAt.value)
  {
    PendingKeys(w.book, RestoredRef(rec));
  }

  lemma StaleIsNotPending(w: World, rec: StateRecord)
    requires Inv(w) && InvLog(w) && rec in w.stateLog && rec.Snap? && Latest(w.stateLog, rec.key) != Some(rec)
    ensures RestoredRef(rec) !in Pending(w.book)
  {
    PendingKeys(w.book, RestoredRef(rec));
  }

  lemma CompactedIsExact(w: World, c: seq<StateRecord>)
    requires Inv(w) && InvLog(w) && HoldsLatest(w.stateLog, c) && Compacted(w.stateLog, c)
    ensures Rebuilt(c).retries == Pending(w.book)
  {
    var got, want := Rebuilt(c).retries, Pending(w.book);
    RebuiltRetries(c);
    forall r | r in want ensures r in got {
      PendingIsRebuilt(w, c, r);
    }
    forall r | r in got ensures r in want && want[r] == got[r] {
      var i :| 0 <= i < |c| && Restorable(c[i]) && RestoredRef(c[i]) == r &&
          got[r] == Unix(c[i].snapshot.nextRetryAt.value);
      KeptHeadIsPending(w, c[i]);
    }
  }

  lemma StaleIsNotExact(w: World, c: seq<StateRecord>, i: nat)
    requires Inv(w) && InvLog(w) && i < |c| && c[i] in w.stateLog
    requires c[i].Snap? && Latest(w.stateLog, c[i].key) != Some(c[i])
    ensures RestoredRef(c[i]) in Rebuilt(c).retries && RestoredRef(c[i]) !in Pending(w.book)
  {
    StaleIsNotPending(w, c[i]);
    RebuiltRetries(c);
  }

  /** Main result: in every reachable state, rebuilding from what is left of the state log gives exactly the head
      references with their latest retry times, if and only if no superseded snapshot is left in it. */
  lemma RebuildExactIffCompacted(run: seq<Step>, c: seq<StateRecord>)
    requires ValidRun(INITIAL, run)
    requires IsCleaning(After(INITIAL, run).stateLog, c)
    ensures Rebuilt(c).retries == Pending(After(INITIAL, run).book) <==> Compacted(After(INITIAL, run).stateLog, c)
  {
    RunKeepsLog(INITIAL, run);
    var w := After(INITIAL, run);
    if Compacted(w.stateLog, c) {
      CompactedIsExact(w, c);
    } else {
      var i :| 0 <= i < |c| && c[i].Snap? && Latest(w.stateLog, c[i].key) != Some(c[i]);
      StaleIsNotExact(w, c, i);
    }
  }

  /** Main result: rebuilding from a compacted log brings back exactly the webhooks without a terminal outcome that have
      failed at least once, those a lossy branch had dropped included, and each of them is live again at its head
      attempt. */
  lemma RebuildRevives(run: seq<Step>, c: seq<StateRecord>, id: WebhookId)
    requires ValidRun(INITIAL, run) && IsCompaction(After(INITIAL, run).stateLog, c)
    requires id in After(INITIAL, run).book
    ensures var w := After(INITIAL, run);
            var e := w.book[id];
            && ((exists r :: r in Rebuilt(c).retries && r.id == id) <==> !e.phase.Done? && 1 <= Top(e))
            && (!e.phase.Done? && 1 <= Top(e) ==> LiveAt(w.(store := Rebuilt(c)), Ref(id, Top(e))))
  {
    RunKeepsLog(INITIAL, run);
    var w := After(INITIAL, run);
    CompactionIsCleaning(w.stateLog, c);
    CompactedIsExact(w, c);
    var head := Ref(id, Top(w.book[id]));
    PendingKeys(w.book, head);
    RebuiltData(c);
    if head in Pending(w.book) {
      PendingIsRebuilt(w, c, head);
    } else {
      forall r | r in Pending(w.book) ensures r.id != id {
        PendingKeys(w.book, r);
      }
    }
  }

  /** Every webhook that has failed and has no terminal outcome has its data stored. */
  ghost predicate InvKept(data: map<WebhookId, Webhook>, book: Book) {
    forall id :: id in book && !book[id].phase.Done? && 1 <= Top(book[id]) ==> id in data
  }

  lemma StepKeepsKept(w: World, s: Step)
    requires Inv(w) && InvKept(w.store.data, w.book) && Enabled(w, s)
    ensures InvKept(Apply(w, s).store.data, Apply(w, s).book)
  {
    if s.Handle? {
      var m := w.topic[s.position].webhook;
      if RefOf(m) !in w.store.markers {
        UnmarkedIsHead(w.store.markers, w.book, RefOf(m));
        HandledShape(w, s.position, s.branch);
        HandledStore(w, s.position, s.branch);
      }
    } else {
      ElsewhereShape(w, s);
    }
  }

  lemma {:induction false} RunKeepsKept(w: World, run: seq<Step>)
    requires Inv(w) && InvKept(w.store.data, w.book) && ValidRun(w, run)
    ensures InvKept(After(w, run).store.data, After(w, run).book)
    decreases |run|
  {
    if run != [] {
      StepKeepsInv(w, run[0]);
      StepKeepsKept(w, run[0]);
      RunKeepsKept(Apply(w, run[0]), run[1..]);
    }
  }

  /** Main result: from a compacted log, every rebuilt reference has its data, live and rebuilt, and what the scheduler
      would publish for it is the webhook it would publish from the live data, except for the scheduled time. */
  lemma RebuiltPublishesTheSame(run: seq<Step>, c: seq<StateRecord>, r: Ref)
    requires ValidRun(INITIAL, run) && IsCompaction(After(INITIAL, run).stateLog, c)
    requires r in Rebuilt(c).retries
    ensures r.id in Rebuilt(c).data && r.id in After(INITIAL, run).store.data
    ensures var live := After(INITIAL, run).store.data[r.id].(attempt := r.attempt);
            var rebuilt := Rebuilt(c).data[r.id].(attempt := r.attempt);
            rebuilt == live.(scheduledAt := rebuilt.scheduledAt)
  {
    RunKeepsLog(INITIAL, run);
    var w := After(INITIAL, run);
    CompactionIsCleaning(w.stateLog, c);
    CompactedIsExact(w, c);
    RunKeepsKept(INITIAL, run);
    PendingKeys(w.book, r);
    PendingIsRebuilt(w, c, r);
    RebuiltData(c);
    var i :| 0 <= i < |c| && Restorable(c[i]) && c[i].snapshot.webhookId == r.id
             && Rebuilt(c).data[r.id] == WebhookOf(c[i].snapshot, c[i].snapshot.nextRetryAt.value);
    KeptHeadIsPending(w, c[i]);
  }

  // ---------------------------------------------------------------- safety across a rebuild

  /** A first attempt is scheduled only after it has been marked. */
  ghost predicate InvScheduled(retries: map<Ref, int>, markers: set<Ref>) {
    forall r :: r in retries && r.attempt == 0 ==> r in markers
  }

  lemma HandledRetries(w: World, position: nat, b: Branch, r: Ref)
    requires position < |w.topic| && r in Handled(w, position, b).store.retries
    ensures var m := w.topic[position].webhook; r in w.store.retries || r == RefOf(m) || r == Ref(m.id, m.attempt + 1)
  {
  }

  lemma ElsewhereRetriesShrink(w: World, s: Step, r: Ref)
    requires Enabled(w, s) && !s.Handle? && r in Apply(w, s).store.retries
    ensures r in w.store.retries
  {
  }

  lemma StepKeepsScheduled(w: World, s: Step)
    requires Inv(w) && InvScheduled(w.store.retries, w.store.markers) && Enabled(w, s)
    ensures InvScheduled(Apply(w, s).store.retries, Apply(w, s).store.markers)
  {
    var w' := Apply(w, s);
    forall r | r in w'.store.retries && r.attempt == 0 ensures r in w'.store.markers {
      if s.Handle? {
        HandledRetries(w, s.position, s.branch, r);
        HandledMarkers(w, s.position, s.branch);
        assert KnownWebhook(w.book, w.topic[s.position].webhook);
      } else {
        ElsewhereRetriesShrink(w, s, r);
        ElsewhereShape(w, s);
      }
    }
  }

  lemma HandledMarkers(w: World, position: nat, b: Branch)
    requires position < |w.topic|
    ensures Handled(w, position, b).store.markers == w.store.markers + {RefOf(w.topic[position].webhook)}
  {
  }

  lemma {:induction false} RunKeepsScheduled(w: World, run: seq<Step>)
    requires Inv(w) && InvScheduled(w.store.retries, w.store.markers) && ValidRun(w, run)
    ensures InvScheduled(After(w, run).store.retries, After(w, run).store.markers)
    decreases |run|
  {
    if run != [] {
      StepKeepsInv(w, run[0]);
      StepKeepsScheduled(w, run[0]);
      RunKeepsScheduled(Apply(w, run[0]), run[1..]);
    }
  }

  /** A first attempt that is live waits on a topic, which no rebuild touches. */
  lemma FirstAttemptStaysLive(w: World, s: Store, id: WebhookId)
    requires Inv(w) && InvScheduled(w.store.retries, w.store.markers) && Live(w, id)
    requires id in w.book && Top(w.book[id]) == 0 && s.markers == {}
    ensures Live(w.(store := s), id)
  {
    var attempt: int :| LiveAt(w, Ref(id, attempt));
    LiveIsHead(w, Ref(id, attempt));
    assert LiveAt(w.(store := s), Ref(id, attempt));
  }

  /** Main result: flushing Redis and rebuilding it from a compacted log in any reachable state loses no safe
      webhook. */
  lemma RebuildKeepsSafe(run: seq<Step>, c: seq<StateRecord>, id: WebhookId)
    requires ValidRun(INITIAL, run) && IsCompaction(After(INITIAL, run).stateLog, c)
    requires Safe(After(INITIAL, run), id)
    ensures Safe(After(INITIAL, run).(store := Rebuilt(c)), id)
  {
    var w := After(INITIAL, run);
    RunKeepsInv(INITIAL, run);
    if !Settled(w, id) {
      var attempt: int :| LiveAt(w, Ref(id, attempt));
      LiveIsHead(w, Ref(id, attempt));
      if 1 <= Top(w.book[id]) {
        RebuildRevives(run, c, id);
      } else {
        RunKeepsScheduled(INITIAL, run);
        RebuiltData(c);
        FirstAttemptStaysLive(w, Rebuilt(c), id);
      }
    }
  }
}
