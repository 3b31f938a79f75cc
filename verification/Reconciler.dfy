/** The reconciler: one partition of the state topic read into a flushed store. */
module Reconcilers {
  import opened Domain
  import opened Lifecycle
  import opened Reference
  import opened HotStates
  import opened Rebuild

  /** A message of the partition; None is a value that does not parse. The booleans say whether the status write,
      the data write and the schedule write of its restore succeed, and whether the context is cancelled by then. */
  datatype LogEntry =
    LogEntry(offset: int, record: Option<StateRecord>, statusOk: bool, ensureOk: bool, scheduleOk: bool,
        cancelled: bool)

  datatype Counts = Counts(restored: nat, tombstones: nat, parseErrors: nat)

  /** The message reaches the high-water check: it is a snapshot and its restore succeeds. */
  predicate IsRestored(m: LogEntry) {
    && m.record.Some? && m.record.value.Snap? && m.statusOk
    && (Restorable(m.record.value) ==> m.ensureOk && m.scheduleOk)
  }

  function RestoreOne(ttl: int, s: Store, m: LogEntry): Store {
    if m.record.Some? && Restorable(m.record.value) && m.statusOk then
      var snap := m.record.value.snapshot;
      ScheduledFor(ttl, s, WebhookOf(snap, snap.nextRetryAt.value), snap.nextRetryAt.value, m.ensureOk, m.scheduleOk)
    else s
  }

  function RestoreAll(ttl: int, s: Store, messages: seq<LogEntry>): Store {
    if messages == [] then s
        else RestoreOne(ttl, RestoreAll(ttl, s, messages[..|messages| - 1]), messages[|messages| - 1])
  }

  function CountOne(c: Counts, m: LogEntry): Counts {
    if m.record.None? then c.(parseErrors := c.parseErrors + 1)
    else if m.record.value.Tombstone? then c.(tombstones := c.tombstones + 1)
    else if IsRestored(m) then c.(restored := c.restored + 1)
    else c
  }

  function CountAll(c: Counts, messages: seq<LogEntry>): Counts {
    if messages == [] then c else CountOne(CountAll(c, messages[..|messages| - 1]), messages[|messages| - 1])
  }

  /** The loop ends at this message. */
  predicate Stops(m: LogEntry, highWaterMark: int) {
    IsRestored(m) && m.offset >= highWaterMark - 1
  }

  /** The last of the first `read` messages stops the loop. */
  predicate StoppedAt(messages: seq<LogEntry>, highWaterMark: int, read: nat)
    requires read <= |messages|
  {
    read > 0 && Stops(messages[read - 1], highWaterMark)
  }

  /** `read` messages are handled: up to the first that stops the loop, or before the first that finds the context
      cancelled, or all that arrive. */
  ghost predicate ReadsTo(messages: seq<LogEntry>, highWaterMark: int, read: nat) {
    && read <= |messages|
    && (forall i :: 0 <= i < read ==> !messages[i].cancelled)
    && (forall i :: 0 <= i < read - 1 ==> !Stops(messages[i], highWaterMark))
    && (read < |messages| ==> StoppedAt(messages, highWaterMark, read) || messages[read].cancelled)
  }

  class Reconciler {
    const hot: HotState
    const dataTtl: int

    constructor (hot: HotState, dataTtl: int)
      ensures this.hot == hot && this.dataTtl == dataTtl
    {
      this.hot, this.dataTtl := hot, dataTtl;
    }

    /** `restoreState`. */
    method RestoreState(m: LogEntry) returns (ok: bool)
      requires hot.Valid() && m.record.Some? && m.record.value.Snap?
      requires ':' !in m.record.value.snapshot.webhookId && IsInt64(m.record.value.snapshot.attempt)
      modifies hot
      ensures hot.Valid() && hot.View() == RestoreOne(dataTtl, old(hot.View()), m)
      ensures ok == IsRestored(m)
      ensures var snap := m.record.value.snapshot;
              var waits := snap.state == StateFailed && snap.nextRetryAt.Some?;
              && (ok <==> m.statusOk && (waits ==> m.ensureOk && m.scheduleOk))
              && (!waits || !m.statusOk ==> hot.View() == old(hot.View()))
              && (waits && m.statusOk && m.ensureOk && m.scheduleOk ==>
                    hot.View().retries == old(hot.View()).retries[Ref(snap.webhookId, snap.attempt) :=
                      snap.nextRetryAt.value / 1_000_000_000])
    {
      if !m.statusOk {
        return false;
      }
      var snap := m.record.value.snapshot;
      if snap.state == StateFailed && snap.nextRetryAt.Some? {
        var webhook := WebhookOf(snap, snap.nextRetryAt.value);
        ok := hot.EnsureRetryData(webhook, dataTtl, m.ensureOk);
        if !ok {
          return false;
        }
        ok := hot.ScheduleRetry(webhook.id, webhook.attempt, snap.nextRetryAt.value, "reconciled", m.scheduleOk);
        return ok;
      }
      return true;
    }

    /** `consumePartition` over the messages that arrive before its channel closes. It stops at the first restored
        snapshot at or past the high-water mark; tombstones, malformed values and failed restores never end it. It fails
        when the partition cannot be opened or the context is cancelled before a message is handled. */
    method ConsumePartition(openOk: bool, messages: seq<LogEntry>, highWaterMark: int, counts: Counts)
      returns (ok: bool, read: nat, counts': Counts)
      requires hot.Valid()
      requires forall i :: 0 <= i < |messages| && messages[i].record.Some? && messages[i].record.value.Snap? ==>
                 ':' !in messages[i].record.value.snapshot.webhookId &&
                     IsInt64(messages[i].record.value.snapshot.attempt)
      modifies hot
      ensures hot.Valid() && read <= |messages|
      ensures !openOk || highWaterMark == 0 ==> read == 0 && ok == openOk
      ensures openOk && highWaterMark != 0 ==>
                && ReadsTo(messages, highWaterMark, read)
                && ok == (read == |messages| || StoppedAt(messages, highWaterMark, read))
      ensures hot.View() == RestoreAll(dataTtl, old(hot.View()), messages[..read])
      ensures counts' == CountAll(counts, messages[..read])
    {
      ok, read, counts' := openOk, 0, counts;
      if !openOk || highWaterMark == 0 {
        return;
      }
      while read < |messages|
        invariant read <= |messages| && hot.Valid()
        invariant forall i :: 0 <= i < read ==> !Stops(messages[i], highWaterMark) && !messages[i].cancelled
        invariant hot.View() == RestoreAll(dataTtl, old(hot.View()), messages[..read])
        invariant counts' == CountAll(counts, messages[..read])
      {
        var m := messages[read];
        if m.cancelled {
          ok := false;
          return;
        }
        assert messages[..read + 1][..read] == messages[..read];
        read := read + 1;
        if m.record.None? {
          counts' := counts'.(parseErrors := counts'.parseErrors + 1);
        } else if m.record.value.Tombstone? {
          counts' := counts'.(tombstones := counts'.tombstones + 1);
        } else {
          var restored := RestoreState(m);
          if restored {
            counts' := counts'.(restored := counts'.restored + 1);
            if m.offset >= highWaterMark - 1 {
              break;
            }
          }
        }
      }
    }
  }

  /** The records of messages that all parse and whose writes all succeed. */
  function RecordsOf(messages: seq<LogEntry>): seq<StateRecord>
    requires forall i :: 0 <= i < |messages| ==> messages[i].record.Some?
  {
    if messages == [] then [] else RecordsOf(messages[..|messages| - 1]) + [messages[|messages| - 1].record.value]
  }

  /** No two messages restore the same webhook, as in a compacted log. */
  predicate RestoresOnce(messages: seq<LogEntry>) {
    forall i, j :: 0 <= i < j < |messages| && RestoresSnapshot(messages[i]) && RestoresSnapshot(messages[j]) ==>
      messages[i].record.value.snapshot.webhookId != messages[j].record.value.snapshot.webhookId
  }

  predicate RestoresSnapshot(m: LogEntry) {
    m.record.Some? && Restorable(m.record.value)
  }

  /** Main result: over a flushed store and without faults, consuming a partition is the fold that the rebuild theorems
      are about, provided that the time to live keeps data that is restored twice, or that none is. */
  lemma {:induction false} ConsumeIsRebuild(ttl: int, messages: seq<LogEntry>)
    requires forall i :: 0 <= i < |messages| ==>
               messages[i].record.Some? && messages[i].statusOk && messages[i].ensureOk && messages[i].scheduleOk
    requires 0 < ttl || RestoresOnce(messages)
    ensures RestoreAll(ttl, FLUSHED, messages) == Rebuilt(RecordsOf(messages))
  {
    if messages != [] {
      var front, last := messages[..|messages| - 1], messages[|messages| - 1];
      ConsumeIsRebuild(ttl, front);
      assert RecordsOf(messages)[..|RecordsOf(messages)| - 1] == RecordsOf(front);
      if ttl <= 0 && RestoresSnapshot(last) {
        NotYetRestored(front, last.record.value.snapshot.webhookId);
      }
    }
  }

  lemma {:induction false} RecordsInOrder(messages: seq<LogEntry>)
    requires forall i :: 0 <= i < |messages| ==> messages[i].record.Some?
    ensures |RecordsOf(messages)| == |messages|
    ensures forall i :: 0 <= i < |messages| ==> RecordsOf(messages)[i] == messages[i].record.value
  {
    if messages != [] {
      RecordsInOrder(messages[..|messages| - 1]);
    }
  }

  /** What no message restores has no data. */
  lemma {:induction false} NotYetRestored(messages: seq<LogEntry>, id: WebhookId)
    requires forall i :: 0 <= i < |messages| ==> messages[i].record.Some?
    requires forall i :: 0 <= i < |messages| && RestoresSnapshot(messages[i]) ==>
               messages[i].record.value.snapshot.webhookId != id
    ensures id !in Rebuilt(RecordsOf(messages)).data
  {
    RebuiltData(RecordsOf(messages));
    RecordsInOrder(messages);
    assert forall i :: 0 <= i < |messages| && Restorable(RecordsOf(messages)[i]) ==> RestoresSnapshot(messages[i]);
  }

  /** Main result: unless the context is cancelled, reading ends with the record below the high-water mark exactly when
      that record is a snapshot that is restored; otherwise the loop goes on to whatever is published next. */
  lemma StopsAtHighWaterIff(messages: seq<LogEntry>, highWaterMark: int, last: nat, read: nat)
    requires last < |messages| && messages[last].offset == highWaterMark - 1
    requires forall i, j :: 0 <= i < j < |messages| ==> messages[i].offset < messages[j].offset
    requires ReadsTo(messages, highWaterMark, read)
    ensures (forall i :: 0 <= i <= last ==> !messages[i].cancelled) ==> last + 1 <= read
    ensures last + 1 <= read && last + 1 < |messages| && !messages[last + 1].cancelled ==>
              (read == last + 1 <==> IsRestored(messages[last]))
  {
  }

  // ---------------------------------------------------------------- counts

  ghost function Tombstones(messages: seq<LogEntry>): set<nat> {
    set i: nat | i < |messages| && messages[i].record.Some? && messages[i].record.value.Tombstone?
  }

  ghost function Unparsed(messages: seq<LogEntry>): set<nat> {
    set i: nat | i < |messages| && messages[i].record.None?
  }

  ghost function RestoredOnes(messages: seq<LogEntry>): set<nat> {
    set i: nat | i < |messages| && IsRestored(messages[i])
  }

  lemma GrowsBy(all: set<nat>, front: set<nat>, n: nat, holds: bool)
    requires n !in front && all == if holds then front + {n} else front
    ensures |all| == |front| + (if holds then 1 else 0)
  {
  }

  /** Main result: the counts are how many of the messages are tombstones, do not parse, and are snapshots that were
      restored. */
  lemma CountsTold(messages: seq<LogEntry>)
    ensures var c := CountAll(Counts(0, 0, 0), messages);
            && c.tombstones == |Tombstones(messages)| && c.parseErrors == |Unparsed(messages)|
            && c.restored == |RestoredOnes(messages)|
  {
    TombstonesCounted(messages);
    UnparsedCounted(messages);
    RestoredCounted(messages);
  }

  lemma {:induction false} TombstonesCounted(messages: seq<LogEntry>)
    ensures CountAll(Counts(0, 0, 0), messages).tombstones == |Tombstones(messages)|
  {
    if messages != [] {
      var n := |messages| - 1;
      TombstonesCounted(messages[..n]);
      GrowsBy(Tombstones(messages), Tombstones(messages[..n]), n,
              messages[n].record.Some? && messages[n].record.value.Tombstone?);
    }
  }

  lemma {:induction false} UnparsedCounted(messages: seq<LogEntry>)
    ensures CountAll(Counts(0, 0, 0), messages).parseErrors == |Unparsed(messages)|
  {
    if messages != [] {
      var n := |messages| - 1;
      UnparsedCounted(messages[..n]);
      GrowsBy(Unparsed(messages), Unparsed(messages[..n]), n, messages[n].record.None?);
    }
  }

  lemma {:induction false} RestoredCounted(messages: seq<LogEntry>)
    ensures CountAll(Counts(0, 0, 0), messages).restored == |RestoredOnes(messages)|
  {
    if messages != [] {
      var n := |messages| - 1;
      RestoredCounted(messages[..n]);
      GrowsBy(RestoredOnes(messages), RestoredOnes(messages[..n]), n, IsRestored(messages[n]));
    }
  }
}
