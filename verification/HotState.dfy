/** The Redis side of retries and idempotency: the operations of `RedisHotState`, each one atomic.
    A `redisOk` argument says whether the command reaches Redis. */
module HotStates {
  import opened Domain
  import opened Lifecycle
  import opened Reference
  import SortedSet
  import Lease

  /** The text is canonical: nothing but `Format` produces it. Texts that do not parse are left alone. */
  predicate Canonical(s: string) {
    Parse(s).Some? ==> Format(Parse(s).value) == s
  }

  predicate AllCanonical(items: seq<string>) {
    forall m :: m in items ==> Canonical(m)
  }

  function RefsOf(texts: set<string>): set<Ref> {
    set s | s in texts && Parse(s).Some? :: Parse(s).value
  }

  /** The references among popped texts. */
  function Leases(items: seq<string>): set<Ref> {
    RefsOf(set m | m in items)
  }

  function ScoresOf(scores: map<string, int>): map<Ref, int>
    requires forall s :: s in scores ==> Canonical(s)
  {
    map r | r in RefsOf(scores.Keys) && Format(r) in scores :: scores[Format(r)]
  }

  class HotState {
    var processed: set<string>
    var retries: seq<SortedSet.Entry>
    var retryData: map<string, Webhook>
    var retryMeta: map<string, string>   // why a reference was scheduled

    ghost predicate Valid()
      reads this
    {
      && SortedSet.Valid(retries)
      && (forall s :: s in processed ==> Canonical(s))
      && (forall s :: s in SortedSet.Scores(retries) ==> Canonical(s))
    }

    /** The protocol's view of the store. */
    ghost function View(): Store
      requires Valid()
      reads this
    {
      Store(RefsOf(processed), ScoresOf(SortedSet.Scores(retries)), retryData)
    }

    constructor ()
      ensures Valid() && View() == INITIAL.store && retryMeta == map[]
    {
      processed := {};
      retries := [];
      retryData, retryMeta := map[], map[];
    }

    /** SETNX on the marker of one attempt. */
    method CheckAndSetProcessed(id: WebhookId, attempt: int, redisOk: bool) returns (first: bool, ok: bool)
      requires Valid() && ':' !in id && IsInt64(attempt)
      modifies this`processed
      ensures Valid() && ok == redisOk
      ensures ok ==> (first <==> Ref(id, attempt) !in old(View()).markers)
      ensures View() == if ok then old(View()).(markers := old(View()).markers + {Ref(id, attempt)}) else old(View())
    {
      if !redisOk {
        return false, false;
      }
      var key := Format(Ref(id, attempt));
      ParseOfFormat(Ref(id, attempt));
      RefsOfMember(processed, Ref(id, attempt));
      first := key !in processed;
      processed := processed + {key};
      ok := true;
    }

    /** EXPIRE, then SET only when the key was missing. An EXPIRE that is not positive deletes the key it finds. */
    method EnsureRetryData(webhook: Webhook, ttl: int, redisOk: bool) returns (ok: bool)
      requires Valid()
      modifies this`retryData
      ensures Valid() && ok == redisOk
      ensures View() == if ok then old(View()).(data := EnsuredFor(ttl, old(View()).data, webhook)) else old(View())
      ensures ok && webhook.id !in old(retryData) ==> retryData == old(retryData)[webhook.id := webhook]
      ensures ok && webhook.id in old(retryData) ==>
                retryData == if 0 < ttl then old(retryData) else old(retryData) - {webhook.id}
    {
      ok := redisOk;
      if !ok {
        return;
      }
      var found := webhook.id in retryData;
      if found && ttl <= 0 {
        retryData := retryData - {webhook.id};
      }
      if !found {
        retryData := retryData[webhook.id := webhook];
      }
    }

    /** The reference and its metadata, in one pipeline. */
    method ScheduleRetry(id: WebhookId, attempt: int, at: int, reason: string, redisOk: bool) returns (ok: bool)
      requires Valid() && ':' !in id && IsInt64(attempt)
      modifies this`retries, this`retryMeta
      ensures Valid() && ok == redisOk
      ensures retryMeta == if ok then old(retryMeta)[Format(Ref(id, attempt)) := reason] else old(retryMeta)
      ensures View() == if ok then old(View()).(retries := old(View()).retries[Ref(id, attempt) := Unix(at)])
          else old(View())
    {
      ok := redisOk;
      if ok {
        var reference := Format(Ref(id, attempt));
        ParseOfFormat(Ref(id, attempt));
        SortedSet.AddedCorrect(retries, reference, Unix(at));
        ScoresOfAdd(SortedSet.Scores(retries), Ref(id, attempt), Unix(at));
        retries := SortedSet.Added(retries, reference, Unix(at));
        retryMeta := retryMeta[reference := reason];
      }
    }

    /** The Lua script: take the due members, then push each one's score into the future.
        `readAt` and `lockAt` are the two clock readings. */
    method PopAndLockRetries(readAt: int, lockAt: int, limit: int, lockDuration: int) returns (items: seq<string>)
      requires Valid()
      modifies this`retries
      ensures Valid()
      ensures items == SortedSet.DueItems(old(retries), Unix(readAt), limit)
      ensures retries == Lease.LockAll(old(retries), items, Unix(lockAt + lockDuration))
      ensures forall m :: m in items ==> m in SortedSet.Scores(old(retries))
      ensures AllCanonical(items) && View().data == old(View()).data
      ensures IsLeased(old(View()), View(), Leases(items), Unix(lockAt + lockDuration))
    {
      var until := Unix(lockAt + lockDuration);
      items := SortedSet.DueItems(retries, Unix(readAt), limit);
      PoppedKeeps(retries, Unix(readAt), limit, until);
      ghost var before := View();
      Lock(items, until);
      RelockedIsLeased(before, View(), Leases(items), until);
    }

    /** The loop of the script: ZADD every item with the lease's score. */
    method Lock(items: seq<string>, until: int)
      modifies this`retries
      ensures retries == Lease.LockAll(old(retries), items, until)
    {
      var i := 0;
      while i < |items|
        invariant 0 <= i <= |items|
        invariant retries == Lease.LockAll(old(retries), items[..i], until)
      {
        assert items[..i + 1][..i] == items[..i];
        retries := SortedSet.Added(retries, items[i], until);
        i := i + 1;
      }
      assert items[..i] == items;
    }

    method GetRetryData(id: WebhookId, redisOk: bool) returns (webhook: Option<Webhook>)
      requires Valid()
      ensures webhook == if redisOk && id in View().data then Some(View().data[id]) else None
    {
      webhook := if redisOk && id in retryData then Some(retryData[id]) else None;
    }

    /** ZREM of one reference text and the deletion of its metadata; retry data stays. */
    method AckRetry(reference: string, redisOk: bool) returns (ok: bool)
      requires Valid()
      modifies this`retries, this`retryMeta
      ensures Valid() && ok == redisOk
      ensures retryMeta == if ok then old(retryMeta) - {reference} else old(retryMeta)
      ensures View() == if ok && Parse(reference).Some? && Canonical(reference)
                        then old(View()).(retries := old(View()).retries - {Parse(reference).value}) else old(View())
    {
      ok := redisOk;
      if ok {
        SortedSet.WithoutCorrect(retries, reference);
        ScoresOfRemove(SortedSet.Scores(retries), reference);
        retries := SortedSet.Without(retries, reference);
        retryMeta := retryMeta - {reference};
      }
    }

    method DeleteRetryData(id: WebhookId, redisOk: bool)
      requires Valid()
      modifies this`retryData
      ensures Valid() && View() == Cleaned(old(View()), id, redisOk)
    {
      if redisOk {
        retryData := retryData - {id};
      }
    }

    /** The keys of the retry store and the markers are deleted before a rebuild. A key whose deletion fails stays, the
        others go all the same, and the failure is reported. */
    method FlushForRebuild(undeleted: Undeleted) returns (ok: bool)
      requires Valid()
      modifies this
      ensures Valid() && ok == (undeleted == Undeleted({}, false, {}, {}))
      ensures processed == old(processed) * undeleted.processed
      ensures retries == if undeleted.queue then old(retries) else []
      ensures retryData.Keys == old(retryData).Keys * undeleted.data
      ensures retryMeta.Keys == old(retryMeta).Keys * undeleted.meta
      ensures forall id :: id in retryData ==> retryData[id] == old(retryData)[id]
      ensures ok ==> View() == INITIAL.store
    {
      processed := processed * undeleted.processed;
      if !undeleted.queue {
        retries := [];
      }
      retryData := map id | id in retryData && id in undeleted.data :: retryData[id];
      retryMeta := map m | m in retryMeta && m in undeleted.meta :: retryMeta[m];
      ok := undeleted == Undeleted({}, false, {}, {});
    }
  }

  /** The keys of each pattern whose deletion fails. */
  datatype Undeleted = Undeleted(processed: set<string>, queue: bool, data: set<string>, meta: set<string>)

  lemma RefsOfMember(texts: set<string>, r: Ref)
    requires ':' !in r.id && IsInt64(r.attempt) && forall s :: s in texts ==> Canonical(s)
    ensures r in RefsOf(texts) <==> Format(r) in texts
    ensures RefsOf(texts + {Format(r)}) == RefsOf(texts) + {r}
  {
    ParseOfFormat(r);
    if r in RefsOf(texts) {
      var s :| s in texts && Parse(s).Some? && Parse(s).value == r;
    }
  }

  lemma ScoresOfAdd(scores: map<string, int>, r: Ref, score: int)
    requires ':' !in r.id && IsInt64(r.attempt) && forall s :: s in scores ==> Canonical(s)
    ensures Canonical(Format(r))
    ensures ScoresOf(scores[Format(r) := score]) == ScoresOf(scores)[r := score]
  {
    ParseOfFormat(r);
    var got, want := ScoresOf(scores[Format(r) := score]), ScoresOf(scores)[r := score];
    forall x ensures x in got <==> x in want {
      ScoresOfMember(scores, x);
      ScoresOfMember(scores[Format(r) := score], x);
    }
    forall x | x in got ensures got[x] == want[x] {
      ScoresOfMember(scores, x);
      ScoresOfMember(scores[Format(r) := score], x);
    }
  }

  lemma ScoresOfMember(scores: map<string, int>, x: Ref)
    requires forall s :: s in scores ==> Canonical(s)
    ensures x in ScoresOf(scores) <==> Format(x) in scores && Parse(Format(x)) == Some(x)
    ensures x in ScoresOf(scores) ==> ScoresOf(scores)[x] == scores[Format(x)]
  {
    if x in ScoresOf(scores) {
      var s :| s in scores && Parse(s).Some? && Parse(s).value == x;
    }
  }

  lemma ScoresOfRemove(scores: map<string, int>, reference: string)
    requires forall s :: s in scores ==> Canonical(s)
    ensures ScoresOf(scores - {reference}) ==
            if Parse(reference).Some? && Canonical(reference)
            then ScoresOf(scores) - {Parse(reference).value} else ScoresOf(scores)
  {
    var got := ScoresOf(scores - {reference});
    var want := if Parse(reference).Some? && Canonical(reference)
                then ScoresOf(scores) - {Parse(reference).value} else ScoresOf(scores);
    forall x ensures x in got <==> x in want {
      ScoresOfMember(scores, x);
      ScoresOfMember(scores - {reference}, x);
    }
    forall x | x in got ensures got[x] == want[x] {
      ScoresOfMember(scores, x);
      ScoresOfMember(scores - {reference}, x);
    }
  }

  lemma RelockedView(scores: map<string, int>, items: seq<string>, until: int)
    requires forall s :: s in scores ==> Canonical(s)
    requires forall m :: m in items ==> m in scores
    ensures ScoresOf(Lease.Relocked(scores, items, until)) == Relocked(ScoresOf(scores), Leases(items), until)
  {
    var got := ScoresOf(Lease.Relocked(scores, items, until));
    var refs := Leases(items);
    var want := Relocked(ScoresOf(scores), refs, until);
    forall x ensures x in got <==> x in want {
      ScoresOfMember(scores, x);
      ScoresOfMember(Lease.Relocked(scores, items, until), x);
    }
    forall x | x in got ensures got[x] == want[x] {
      ScoresOfMember(scores, x);
      ScoresOfMember(Lease.Relocked(scores, items, until), x);
      assert x in refs <==> Format(x) in items;
    }
  }

  /** A pop keeps the order of the set and its members, and moves the scores of the popped ones. */
  lemma PoppedKeeps(z: seq<SortedSet.Entry>, now: int, limit: int, until: int)
    requires SortedSet.Valid(z) && forall s :: s in SortedSet.Scores(z) ==> Canonical(s)
    ensures var items := SortedSet.DueItems(z, now, limit);
            var z' := Lease.LockAll(z, items, until);
            && (forall m :: m in items ==> m in SortedSet.Scores(z)) && AllCanonical(items)
            && SortedSet.Valid(z') && SortedSet.Scores(z').Keys == SortedSet.Scores(z).Keys
            && ScoresOf(SortedSet.Scores(z')) == Relocked(ScoresOf(SortedSet.Scores(z)), Leases(items), until)
  {
    var items := SortedSet.DueItems(z, now, limit);
    Lease.DueItemsAreDue(z, now, limit);
    Lease.LockAllCorrect(z, items, until);
    RelockedView(SortedSet.Scores(z), items, until);
  }

  lemma RelockedIsLeased(before: Store, after: Store, refs: set<Ref>, until: int)
    requires after == before.(retries := Relocked(before.retries, refs, until))
    ensures IsLeased(before, after, refs, until)
  {
  }
}
