/** The visibility lease on due retry references: what one pop takes, and how far apart two pops of the
    same reference are. */
module Lease {
  import opened Domain
  import opened SortedSet

  /** The Lua loop of `PopAndLockRetries`: every popped member is re-scored. */
  function LockAll(z: seq<Entry>, items: seq<string>, until: int): seq<Entry> {
    if items == [] then z
    else Added(LockAll(z, items[..|items| - 1], until), items[|items| - 1], until)
  }

  function Relocked(scores: map<string, int>, items: seq<string>, until: int): map<string, int> {
    map m | m in scores :: if m in items then until else scores[m]
  }

  lemma RelockedMore(scores: map<string, int>, front: seq<string>, last: string, until: int)
    requires last in scores
    ensures Relocked(scores, front, until)[last := until] == Relocked(scores, front + [last], until)
  {
  }

  lemma {:induction false} LockAllCorrect(z: seq<Entry>, items: seq<string>, until: int)
    requires Valid(z) && forall m :: m in items ==> m in Scores(z)
    ensures Valid(LockAll(z, items, until))
    ensures Scores(LockAll(z, items, until)) == Relocked(Scores(z), items, until)
  {
    if items != [] {
      var front, last := items[..|items| - 1], items[|items| - 1];
      assert items == front + [last];
      LockAllCorrect(z, front, until);
      AddedCorrect(LockAll(z, front, until), last, until);
      RelockedMore(Scores(z), front, last, until);
    }
  }

  lemma DueItemsAreDue(z: seq<Entry>, now: int, limit: int)
    requires Valid(z)
    ensures forall m :: m in DueItems(z, now, limit) ==> m in Scores(z) && Scores(z)[m] <= now
  {
    ScoresOf(z);
    var taken := z[..TakeCount(z, now, limit)];
    forall m | m in DueItems(z, now, limit) ensures m in Scores(z) && Scores(z)[m] <= now {
      var i :| 0 <= i < |taken| && Members(taken)[i] == m;
      assert z[i] in z && z[i].member == m;
    }
  }

  lemma {:induction false} ValidOrder(z: seq<Entry>, i: nat, j: nat)
    requires Valid(z) && i < j < |z|
    ensures Before(z[i], z[j]) && z[i].member != z[j].member
  {
    if i == 0 {
      assert z[j] == z[1..][j - 1];
    } else {
      ValidOrder(z[1..], i - 1, j - 1);
    }
  }

  /** Main result: a pop takes exactly the first min(limit, due) due references, each once and in order, and
      changes only their scores: the set keeps its members. */
  lemma PopTakesFirstDue(z: seq<Entry>, now: int, limit: int, until: int)
    requires Valid(z)
    ensures var items := DueItems(z, now, limit);
            var z' := LockAll(z, items, until);
            && |items| == (if limit < 0 || DueCount(z, now) <= limit then DueCount(z, now) else limit)
            && (forall i :: 0 <= i < |items| ==> items[i] == z[i].member && z[i].score <= now)
            && (forall i, j :: 0 <= i < j < |items| ==> items[i] != items[j])
            && (forall i :: 0 <= i < |z| && z[i].score <= now && z[i].member !in items ==> |items| == limit <= i)
            && Valid(z') && Scores(z').Keys == Scores(z).Keys
            && (forall m :: m in Scores(z) ==> Scores(z')[m] == if m in items then until else Scores(z)[m])
  {
    var n := TakeCount(z, now, limit);
    var items := DueItems(z, now, limit);
    DueItemsAreDue(z, now, limit);
    LockAllCorrect(z, items, until);
    forall i, j | 0 <= i < j < |items| ensures items[i] != items[j] {
      ValidOrder(z, i, j);
    }
    forall k | 0 <= k < n ensures z[k].member in items {
      assert items[k] == z[k].member;
    }
    DueCountExact(z, now);
  }

  // ---------------------------------------------------------------- runs of any number of schedulers and workers

  datatype RetryOp =
    | Pop(now: int, limit: int, until: int)
    | Schedule(member: string, score: int)
    | Ack(acked: string)

  function ApplyOp(z: seq<Entry>, op: RetryOp): seq<Entry> {
    match op
    case Pop(now, limit, until) => LockAll(z, DueItems(z, now, limit), until)
    case Schedule(member, score) => Added(z, member, score)
    case Ack(member) => Without(z, member)
  }

  function ApplyOps(z: seq<Entry>, ops: seq<RetryOp>): seq<Entry> {
    if ops == [] then z else ApplyOp(ApplyOps(z, ops[..|ops| - 1]), ops[|ops| - 1])
  }

  lemma OpKeepsValid(z: seq<Entry>, op: RetryOp)
    requires Valid(z)
    ensures Valid(ApplyOp(z, op))
  {
    match op
    case Pop(now, limit, until) =>
      DueItemsAreDue(z, now, limit);
      LockAllCorrect(z, DueItems(z, now, limit), until);
    case Schedule(member, score) => AddedCorrect(z, member, score);
    case Ack(member) => WithoutCorrect(z, member);
  }

  /** `r` is absent, or not due before `from`. */
  predicate NotDueBefore(z: seq<Entry>, r: string, from: int) {
    r in Scores(z) ==> from <= Scores(z)[r]
  }

  /** Leases last at least `lock` seconds. */
  predicate Locks(op: RetryOp, lock: int) {
    op.Pop? ==> op.now + lock <= op.until
  }

  lemma OpKeepsLease(z: seq<Entry>, op: RetryOp, r: string, from: int, lock: nat)
    requires Valid(z) && NotDueBefore(z, r, from) && Locks(op, lock) && !(op.Schedule? && op.member == r)
    ensures NotDueBefore(ApplyOp(z, op), r, from)
  {
    match op
    case Pop(now, limit, until) =>
      DueItemsAreDue(z, now, limit);
      LockAllCorrect(z, DueItems(z, now, limit), until);
    case Schedule(member, score) => AddedCorrect(z, member, score);
    case Ack(member) => WithoutCorrect(z, member);
  }

  lemma {:induction false} LeaseHolds(z: seq<Entry>, ops: seq<RetryOp>, r: string, from: int, lock: nat)
    requires Valid(z) && NotDueBefore(z, r, from)
    requires forall k :: 0 <= k < |ops| ==> Locks(ops[k], lock) && !(ops[k].Schedule? && ops[k].member == r)
    ensures Valid(ApplyOps(z, ops)) && NotDueBefore(ApplyOps(z, ops), r, from)
  {
    if ops != [] {
      LeaseHolds(z, ops[..|ops| - 1], r, from, lock);
      OpKeepsValid(ApplyOps(z, ops[..|ops| - 1]), ops[|ops| - 1]);
      OpKeepsLease(ApplyOps(z, ops[..|ops| - 1]), ops[|ops| - 1], r, from, lock);
    }
  }

  /** Main result: if two pops, by any schedulers and on any clocks, both return `r` and nobody rescheduled it in
      between, then the second read the clock at least `lock` seconds after the first. */
  lemma LeaseExclusive(z: seq<Entry>, first: RetryOp, between: seq<RetryOp>, second: RetryOp, r: string, lock: nat)
    requires Valid(z) && first.Pop? && second.Pop? && Locks(first, lock)
    requires forall k :: 0 <= k < |between| ==>
        Locks(between[k], lock) && !(between[k].Schedule? && between[k].member == r)
    requires r in DueItems(z, first.now, first.limit)
    requires r in DueItems(ApplyOps(ApplyOp(z, first), between), second.now, second.limit)
    ensures first.now + lock <= second.now
  {
    var z1 := ApplyOp(z, first);
    DueItemsAreDue(z, first.now, first.limit);
    LockAllCorrect(z, DueItems(z, first.now, first.limit), first.until);
    LeaseHolds(z1, between, r, first.now + lock, lock);
    DueItemsAreDue(ApplyOps(z1, between), second.now, second.limit);
  }

  /** Scores are whole seconds of 10^9 nanoseconds, rounded down. */
  lemma UnixIsSeconds(t: int)
    ensures Unix(t) * 1_000_000_000 <= t < Unix(t) * 1_000_000_000 + 1_000_000_000
  {
  }

  /** The two clock readings of `PopAndLockRetries` give a lease of at least the whole seconds of the lock duration. */
  lemma LockSeconds(readAt: int, lockAt: int, duration: nat)
    requires readAt <= lockAt
    ensures Unix(readAt) + Unix(duration) <= Unix(lockAt + duration)
  {
  }
}
