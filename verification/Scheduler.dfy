/** The retry scheduler: pops due references and re-enqueues their webhooks. */
module Schedulers {
  import opened Domain
  import opened Lifecycle
  import opened Reference
  import opened HotStates
  import opened Topics
  import SortedSet
  import Lease

  /** What happens outside the scheduler while it handles one reference. */
  datatype Effects = Effects(getOk: bool, publish: PublishOutcome, ackOk: bool)

  datatype Tally = Tally(published: nat, failed: nat, expired: nat)

  /** Stored webhooks are found under their own ids. */
  predicate Keyed(data: map<WebhookId, Webhook>) {
    forall id :: id in data ==> data[id].id == id
  }

  /** The webhook a reference resolves to. */
  function Resolved(data: map<WebhookId, Webhook>, item: string, e: Effects): Option<Webhook> {
    match Parse(item)
    case None => None
    case Some(r) => if e.getOk && r.id in data then Some(data[r.id].(attempt := r.attempt)) else None
  }

  /** The message one reference puts on the pending topic, if any. */
  function Sent(data: map<WebhookId, Webhook>, item: string, e: Effects): seq<Message> {
    var w := Resolved(data, item, e);
    if w.Some? && !e.publish.NotPublished? then [Message(w.value, false)] else []
  }

  /** The reference is removed once published, or when there is no data for it. */
  function Gone(data: map<WebhookId, Webhook>, item: string, e: Effects): set<Ref> {
    var r := Parse(item);
    if r.Some? && e.ackOk && (Resolved(data, item, e).None? || e.publish.Published?) then {r.value} else {}
  }

  function Counted(t: Tally, data: map<WebhookId, Webhook>, item: string, e: Effects): Tally {
    if Parse(item).None? then t
    else if Resolved(data, item, e).None? then t.(expired := t.expired + 1)
    else if e.publish.Published? then t.(published := t.published + 1)
    else t.(failed := t.failed + 1)
  }

  /** Main result: what one reference comes to. A reference that does not parse is counted nowhere. One whose webhook is
      found is published as that webhook at its attempt, and removed once that is confirmed; one without is removed. */
  lemma ReferenceTold(data: map<WebhookId, Webhook>, item: string, e: Effects, t: Tally)
    ensures Parse(item).None? ==>
        Sent(data, item, e) == [] && Gone(data, item, e) == {} && Counted(t, data, item, e) == t
    ensures Parse(item).Some? ==>
              var r := Parse(item).value;
              var found := e.getOk && r.id in data;
              && Sent(data, item, e) == (if found && !e.publish.NotPublished?
                                         then [Message(data[r.id].(attempt := r.attempt), false)] else [])
              && Gone(data, item, e) == (if e.ackOk && (found ==> e.publish.Published?) then {r} else {})
              && Counted(t, data, item, e) ==
                 if !found then Tally(t.published, t.failed, t.expired + 1)
                 else if e.publish.Published? then Tally(t.published + 1, t.failed, t.expired)
                 else Tally(t.published, t.failed + 1, t.expired)
  {
  }

  function Republished(data: map<WebhookId, Webhook>, items: seq<string>, effects: seq<Effects>): seq<Message>
    requires |items| == |effects|
  {
    if items == [] then []
    else var n := |items| - 1; Republished(data, items[..n], effects[..n]) + Sent(data, items[n], effects[n])
  }

  function Acknowledged(data: map<WebhookId, Webhook>, items: seq<string>, effects: seq<Effects>): set<Ref>
    requires |items| == |effects|
  {
    if items == [] then {}
    else var n := |items| - 1; Acknowledged(data, items[..n], effects[..n]) + Gone(data, items[n], effects[n])
  }

  function Tallied(data: map<WebhookId, Webhook>, items: seq<string>, effects: seq<Effects>): Tally
    requires |items| == |effects|
  {
    if items == [] then Tally(0, 0, 0)
    else var n := |items| - 1; Counted(Tallied(data, items[..n], effects[..n]), data, items[n], effects[n])
  }

  ghost function Parsing(items: seq<string>): set<nat> {
    set i: nat | i < |items| && Parse(items[i]).Some?
  }

  /** Main result: a batch counts every reference that parses exactly once, and publishes at least those it counts as
      published and at most those it does not count as expired. */
  lemma {:induction false} TallyAddsUp(data: map<WebhookId, Webhook>, items: seq<string>, effects: seq<Effects>)
    requires |items| == |effects|
    ensures var t := Tallied(data, items, effects);
            && t.published + t.failed + t.expired == |Parsing(items)|
            && t.published <= |Republished(data, items, effects)| <= t.published + t.failed
  {
    if items != [] {
      var n := |items| - 1;
      TallyAddsUp(data, items[..n], effects[..n]);
      ReferenceTold(data, items[n], effects[n], Tallied(data, items[..n], effects[..n]));
      ParsingGrows(items, n);
    }
  }

  lemma ParsingGrows(items: seq<string>, n: nat)
    requires |items| == n + 1
    ensures |Parsing(items)| == |Parsing(items[..n])| + (if Parse(items[n]).Some? then 1 else 0)
  {
    var front := Parsing(items[..n]);
    if Parse(items[n]).Some? {
      assert Parsing(items) == front + {n};
    } else {
      assert Parsing(items) == front;
    }
  }

  lemma BatchPrefix(data: map<WebhookId, Webhook>, items: seq<string>, effects: seq<Effects>, i: nat)
    requires |items| == |effects| && i < |items|
    ensures Republished(data, items[..i + 1], effects[..i + 1]) ==
        Republished(data, items[..i], effects[..i]) + Sent(data, items[i], effects[i])
    ensures Acknowledged(data, items[..i + 1], effects[..i + 1]) ==
        Acknowledged(data, items[..i], effects[..i]) + Gone(data, items[i], effects[i])
    ensures Tallied(data, items[..i + 1], effects[..i + 1]) ==
        Counted(Tallied(data, items[..i], effects[..i]), data, items[i], effects[i])
    ensures BatchSteps(data, items[..i + 1], effects[..i + 1]) ==
        BatchSteps(data, items[..i], effects[..i]) + ItemSteps(data, items[i], effects[i])
  {
    assert items[..i + 1][..i] == items[..i] && effects[..i + 1][..i] == effects[..i];
  }

  lemma RemoveMore(retries: map<Ref, int>, a: set<Ref>, b: set<Ref>)
    ensures retries - a - b == retries - (a + b)
  {
  }

  /** The protocol steps taken for one leased reference. */
  function ReferenceSteps(data: map<WebhookId, Webhook>, r: Ref, e: Effects): seq<Step> {
    if e.getOk && r.id in data then
      var next := data[r.id].(attempt := r.attempt);
      if e.publish.Published? then [Fetch(r, true), Publish(next, e.publish), AckSent(RefOf(next), e.ackOk)]
      else [Fetch(r, true), Publish(next, e.publish)]
    else [Fetch(r, e.getOk), AckDiscarded(r, e.ackOk)]
  }

  lemma PublishedSteps(w: World, r: Ref, next: Webhook, ackOk: bool)
    requires r in w.hands.leased && r.id in w.store.data && next == w.store.data[r.id].(attempt := r.attempt) &&
        RefOf(next) == r
    ensures var run := [Fetch(r, true), Publish(next, Published), AckSent(r, ackOk)];
            && ValidRun(w, run)
            && After(w, run) == w.(hands := w.hands.(leased := w.hands.leased - multiset{r}),
                                   topic := w.topic + [Message(next, false)],
                                   store := Removed(w.store, r, ackOk))
  {
    var w1 := Apply(w, Fetch(r, true));
    assert w1.hands.fetched - multiset{next} == w.hands.fetched;
    var w2 := Apply(w1, Publish(next, Published));
    assert w2.hands.sent - multiset{r} == w.hands.sent;
    OneStep(w2, AckSent(r, ackOk));
    ThenStep(w1, Publish(next, Published), [AckSent(r, ackOk)]);
    ThenStep(w, Fetch(r, true), [Publish(next, Published), AckSent(r, ackOk)]);
  }

  lemma UnconfirmedSteps(w: World, r: Ref, next: Webhook, outcome: PublishOutcome)
    requires r in w.hands.leased && r.id in w.store.data && next == w.store.data[r.id].(attempt := r.attempt)
    requires !outcome.Published?
    ensures var run := [Fetch(r, true), Publish(next, outcome)];
            && ValidRun(w, run)
            && After(w, run) == w.(hands := w.hands.(leased := w.hands.leased - multiset{r}),
                                   topic := if outcome.NotPublished? then w.topic else w.topic + [Message(next, false)])
  {
    var w1 := Apply(w, Fetch(r, true));
    assert w1.hands.fetched - multiset{next} == w.hands.fetched;
    OneStep(w1, Publish(next, outcome));
    ThenStep(w, Fetch(r, true), [Publish(next, outcome)]);
  }

  lemma DiscardedSteps(w: World, r: Ref, getOk: bool, ackOk: bool)
    requires r in w.hands.leased && !(getOk && r.id in w.store.data)
    ensures var run := [Fetch(r, getOk), AckDiscarded(r, ackOk)];
            && ValidRun(w, run)
            && After(w, run) == w.(hands := w.hands.(leased := w.hands.leased - multiset{r}),
                store := Removed(w.store, r, ackOk))
  {
    var w1 := Apply(w, Fetch(r, getOk));
    assert w1.hands.discarded - multiset{r} == w.hands.discarded;
    OneStep(w1, AckDiscarded(r, ackOk));
    ThenStep(w, Fetch(r, getOk), [AckDiscarded(r, ackOk)]);
  }

  lemma ReferenceStepsValid(w: World, r: Ref, e: Effects)
    requires r in w.hands.leased && Keyed(w.store.data)
    ensures ValidRun(w, ReferenceSteps(w.store.data, r, e))
    ensures var sent := e.getOk && r.id in w.store.data;
            After(w, ReferenceSteps(w.store.data, r, e)) ==
            w.(hands := w.hands.(leased := w.hands.leased - multiset{r}),
               topic := if sent && !e.publish.NotPublished?
                        then w.topic + [Message(w.store.data[r.id].(attempt := r.attempt), false)] else w.topic,
               store := if e.ackOk && (!sent || e.publish.Published?)
                        then w.store.(retries := w.store.retries - {r}) else w.store)
  {
    if e.getOk && r.id in w.store.data {
      var next := w.store.data[r.id].(attempt := r.attempt);
      if e.publish.Published? {
        PublishedSteps(w, r, next, e.ackOk);
      } else {
        UnconfirmedSteps(w, r, next, e.publish);
      }
    } else {
      DiscardedSteps(w, r, e.getOk, e.ackOk);
    }
  }

  lemma LeasesStep(items: seq<string>, i: nat)
    requires i < |items|
    requires forall a, b :: 0 <= a < b < |items| ==> items[a] != items[b]
    requires forall m :: m in items ==> Canonical(m)
    ensures match Parse(items[i])
            case None => Leases(items[i..]) == Leases(items[i + 1..])
            case Some(r) => r in Leases(items[i..]) && Leases(items[i + 1..]) == Leases(items[i..]) - {r}
  {
    var tail := items[i + 1..];
    var here, later := set m | m in items[i..], set m | m in tail;
    assert items[i..] == [items[i]] + items[i + 1..];
    assert here == {items[i]} + later;
    if Parse(items[i]).Some? {
      var r := Parse(items[i]).value;
      assert items[i] in items && items[i] in here;
      assert Format(r) == items[i];
      forall x ensures x in RefsOf(later) <==> x in RefsOf(here) && x != r {
        if x in RefsOf(later) {
          var m :| m in later && Parse(m).Some? && Parse(m).value == x;
          assert m in tail && m in items && m != items[i];
          assert Format(x) == m;
        }
        if x in RefsOf(here) {
          var m :| m in here && Parse(m).Some? && Parse(m).value == x;
          assert m in items;
        }
      }
    }
  }

  /** The hands of all schedulers while this one still holds the leases of `items`. */
  ghost function Holding(hands: Hands, items: seq<string>): Hands {
    hands.(leased := hands.leased + multiset(Leases(items)))
  }

  function ItemSteps(data: map<WebhookId, Webhook>, item: string, e: Effects): seq<Step> {
    match Parse(item)
    case None => []
    case Some(r) => ReferenceSteps(data, r, e)
  }

  lemma ItemStepsValid(w: World, items: seq<string>, i: nat, e: Effects, hands: Hands)
    requires i < |items| && forall m :: m in items ==> Canonical(m)
    requires forall a, b :: 0 <= a < b < |items| ==> items[a] != items[b]
    requires w.hands == Holding(hands, items[i..])
    requires Keyed(w.store.data)
    ensures ValidRun(w, ItemSteps(w.store.data, items[i], e))
    ensures After(w, ItemSteps(w.store.data, items[i], e)) ==
        ItemOutcome(w, items[i], e, Holding(hands, items[i + 1..]))
  {
    var h := Holding(hands, items[i + 1..]);
    LeasesStep(items, i);
    if Parse(items[i]).None? {
      NothingDone(w, items[i], e);
    } else {
      var r := Parse(items[i]).value;
      assert w.hands.(leased := w.hands.leased - multiset{r}) == h by {
        assert w.hands.leased - multiset{r} == hands.leased + multiset(Leases(items[i + 1..]));
      }
      ParsedStepsValid(w, items[i], r, e, h);
    }
  }

  lemma NothingDone(w: World, item: string, e: Effects)
    requires Parse(item).None?
    ensures ItemOutcome(w, item, e, w.hands) == w && ItemSteps(w.store.data, item, e) == []
  {
    assert w.topic + [] == w.topic && w.store.retries - {} == w.store.retries;
  }

  lemma ParsedStepsValid(w: World, item: string, r: Ref, e: Effects, h: Hands)
    requires Parse(item) == Some(r) && r in w.hands.leased && h == w.hands.(leased := w.hands.leased - multiset{r})
    requires Keyed(w.store.data)
    ensures ValidRun(w, ItemSteps(w.store.data, item, e)) &&
        After(w, ItemSteps(w.store.data, item, e)) == ItemOutcome(w, item, e, h)
  {
    ReferenceStepsValid(w, r, e);
    ItemOutcomeOf(w, item, r, e, h);
  }

  /** The effect of one popped reference on the shared state, leaving `h` in the schedulers' hands. */
  ghost function ItemOutcome(w: World, item: string, e: Effects, h: Hands): World {
    w.(hands := h, topic := w.topic + Sent(w.store.data, item, e),
       store := w.store.(retries := w.store.retries - Gone(w.store.data, item, e)))
  }

  lemma ItemOutcomeOf(w: World, item: string, r: Ref, e: Effects, h: Hands)
    requires Parse(item) == Some(r)
    ensures var sent := e.getOk && r.id in w.store.data;
            ItemOutcome(w, item, e, h) ==
            w.(hands := h,
               topic := if sent && !e.publish.NotPublished?
                        then w.topic + [Message(w.store.data[r.id].(attempt := r.attempt), false)] else w.topic,
               store := if e.ackOk && (!sent || e.publish.Published?)
                        then w.store.(retries := w.store.retries - {r}) else w.store)
  {
    assert w.topic + [] == w.topic && w.store.retries - {} == w.store.retries;
  }

  function BatchSteps(data: map<WebhookId, Webhook>, items: seq<string>, effects: seq<Effects>): seq<Step>
    requires |items| == |effects|
  {
    if items == [] then []
    else
      var n := |items| - 1;
      BatchSteps(data, items[..n], effects[..n]) + ItemSteps(data, items[n], effects[n])
  }

  /** What one batch makes of the shared state. */
  ghost function BatchOutcome(w: World, items: seq<string>, effects: seq<Effects>, until: int): World
    requires |items| == |effects|
  {
    w.(topic := w.topic + Republished(w.store.data, items, effects),
       store := w.store.(retries :=
           Relocked(w.store.retries, Leases(items), until) - Acknowledged(w.store.data, items, effects)))
  }

  /** The shared state after the first `n` references of a batch. */
  ghost function Midway(w: World, items: seq<string>, n: nat, effects: seq<Effects>, hands: Hands): World
    requires |items| == |effects| && n <= |items|
  {
    w.(hands := Holding(hands, items[n..]),
       topic := w.topic + Republished(w.store.data, items[..n], effects[..n]),
       store := w.store.(retries := w.store.retries - Acknowledged(w.store.data, items[..n], effects[..n])))
  }

  lemma MidwayNext(w: World, items: seq<string>, i: nat, effects: seq<Effects>, hands: Hands)
    requires |items| == |effects| && i < |items|
    ensures ItemOutcome(Midway(w, items, i, effects, hands), items[i], effects[i], Holding(hands, items[i + 1..]))
            == Midway(w, items, i + 1, effects, hands)
  {
    BatchPrefix(w.store.data, items, effects, i);
    RemoveMore(w.store.retries, Acknowledged(w.store.data, items[..i], effects[..i]),
        Gone(w.store.data, items[i], effects[i]));
  }

  lemma {:induction false} BatchStepsValid(w: World, items: seq<string>, n: nat, effects: seq<Effects>, hands: Hands)
    requires |items| == |effects| && n <= |items| && forall m :: m in items ==> Canonical(m)
    requires forall a, b :: 0 <= a < b < |items| ==> items[a] != items[b]
    requires w.hands == Holding(hands, items)
    requires Keyed(w.store.data)
    ensures ValidRun(w, BatchSteps(w.store.data, items[..n], effects[..n]))
    ensures After(w, BatchSteps(w.store.data, items[..n], effects[..n])) == Midway(w, items, n, effects, hands)
  {
    if n == 0 {
      assert items[0..] == items;
      assert w.topic + [] == w.topic && w.store.retries - {} == w.store.retries;
    } else {
      var i := n - 1;
      BatchStepsValid(w, items, i, effects, hands);
      NextItemValid(w, Midway(w, items, i, effects, hands), items, i, effects, hands);
    }
  }

  lemma NextItemValid(w: World, mid: World, items: seq<string>, i: nat, effects: seq<Effects>, hands: Hands)
    requires |items| == |effects| && i < |items| && forall m :: m in items ==> Canonical(m)
    requires forall a, b :: 0 <= a < b < |items| ==> items[a] != items[b]
    requires Keyed(w.store.data)
    requires mid == Midway(w, items, i, effects, hands)
    requires ValidRun(w, BatchSteps(w.store.data, items[..i], effects[..i]))
    requires After(w, BatchSteps(w.store.data, items[..i], effects[..i])) == mid
    ensures ValidRun(w, BatchSteps(w.store.data, items[..i + 1], effects[..i + 1]))
    ensures After(w, BatchSteps(w.store.data, items[..i + 1], effects[..i + 1])) ==
        Midway(w, items, i + 1, effects, hands)
  {
    ItemStepsValid(mid, items, i, effects[i], hands);
    MidwayNext(w, items, i, effects, hands);
    JoinRuns(w, BatchSteps(w.store.data, items[..i], effects[..i]), ItemSteps(w.store.data, items[i], effects[i]));
    BatchPrefix(w.store.data, items, effects, i);
  }

  lemma PopRun(w: World, items: seq<string>, scores: map<string, int>, until: int)
    requires forall s :: s in scores ==> Canonical(s)
    requires w.store.retries == HotStates.ScoresOf(scores) && forall m :: m in items ==> m in scores
    ensures ValidRun(w, [Pop(Leases(items), until)])
    ensures After(w, [Pop(Leases(items), until)]) ==
            w.(store := w.store.(retries := Relocked(w.store.retries, Leases(items), until)),
               hands := w.hands.(leased := w.hands.leased + multiset(Leases(items))))
  {
    forall r | r in Leases(items) ensures r in w.store.retries {
      ScoresOfMember(scores, r);
    }
    OneStep(w, Pop(Leases(items), until));
  }

  /** Main result: whatever fails around it, one scheduler batch is a run of the protocol that leaves nothing in the
      scheduler's hands, so everything proved about runs holds of it. */
  lemma BatchIsRun(w: World, scores: map<string, int>, items: seq<string>, effects: seq<Effects>, until: int)
    requires |items| == |effects| && forall s :: s in scores ==> Canonical(s)
    requires forall a, b :: 0 <= a < b < |items| ==> items[a] != items[b]
    requires w.store.retries == HotStates.ScoresOf(scores) && forall m :: m in items ==> m in scores
    requires Keyed(w.store.data)
    ensures var run := [Pop(Leases(items), until)] + BatchSteps(w.store.data, items, effects);
            ValidRun(w, run) && After(w, run) == BatchOutcome(w, items, effects, until)
  {
    PopRun(w, items, scores, until);
    var w1 := After(w, [Pop(Leases(items), until)]);
    BatchStepsValid(w1, items, |items|, effects, w.hands);
    assert items[..|items|] == items && effects[..|items|] == effects && items[|items|..] == [];
    assert Holding(w.hands, []) == w.hands;
    JoinRuns(w, [Pop(Leases(items), until)], BatchSteps(w.store.data, items, effects));
  }

  /** The retry store and the pending topic after a batch that leased `items`. */
  ghost predicate Batched(before: Store, sent: seq<Message>, after: Store, sent': seq<Message>,
                          items: seq<string>, effects: seq<Effects>, until: int)
    requires |items| == |effects|
  {
    && sent' == sent + Republished(before.data, items, effects)
    && after == before.(retries :=
        Relocked(before.retries, Leases(items), until) - Acknowledged(before.data, items, effects))
  }

  /** The batch over the members due in the live set. */
  lemma BatchRun(w: World, z: seq<SortedSet.Entry>, effects: seq<Effects>, now: int, limit: int, until: int)
    returns (run: seq<Step>)
    requires SortedSet.Valid(z) && forall s :: s in SortedSet.Scores(z) ==> Canonical(s)
    requires w.store.retries == HotStates.ScoresOf(SortedSet.Scores(z))
    requires |SortedSet.DueItems(z, now, limit)| == |effects|
    requires Keyed(w.store.data)
    ensures ValidRun(w, run)
    ensures var items := SortedSet.DueItems(z, now, limit);
            && Batched(w.store, w.topic, After(w, run).store, After(w, run).topic, items, effects, until)
            && After(w, run) == w.(topic := After(w, run).topic, store := After(w, run).store)
  {
    var items := SortedSet.DueItems(z, now, limit);
    Lease.PopTakesFirstDue(z, now, limit, until);
    Lease.DueItemsAreDue(z, now, limit);
    BatchIsRun(w, SortedSet.Scores(z), items, effects, until);
    run := [Pop(Leases(items), until)] + BatchSteps(w.store.data, items, effects);
  }

  /** The retry store, the pending topic and the tally after handling `items` one by one. */
  predicate Processed(before: Store, sent: seq<Message>, after: Store, sent': seq<Message>, tally: Tally,
                      items: seq<string>, effects: seq<Effects>)
    requires |items| == |effects|
  {
    && sent' == sent + Republished(before.data, items, effects)
    && after == before.(retries := before.retries - Acknowledged(before.data, items, effects))
    && tally == Tallied(before.data, items, effects)
  }

  lemma ProcessedIsBatched(before: Store, leased: Store, sent: seq<Message>, after: Store, sent': seq<Message>,
      tally: Tally,
                           items: seq<string>, effects: seq<Effects>, until: int)
    requires |items| == |effects| && IsLeased(before, leased, Leases(items), until)
    requires Processed(leased, sent, after, sent', tally, items, effects)
    ensures Batched(before, sent, after, sent', items, effects, until) && tally == Tallied(before.data, items, effects)
  {
  }

  lemma ProcessedNext(before: Store, sent: seq<Message>, mid: Store, sentMid: seq<Message>, tally: Tally,
                      after: Store, sent': seq<Message>, items: seq<string>, effects: seq<Effects>, i: nat)
    requires |items| == |effects| && i < |items|
    requires Processed(before, sent, mid, sentMid, tally, items[..i], effects[..i])
    requires sent' == sentMid + Sent(before.data, items[i], effects[i])
    requires after == mid.(retries := mid.retries - Gone(before.data, items[i], effects[i]))
    ensures Processed(before, sent, after, sent', Counted(tally, before.data, items[i], effects[i]), items[..i + 1],
        effects[..i + 1])
  {
    BatchPrefix(before.data, items, effects, i);
    RemoveMore(before.retries, Acknowledged(before.data, items[..i], effects[..i]),
        Gone(before.data, items[i], effects[i]));
  }

  class Scheduler {
    const hot: HotState
    const broker: Broker
    const batchSize: int
    const lockTimeout: int

    constructor (hot: HotState, broker: Broker, batchSize: int, lockTimeout: int)
      ensures this.hot == hot && this.broker == broker && this.batchSize == batchSize && this.lockTimeout == lockTimeout
    {
      this.hot, this.broker, this.batchSize, this.lockTimeout := hot, broker, batchSize, lockTimeout;
    }

    /** The body of the batch loop: parse, fetch, publish, acknowledge. */
    method ProcessReference(item: string, e: Effects, tally: Tally) returns (tally': Tally)
      requires hot.Valid() && Keyed(hot.View().data)
      requires Canonical(item)
      modifies hot, broker`messages
      ensures hot.Valid()
      ensures broker.messages == old(broker.messages) + Sent(old(hot.View()).data, item, e)
      ensures hot.View() == old(hot.View()).(retries := old(hot.View()).retries - Gone(old(hot.View()).data, item, e))
      ensures tally' == Counted(tally, old(hot.View()).data, item, e)
    {
      tally' := tally;
      var parsed := Parse(item);
      if parsed.None? {
        var _ := hot.AckRetry(item, e.ackOk);
        return;
      }
      var r := parsed.value;
      var stored := hot.GetRetryData(r.id, e.getOk);
      if stored.None? {
        var _ := hot.AckRetry(item, e.ackOk);
        tally' := tally.(expired := tally.expired + 1);
        return;
      }
      tally' := PublishAndAck(item, r, stored.value.(attempt := r.attempt), e, tally);
    }

    /** Publish the resolved webhook, and acknowledge its reference once that is confirmed. */
    method PublishAndAck(item: string, r: Ref, webhook: Webhook, e: Effects, tally: Tally) returns (tally': Tally)
      requires hot.Valid() && Parse(item) == Some(r) && Canonical(item)
      modifies hot, broker`messages
      ensures hot.Valid()
      ensures broker.messages ==
                old(broker.messages) + (if e.publish.NotPublished? then [] else [Message(webhook, false)])
      ensures hot.View() == old(hot.View()).(retries := old(hot.View()).retries -
                              (if e.ackOk && e.publish.Published? then {r} else {}))
      ensures tally' == if e.publish.Published? then tally.(published := tally.published + 1)
                        else tally.(failed := tally.failed + 1)
    {
      if !e.publish.NotPublished? {
        broker.messages := broker.messages + [Message(webhook, false)];
      }
      if !e.publish.Published? {
        return tally.(failed := tally.failed + 1);
      }
      var _ := hot.AckRetry(item, e.ackOk);
      return tally.(published := tally.published + 1);
    }

    /** The loop over the popped references. */
    method ProcessReferences(refs: seq<string>, effects: seq<Effects>) returns (tally: Tally)
      requires hot.Valid() && Keyed(hot.View().data)
      requires |refs| == |effects| && AllCanonical(refs)
      modifies hot, broker`messages
      ensures hot.Valid()
      ensures Processed(old(hot.View()), old(broker.messages), hot.View(), broker.messages, tally, refs, effects)
    {
      ghost var s, sent := hot.View(), broker.messages;
      tally := Tally(0, 0, 0);
      var i := 0;
      while i < |refs|
        invariant 0 <= i <= |refs|
        invariant hot.Valid() && hot.View().data == s.data
        invariant Processed(s, sent, hot.View(), broker.messages, tally, refs[..i], effects[..i])
      {
        ghost var mid, sentMid, tallyMid := hot.View(), broker.messages, tally;
        tally := ProcessReference(refs[i], effects[i], tally);
        ProcessedNext(s, sent, mid, sentMid, tallyMid, hot.View(), broker.messages, refs, effects, i);
        i := i + 1;
      }
      assert refs[..i] == refs && effects[..i] == effects;
    }

    /** Pop a batch with the configured limit and lock timeout. */
    method LeaseDue(readAt: int, lockAt: int) returns (refs: seq<string>)
      requires hot.Valid()
      modifies hot
      ensures hot.Valid() && AllCanonical(refs)
      ensures refs == SortedSet.DueItems(old(hot.retries), Unix(readAt), batchSize)
      ensures IsLeased(old(hot.View()), hot.View(), Leases(refs), Unix(lockAt + lockTimeout))
    {
      refs := hot.PopAndLockRetries(readAt, lockAt, batchSize, lockTimeout);
    }

    /** Lease the due references and handle them one by one. */
    method PublishDue(readAt: int, lockAt: int, effects: seq<Effects>) returns (tally: Tally)
      requires hot.Valid() && Keyed(hot.View().data)
      requires |effects| == |SortedSet.DueItems(hot.retries, Unix(readAt), batchSize)|
      modifies hot, broker`messages
      ensures hot.Valid()
      ensures var items := SortedSet.DueItems(old(hot.retries), Unix(readAt), batchSize);
              && tally == Tallied(old(hot.View()).data, items, effects)
              && Batched(old(hot.View()), old(broker.messages), hot.View(), broker.messages, items, effects,
                  Unix(lockAt + lockTimeout))
    {
      ghost var before, sent := hot.View(), broker.messages;
      var refs := LeaseDue(readAt, lockAt);
      ghost var leased := hot.View();
      assert hot.View().data == before.data;
      tally := ProcessReferences(refs, effects);
      ProcessedIsBatched(before, leased, sent, hot.View(), broker.messages, tally, refs, effects,
          Unix(lockAt + lockTimeout));
    }

    /** One batch: it publishes exactly the resolved due references, in order, and removes from the retry set
        exactly those it published or found without data. It takes `run`, a run of the protocol, whatever other
        schedulers hold. */
    method ProcessBatch(readAt: int, lockAt: int, popOk: bool, effects: seq<Effects>, ghost hands: Hands)
      returns (ok: bool, tally: Tally, ghost run: seq<Step>)
      requires hot.Valid() && Keyed(hot.View().data)
      requires popOk ==> |effects| == |SortedSet.DueItems(hot.retries, Unix(readAt), batchSize)|
      modifies hot, broker`messages
      ensures hot.Valid() && ok == popOk
      ensures !popOk ==> hot.View() == old(hot.View()) && broker.messages == old(broker.messages)
      ensures !popOk ==> tally == Tally(0, 0, 0)
      ensures popOk ==>
                var items := SortedSet.DueItems(old(hot.retries), Unix(readAt), batchSize);
                && tally == Tallied(old(hot.View()).data, items, effects)
                && Batched(old(hot.View()), old(broker.messages), hot.View(), broker.messages, items, effects,
                    Unix(lockAt + lockTimeout))
      ensures ValidRun(old(WorldOf(hot, broker, hands)), run)
      ensures After(old(WorldOf(hot, broker, hands)), run) == WorldOf(hot, broker, hands)
    {
      tally, run := Tally(0, 0, 0), [];
      if popOk {
        run := BatchRun(WorldOf(hot, broker, hands), hot.retries, effects, Unix(readAt), batchSize,
            Unix(lockAt + lockTimeout));
        tally := PublishDue(readAt, lockAt, effects);
      }
      ok := popOk;
    }
  }
}
