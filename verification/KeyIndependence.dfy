/** Messages with different keys do not wait for each other: what holds up one key holds up no other. */
module KeyIndependence {
  import opened PartitionProcessors

  /** Main result: two messages share a channel exactly when their keys are the same, a missing one read as the text
      that stands for it. */
  lemma ChannelsApart(a: Msg, b: Msg)
    ensures ChannelOf(a) == ChannelOf(b) <==>
            a.key == b.key || (a.key == "" && b.key == "__no_key__") || (a.key == "__no_key__" && b.key == "")
  {
  }

  /** The messages with this key that its current workers hold. */
  function HeldFor(ss: Session, s: State, key: string): set<nat> {
    set i | i in s.busy && i < |ss.messages| && ss.messages[i].key == key && (i in s.late <==> s.cleared)
  }

  /** Main result: a worker takes the next message of a key exactly when one waits and fewer of the key are in work than
      the session allows, which is at least one; nothing of any other key matters. */
  lemma StartIff(ss: Session, s: State, key: string)
    requires key != "" && key != "__no_key__"
    ensures Enabled(ss, s, Start(key)) <==>
            && key in s.queues && s.queues[key] != []
            && |HeldFor(ss, s, key)| < (if ss.perKeyParallelism < 1 then 1 else ss.perKeyParallelism)
  {
    assert HeldFor(ss, s, key) == BusyWith(ss, s, key, s.cleared);
  }

  /** A message is routed to its channel exactly while fewer than 100 wait there. */
  lemma RouteIff(ss: Session, s: State)
    requires s.received < |ss.messages| && ss.messages[s.received].key != ""
    ensures Enabled(ss, s, Route) <==>
            var key := ss.messages[s.received].key; key in s.queues ==> |s.queues[key]| < 100
  {
  }

  // ---------------------------------------------------------------- one key at a time

  /** Nothing of any other channel has changed. */
  ghost predicate OthersUntouched(ss: Session, s: State, s': State, key: string) {
    && s'.received == s.received && s'.late == s.late && s'.cleared == s.cleared
    && (forall k :: k != key ==> Queue(s', k) == Queue(s, k))
    && (forall i :: !OnChannel(ss, i, key) ==> (i in s'.busy <==> i in s.busy))
    && (forall i :: !OnChannel(ss, i, key) && i in s.busy ==> s'.busy[i] == s.busy[i])
  }

  lemma {:induction false} JoinRuns(ss: Session, s: State, a: seq<Step>, b: seq<Step>)
    requires ValidRun(ss, s, a) && ValidRun(ss, After(ss, s, a), b)
    ensures ValidRun(ss, s, a + b) && After(ss, s, a + b) == After(ss, After(ss, s, a), b)
    decreases |a|
  {
    if a == [] {
      assert a + b == b;
    } else {
      JoinRuns(ss, Apply(ss, s, a[0]), a[1..], b);
      assert (a + b)[1..] == a[1..] + b;
    }
  }

  lemma OneRun(ss: Session, s: State, step: Step)
    requires Enabled(ss, s, step)
    ensures ValidRun(ss, s, [step]) && After(ss, s, [step]) == Apply(ss, s, step)
  {
    assert [step][1..] == [];
  }

  /** A worker lets go of its message: the handler fails, or the commit position is marked. */
  lemma LetGo(ss: Session, s: State, i: nat) returns (run: seq<Step>)
    requires Inv(ss, s) && i in s.busy
    ensures ValidRun(ss, s, run)
    ensures var e := After(ss, s, run);
            && e.busy == s.busy - {i} && e.queues == s.queues
            && e.received == s.received && e.late == s.late && e.cleared == s.cleared
  {
    if s.busy[i].Handling? {
      run := [ReturnError(i)];
      OneRun(ss, s, ReturnError(i));
    } else if s.busy[i].Marking? {
      run := [MarkOffset(i)];
      OneRun(ss, s, MarkOffset(i));
    } else {
      run := CompleteAndMark(ss, s, i);
    }
  }

  lemma CompleteAndMark(ss: Session, s: State, i: nat) returns (run: seq<Step>)
    requires Inv(ss, s) && i in s.busy && s.busy[i].Handled?
    ensures ValidRun(ss, s, run)
    ensures var e := After(ss, s, run);
            && e.busy == s.busy - {i} && e.queues == s.queues
            && e.received == s.received && e.late == s.late && e.cleared == s.cleared
  {
    assert i in s.starts;
    OneRun(ss, s, Complete(i));
    var s1 := Apply(ss, s, Complete(i));
    if i in s1.busy {
      OneRun(ss, s1, MarkOffset(i));
      JoinRuns(ss, s, [Complete(i)], [MarkOffset(i)]);
      run := [Complete(i)] + [MarkOffset(i)];
    } else {
      run := [Complete(i)];
    }
  }

  /** One worker of the channel lets go. */
  lemma FreeWorker(ss: Session, s: State, key: string) returns (run: seq<Step>)
    requires Inv(ss, s) && BusyWith(ss, s, key, s.cleared) != {}
    ensures ValidRun(ss, s, run) && Inv(ss, After(ss, s, run))
    ensures OthersUntouched(ss, s, After(ss, s, run), key)
    ensures Queue(After(ss, s, run), key) == Queue(s, key)
    ensures |BusyWith(ss, After(ss, s, run), key, s.cleared)| < |BusyWith(ss, s, key, s.cleared)|
  {
    var i :| i in BusyWith(ss, s, key, s.cleared);
    run := LetGo(ss, s, i);
    RunKeepsInv(ss, s, run);
    var e := After(ss, s, run);
    assert BusyWith(ss, e, key, s.cleared) == BusyWith(ss, s, key, s.cleared) - {i};
  }

  lemma TakeHead(ss: Session, s: State, key: string)
    requires Inv(ss, s) && Enabled(ss, s, Start(key))
    ensures var e := Apply(ss, s, Start(key));
            && OthersUntouched(ss, s, e, key) && Inv(ss, e)
            && Queue(e, key) == Queue(s, key)[1..]
            && Queue(s, key)[0] in e.busy && e.busy[Queue(s, key)[0]].Handling?
  {
    TakenIsNew(ss, s, Start(key));
    OneRun(ss, s, Start(key));
    RunKeepsInv(ss, s, [Start(key)]);
  }

  lemma Untouched(ss: Session, s: State, mid: State, e: State, key: string)
    requires OthersUntouched(ss, s, mid, key) && OthersUntouched(ss, mid, e, key)
    ensures OthersUntouched(ss, s, e, key)
  {
  }

  /** Main result: from any reachable state, a waiting message gets into its handler by steps of its own channel
      alone. */
  lemma {:induction false} HandleAlone(ss: Session, s: State, i: nat, key: string) returns (run: seq<Step>)
    requires Inv(ss, s) && i in Queue(s, key)
    ensures ValidRun(ss, s, run) && Inv(ss, After(ss, s, run))
    ensures i in After(ss, s, run).busy && After(ss, s, run).busy[i].Handling?
    ensures OthersUntouched(ss, s, After(ss, s, run), key)
    decreases |Queue(s, key)|, |BusyWith(ss, s, key, s.cleared)|
  {
    if |BusyWith(ss, s, key, s.cleared)| >= Workers(ss) {
      var first := FreeWorker(ss, s, key);
      var mid := After(ss, s, first);
      var rest := HandleAlone(ss, mid, i, key);
      JoinRuns(ss, s, first, rest);
      Untouched(ss, s, mid, After(ss, mid, rest), key);
      run := first + rest;
    } else {
      TakeHead(ss, s, key);
      OneRun(ss, s, Start(key));
      var mid := Apply(ss, s, Start(key));
      if Queue(s, key)[0] == i {
        run := [Start(key)];
      } else {
        var rest := HandleAlone(ss, mid, i, key);
        JoinRuns(ss, s, [Start(key)], rest);
        Untouched(ss, s, mid, After(ss, mid, rest), key);
        run := [Start(key)] + rest;
      }
    }
  }

  /** The keys are different, a missing one read as the text that stands for it. */
  predicate KeysDiffer(ss: Session, i: nat, j: nat) {
    && i < |ss.messages| && j < |ss.messages|
    && ss.messages[i].key != ss.messages[j].key
    && !(ss.messages[i].key == "" && ss.messages[j].key == "__no_key__")
    && !(ss.messages[i].key == "__no_key__" && ss.messages[j].key == "")
  }

  ghost predicate Waits(s: State, i: nat) {
    exists key :: key in s.queues && i in s.queues[key]
  }

  lemma WaitsInChannel(ss: Session, s: State, i: nat)
    requires Inv(ss, s) && Waits(s, i)
    ensures i < |ss.messages| && i in Queue(s, ChannelOf(ss.messages[i]))
  {
    var key :| key in s.queues && i in s.queues[key];
    assert OnChannel(ss, i, key);
  }

  /** Main result: in any reachable state, any two waiting messages with different keys can be in their handlers at
      once, whatever else is in work. */
  lemma DifferentKeysTogether(ss: Session, before: seq<Step>, i: nat, j: nat) returns (run: seq<Step>)
    requires ValidRun(ss, Initially(ss), before) && KeysDiffer(ss, i, j)
    requires Waits(After(ss, Initially(ss), before), i) && Waits(After(ss, Initially(ss), before), j)
    ensures var s := After(ss, Initially(ss), before);
            && ValidRun(ss, s, run)
            && var e := After(ss, s, run);
               i in e.busy && e.busy[i].Handling? && j in e.busy && e.busy[j].Handling?
  {
    InitiallyInv(ss);
    RunKeepsInv(ss, Initially(ss), before);
    run := BothHandled(ss, After(ss, Initially(ss), before), i, j);
  }

  lemma BothHandled(ss: Session, s: State, i: nat, j: nat) returns (run: seq<Step>)
    requires Inv(ss, s) && KeysDiffer(ss, i, j) && Waits(s, i) && Waits(s, j)
    ensures ValidRun(ss, s, run)
    ensures var e := After(ss, s, run);
            i in e.busy && e.busy[i].Handling? && j in e.busy && e.busy[j].Handling?
  {
    WaitsInChannel(ss, s, i);
    WaitsInChannel(ss, s, j);
    ChannelsApart(ss.messages[i], ss.messages[j]);
    var first := HandleAlone(ss, s, i, ChannelOf(ss.messages[i]));
    var mid := After(ss, s, first);
    var second := HandleAlone(ss, mid, j, ChannelOf(ss.messages[j]));
    JoinRuns(ss, s, first, second);
    run := first + second;
  }

  // ---------------------------------------------------------------- messages still to be routed

  /** Room for `n` more messages, whatever their keys. */
  ghost predicate Room(s: State, n: nat) {
    forall key :: |Queue(s, key)| + n <= BUFFER
  }

  lemma {:induction false} RouteOn(ss: Session, s: State, n: nat) returns (run: seq<Step>)
    requires Inv(ss, s) && s.received + n <= |ss.messages| && Room(s, n)
    ensures ValidRun(ss, s, run) && Inv(ss, After(ss, s, run))
    ensures forall i :: s.received <= i < s.received + n ==> Waits(After(ss, s, run), i)
    ensures forall i :: Waits(s, i) ==> Waits(After(ss, s, run), i)
    decreases n
  {
    if n == 0 {
      run := [];
    } else {
      OneRun(ss, s, Route);
      RunKeepsInv(ss, s, [Route]);
      var mid := Apply(ss, s, Route);
      RoutedWaits(ss, s, n);
      var rest := RouteOn(ss, mid, n - 1);
      JoinRuns(ss, s, [Route], rest);
      run := [Route] + rest;
    }
  }

  lemma RoutedWaits(ss: Session, s: State, n: nat)
    requires 0 < n && s.received < |ss.messages| && Room(s, n)
    ensures Enabled(ss, s, Route)
    ensures var e := Apply(ss, s, Route);
            Room(e, n - 1) && Waits(e, s.received) && forall i :: Waits(s, i) ==> Waits(e, i)
  {
    var key := ChannelOf(ss.messages[s.received]);
    var e := Apply(ss, s, Route);
    assert e.queues[key] == Queue(s, key) + [s.received];
    assert e.queues[key][|Queue(s, key)|] == s.received;
    forall i | Waits(s, i) ensures Waits(e, i) {
      var k :| k in s.queues && i in s.queues[k];
      assert k in e.queues && i in e.queues[k];
    }
    forall k ensures |Queue(e, k)| + (n - 1) <= BUFFER {
      assert |Queue(s, k)| + n <= BUFFER;
    }
  }

  /** Main result: from any reachable state with room for the messages up to the later of the two, any two messages not
      yet routed with different keys can be in their handlers at once. */
  lemma UnroutedTogether(ss: Session, before: seq<Step>, i: nat, j: nat) returns (run: seq<Step>)
    requires ValidRun(ss, Initially(ss), before) && KeysDiffer(ss, i, j)
    requires var s := After(ss, Initially(ss), before); s.received <= i < j && Room(s, j + 1 - s.received)
    ensures var s := After(ss, Initially(ss), before);
            && ValidRun(ss, s, run)
            && var e := After(ss, s, run);
               i in e.busy && e.busy[i].Handling? && j in e.busy && e.busy[j].Handling?
  {
    InitiallyInv(ss);
    RunKeepsInv(ss, Initially(ss), before);
    var s := After(ss, Initially(ss), before);
    var first := RouteOn(ss, s, j + 1 - s.received);
    var second := BothHandled(ss, After(ss, s, first), i, j);
    JoinRuns(ss, s, first, second);
    run := first + second;
  }
}
