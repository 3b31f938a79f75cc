/** The shared Redis mirror of the script table, written by any number of instances that replay the same partitions, and
    by the API handlers that publish to them. */
module ScriptMirror {
  import opened Domain
  import opened ScriptTables

  /** `positions[i][p]`: how far instance `i` has replayed partition `p`. `pending`: the records whose API handler has
      published them and has yet to write the mirror itself. */
  datatype System =
    System(logs: seq<seq<Rec>>, positions: seq<seq<nat>>, mirror: map<string, Script>, pending: multiset<Rec>)

  datatype Step =
    | Publish(rec: Rec, direct: bool)    // appended to the partition of its key, by a handler if direct
    | WriteDirect(written: Rec)          // the handler's own write, at any later time
    | Consume(instance: nat, partition: nat)
    | Restart(instance: nat)             // replay from the earliest offset
    | Join                               // a new instance starts
    | Leave(instance: nat)               // an instance stops for good
    | Clean(partition: nat, offset: nat) // compaction removes one record

  function Zeros(n: nat): (z: seq<nat>)
    ensures |z| == n && forall i :: 0 <= i < n ==> z[i] == 0
  {
    seq(n, i => 0)
  }

  ghost predicate WellFormed(s: System, home: string -> nat) {
    && Confined(s.logs, home)
    && (forall i :: 0 <= i < |s.positions| ==> |s.positions[i]| == |s.logs|)
    && (forall i, p :: 0 <= i < |s.positions| && 0 <= p < |s.logs| ==> s.positions[i][p] <= |s.logs[p]|)
  }

  /** A removed record: its offset stays, and no handler sees it, as if it had been rejected. */
  function Hole(log: seq<Rec>, offset: nat): seq<Rec>
    requires offset < |log|
  {
    log[offset := Rec(log[offset].key, Malformed)]
  }

  /** A later record of the key takes its place. */
  predicate Superseded(log: seq<Rec>, offset: nat)
    requires offset < |log|
  {
    LastEffective(log[offset + 1..], log[offset].key).Some?
  }

  /** A tombstone with nothing of its key left around it. */
  predicate Retired(log: seq<Rec>, offset: nat)
    requires offset < |log|
  {
    log[offset].value.Tombstone? && LastEffective(Hole(log, offset), log[offset].key).None?
  }

  predicate Enabled(s: System, home: string -> nat, step: Step) {
    match step
    case Publish(rec, direct) => home(rec.key) < |s.logs| && (direct ==> Effective(rec))
    case WriteDirect(rec) => rec in s.pending
    case Consume(i, p) =>
      i < |s.positions| && p < |s.logs| && p < |s.positions[i]| && s.positions[i][p] < |s.logs[p]|
    case Restart(i) => i < |s.positions|
    case Join => true
    case Leave(i) => i < |s.positions|
    case Clean(p, i) => p < |s.logs| && i < |s.logs[p]| && (Superseded(s.logs[p], i) || Retired(s.logs[p], i))
  }

  function Apply(s: System, home: string -> nat, step: Step): System
    requires Enabled(s, home, step)
  {
    match step
    case Publish(rec, direct) =>
      var p := home(rec.key);
      s.(logs := s.logs[p := s.logs[p] + [rec]], pending := if direct then s.pending + multiset{rec} else s.pending)
    case WriteDirect(rec) => s.(mirror := Mirrored(s.mirror, rec), pending := s.pending - multiset{rec})
    case Consume(i, p) =>
      var at := s.positions[i][p];
      s.(mirror := Mirrored(s.mirror, s.logs[p][at]), positions := s.positions[i := s.positions[i][p := at + 1]])
    case Restart(i) => s.(positions := s.positions[i := Zeros(|s.logs|)])
    case Join => s.(positions := s.positions + [Zeros(|s.logs|)])
    case Leave(i) => s.(positions := s.positions[..i] + s.positions[i + 1..])
    case Clean(p, i) => s.(logs := s.logs[p := Hole(s.logs[p], i)])
  }

  predicate ValidRun(s: System, home: string -> nat, run: seq<Step>)
    decreases |run|
  {
    run == [] || (Enabled(s, home, run[0]) && ValidRun(Apply(s, home, run[0]), home, run[1..]))
  }

  function After(s: System, home: string -> nat, run: seq<Step>): System
    requires ValidRun(s, home, run)
    decreases |run|
  {
    if run == [] then s else After(Apply(s, home, run[0]), home, run[1..])
  }

  // ---------------------------------------------------------------- invariant

  /** Instance `i` still has a record of the key ahead of it that will overwrite the mirror. */
  ghost predicate Ahead(s: System, home: string -> nat, i: nat, key: string)
    requires WellFormed(s, home) && i < |s.positions|
  {
    home(key) < |s.logs| && LastEffective(s.logs[home(key)][s.positions[i][home(key)]..], key).Some?
  }

  predicate Agrees(s: System, home: string -> nat, key: string) {
    Lookup(s.mirror, key) == Entry(LastEffective(HomePart(s.logs, home, key), key))
  }

  /** Each key is right in the mirror, or some instance has yet to make it right. */
  ghost predicate Converging(s: System, home: string -> nat, key: string)
    requires WellFormed(s, home)
  {
    Agrees(s, home, key) || exists i :: 0 <= i < |s.positions| && Ahead(s, home, i, key)
  }

  /** The last effective record of the key that the log still holds. */
  function Left(s: System, home: string -> nat, key: string): Option<Rec> {
    LastEffective(HomePart(s.logs, home, key), key)
  }

  ghost predicate NobodyAhead(s: System, home: string -> nat, key: string)
    requires WellFormed(s, home)
  {
    forall i :: 0 <= i < |s.positions| ==> !Ahead(s, home, i, key)
  }

  /** Instance `i` alone can still put the key right. */
  ghost predicate OnlyAhead(s: System, home: string -> nat, i: nat, key: string)
    requires WellFormed(s, home) && i < |s.positions|
  {
    Ahead(s, home, i, key) && forall j :: 0 <= j < |s.positions| && j != i ==> !Ahead(s, home, j, key)
  }

  /** Whether the key is wrong for good after the step, given whether it was before. It becomes so by a handler's write
      that comes after every instance has passed a later record, by the departure of the only instance that could put it
      right, by the removal of a last tombstone that nobody applied, or by a record that nobody is there to read. A
      record that somebody will read, or a replay from the start while one is left, puts it right. */
  ghost predicate Sticks(s: System, home: string -> nat, step: Step, key: string, stuck: bool)
    requires WellFormed(s, home) && Enabled(s, home, step)
  {
    match step
    case Publish(rec, _) =>
      if rec.key == key && Effective(rec) then s.positions == [] && Lookup(s.mirror, key) != Entry(Some(rec)) else stuck
    case WriteDirect(rec) =>
      if rec.key == key && Effective(rec)
      then NobodyAhead(s, home, key) && Entry(Some(rec)) != Entry(Left(s, home, key)) else stuck
    case Consume(_, _) => stuck
    case Restart(_) => stuck && Left(s, home, key).None?
    case Join => stuck && Left(s, home, key).None?
    case Leave(i) => stuck || (!Agrees(s, home, key) && OnlyAhead(s, home, i, key))
    case Clean(p, i) => if s.logs[p][i].key == key && Retired(s.logs[p], i) then key in s.mirror else stuck
  }

  ghost predicate Inv(s: System, home: string -> nat, key: string, stuck: bool) {
    WellFormed(s, home) && (stuck <==> !Converging(s, home, key))
  }

  lemma {:induction false} LastOfSuffix(log: seq<Rec>, at: nat, key: string)
    requires at <= |log|
    ensures LastEffective(log[at..], key).Some? ==> LastEffective(log, key) == LastEffective(log[at..], key)
    decreases at
  {
    if at > 0 {
      LastOfSuffix(log[1..], at - 1, key);
      assert log[1..][at - 1..] == log[at..];
    } else {
      assert log[0..] == log;
    }
  }

  lemma {:induction false} LastOfAppend(log: seq<Rec>, rec: Rec, key: string)
    ensures LastEffective(log + [rec], key) ==
            if rec.key == key && Effective(rec) then Some(rec) else LastEffective(log, key)
    decreases |log|
  {
    if log == [] {
      assert (log + [rec])[1..] == [];
    } else {
      LastOfAppend(log[1..], rec, key);
      assert (log + [rec])[1..] == log[1..] + [rec];
    }
  }

  lemma PublishAhead(s: System, home: string -> nat, rec: Rec, direct: bool, key: string, i: nat)
    requires WellFormed(s, home) && Enabled(s, home, Publish(rec, direct)) && i < |s.positions|
    requires WellFormed(Apply(s, home, Publish(rec, direct)), home)
    ensures Ahead(Apply(s, home, Publish(rec, direct)), home, i, key)
            <==> (rec.key == key && Effective(rec)) || Ahead(s, home, i, key)
  {
    var s', p := Apply(s, home, Publish(rec, direct)), home(rec.key);
    if home(key) == p {
      var at := s.positions[i][p];
      assert s'.logs[p][at..] == s.logs[p][at..] + [rec];
      LastOfAppend(s.logs[p][at..], rec, key);
    }
  }

  lemma PublishConverges(s: System, home: string -> nat, rec: Rec, direct: bool, key: string, stuck: bool)
    requires Inv(s, home, key, stuck) && Enabled(s, home, Publish(rec, direct))
    ensures var step := Publish(rec, direct); Inv(Apply(s, home, step), home, key, Sticks(s, home, step, key, stuck))
  {
    var s', p := Apply(s, home, Publish(rec, direct)), home(rec.key);
    assert WellFormed(s', home);
    forall i | 0 <= i < |s.positions|
      ensures Ahead(s', home, i, key) <==> (rec.key == key && Effective(rec)) || Ahead(s, home, i, key)
    {
      PublishAhead(s, home, rec, direct, key, i);
    }
    if home(key) == p {
      LastOfAppend(s.logs[p], rec, key);
    } else {
      assert HomePart(s'.logs, home, key) == HomePart(s.logs, home, key);
    }
    if rec.key == key && Effective(rec) && s.positions != [] {
      assert Ahead(s', home, 0, key);
    }
  }

  /** Steps that leave logs and positions alone leave everybody as far ahead as before. */
  lemma WriteConverges(s: System, home: string -> nat, rec: Rec, key: string, stuck: bool)
    requires Inv(s, home, key, stuck) && Enabled(s, home, WriteDirect(rec))
    ensures Inv(Apply(s, home, WriteDirect(rec)), home, key, Sticks(s, home, WriteDirect(rec), key, stuck))
  {
    var s' := Apply(s, home, WriteDirect(rec));
    assert WellFormed(s', home);
    assert forall i :: 0 <= i < |s.positions| ==> (Ahead(s', home, i, key) <==> Ahead(s, home, i, key));
    assert Left(s', home, key) == Left(s, home, key);
  }

  lemma LeaveConverges(s: System, home: string -> nat, i: nat, key: string, stuck: bool)
    requires Inv(s, home, key, stuck) && Enabled(s, home, Leave(i))
    ensures Inv(Apply(s, home, Leave(i)), home, key, Sticks(s, home, Leave(i), key, stuck))
  {
    var s' := Apply(s, home, Leave(i));
    assert WellFormed(s', home);
    forall j | 0 <= j < |s.positions| && j != i && Ahead(s, home, j, key)
      ensures exists k :: 0 <= k < |s'.positions| && Ahead(s', home, k, key)
    {
      assert Ahead(s', home, if j < i then j else j - 1, key);
    }
    forall k | 0 <= k < |s'.positions| && Ahead(s', home, k, key)
      ensures exists j :: 0 <= j < |s.positions| && j != i && Ahead(s, home, j, key)
    {
      assert Ahead(s, home, if k < i then k else k + 1, key);
    }
  }

  lemma ConsumeKey(s: System, home: string -> nat, i: nat, p: nat, key: string)
    requires WellFormed(s, home) && Enabled(s, home, Consume(i, p)) && Converging(s, home, key)
    requires WellFormed(Apply(s, home, Consume(i, p)), home)
    ensures Converging(Apply(s, home, Consume(i, p)), home, key)
  {
    var s' := Apply(s, home, Consume(i, p));
    var at := s.positions[i][p];
    var rec := s.logs[p][at];
    assert home(rec.key) == p;
    assert s.logs[p][at..] == [rec] + s.logs[p][at + 1..];
    assert ([rec] + s.logs[p][at + 1..])[1..] == s.logs[p][at + 1..];
    if rec.key == key && Effective(rec) {
      LastOfSuffix(s.logs[p], at, key);
      if LastEffective(s.logs[p][at + 1..], key).Some? {
        assert Ahead(s', home, i, key);
      } else {
        assert LastEffective(s.logs[p], key) == Some(rec);
        assert Agrees(s', home, key);
      }
    } else {
      assert Agrees(s, home, key) ==> Agrees(s', home, key);
      forall j | 0 <= j < |s.positions| && Ahead(s, home, j, key) ensures Ahead(s', home, j, key) {
      }
    }
  }

  /** A record of the key at hand is one its log still holds. */
  lemma {:induction false} EffectiveIsLast(log: seq<Rec>, at: nat)
    requires at < |log| && Effective(log[at])
    ensures LastEffective(log, log[at].key).Some?
    decreases at
  {
    if at > 0 {
      EffectiveIsLast(log[1..], at - 1);
    }
  }

  /** While nobody is ahead, nobody reads a record of the key. */
  lemma ConsumeWrong(s: System, home: string -> nat, i: nat, p: nat, key: string)
    requires WellFormed(s, home) && Enabled(s, home, Consume(i, p)) && !Converging(s, home, key)
    requires WellFormed(Apply(s, home, Consume(i, p)), home)
    ensures !Converging(Apply(s, home, Consume(i, p)), home, key)
  {
    var s', at := Apply(s, home, Consume(i, p)), s.positions[i][p];
    var rec, ahead := s.logs[p][at], s.logs[p][at..];
    assert home(rec.key) == p && ahead[0] == rec && ahead[1..] == s.logs[p][at + 1..];
    assert !Ahead(s, home, i, key);
    if rec.key == key && Effective(rec) {
      EffectiveIsLast(ahead, 0);
    }
    forall j | 0 <= j < |s'.positions| ensures !Ahead(s', home, j, key) {
      assert !Ahead(s, home, j, key);
      if j == i && home(key) == p {
        LastOfSuffix(ahead, 1, key);
      }
    }
  }

  lemma ConsumeConverges(s: System, home: string -> nat, i: nat, p: nat, key: string, stuck: bool)
    requires Inv(s, home, key, stuck) && Enabled(s, home, Consume(i, p))
    ensures Inv(Apply(s, home, Consume(i, p)), home, key, stuck)
  {
    assert WellFormed(Apply(s, home, Consume(i, p)), home);
    if stuck {
      ConsumeWrong(s, home, i, p, key);
    } else {
      ConsumeKey(s, home, i, p, key);
    }
  }

  /** Instance `i` starts at the beginning of every partition; the others go on. */
  predicate Rewinds(s: System, s': System, i: nat) {
    && s'.logs == s.logs && s'.mirror == s.mirror && |s.positions| <= |s'.positions| <= |s.positions| + 1 &&
        i < |s'.positions|
    && (forall j :: 0 <= j < |s'.positions| && j != i ==> j < |s.positions| && s'.positions[j] == s.positions[j])
    && s'.positions[i] == Zeros(|s.logs|)
  }

  lemma RewindConverges(s: System, s': System, home: string -> nat, i: nat, key: string, stuck: bool)
    requires Inv(s, home, key, stuck) && WellFormed(s', home) && Rewinds(s, s', i)
    ensures Inv(s', home, key, stuck && Left(s, home, key).None?)
  {
    if Left(s, home, key).Some? {
      var log := s.logs[home(key)];
      assert log[0..] == log && s'.positions[i] == Zeros(|s.logs|) && Zeros(|s.logs|)[home(key)] == 0;
      assert Ahead(s', home, i, key);
    } else {
      NoneAhead(s, home, key);
      NoneAhead(s', home, key);
    }
  }

  /** With no record left nobody is ahead. */
  lemma NoneAhead(s: System, home: string -> nat, key: string)
    requires WellFormed(s, home) && Left(s, home, key).None?
    ensures NobodyAhead(s, home, key)
  {
    forall i | 0 <= i < |s.positions| ensures !Ahead(s, home, i, key) {
      if home(key) < |s.logs| {
        LastOfSuffix(s.logs[home(key)], s.positions[i][home(key)], key);
      }
    }
  }

  /** Other keys do not notice a removal. */
  lemma {:induction false} HoleElsewhere(log: seq<Rec>, offset: nat, key: string)
    requires offset < |log| && log[offset].key != key
    ensures LastEffective(Hole(log, offset), key) == LastEffective(log, key)
    decreases offset
  {
    if offset > 0 {
      HoleElsewhere(log[1..], offset - 1, key);
      assert Hole(log, offset)[1..] == Hole(log[1..], offset - 1);
    } else {
      assert Hole(log, 0)[1..] == log[1..];
    }
  }

  /** Nor does the key itself when the record is superseded. */
  lemma {:induction false} HoleSuperseded(log: seq<Rec>, offset: nat)
    requires offset < |log| && Superseded(log, offset)
    ensures LastEffective(Hole(log, offset), log[offset].key) == LastEffective(log, log[offset].key)
    decreases offset
  {
    if offset > 0 {
      assert log[1..][offset..] == log[offset + 1..];
      HoleSuperseded(log[1..], offset - 1);
      assert Hole(log, offset)[1..] == Hole(log[1..], offset - 1);
    } else {
      assert Hole(log, 0)[1..] == log[1..];
    }
  }

  lemma HoleSuffix(log: seq<Rec>, offset: nat, at: nat, key: string)
    requires offset < |log| && at <= |log| && (log[offset].key != key || Superseded(log, offset))
    ensures LastEffective(Hole(log, offset)[at..], key) == LastEffective(log[at..], key)
  {
    if offset < at {
      assert Hole(log, offset)[at..] == log[at..];
    } else {
      assert Hole(log, offset)[at..] == Hole(log[at..], offset - at);
      if log[offset].key != key {
        HoleElsewhere(log[at..], offset - at, key);
      } else {
        assert log[at..][offset - at + 1..] == log[offset + 1..];
        HoleSuperseded(log[at..], offset - at);
      }
    }
  }

  /** A removal that the key's last effective records outlast. */
  lemma CleanUnnoticed(s: System, home: string -> nat, p: nat, i: nat, key: string, stuck: bool)
    requires Inv(s, home, key, stuck) && Enabled(s, home, Clean(p, i))
    requires s.logs[p][i].key != key || Superseded(s.logs[p], i)
    ensures Inv(Apply(s, home, Clean(p, i)), home, key, stuck)
  {
    var s' := Apply(s, home, Clean(p, i));
    assert WellFormed(s', home);
    if home(key) == p {
      HoleSuffix(s.logs[p], i, 0, key);
      assert Hole(s.logs[p], i)[0..] == Hole(s.logs[p], i) && s.logs[p][0..] == s.logs[p];
      forall j | 0 <= j < |s.positions| ensures Ahead(s, home, j, key) <==> Ahead(s', home, j, key) {
        HoleSuffix(s.logs[p], i, s.positions[j][p], key);
      }
    } else {
      assert HomePart(s'.logs, home, key) == HomePart(s.logs, home, key);
      forall j | 0 <= j < |s.positions| ensures Ahead(s, home, j, key) <==> Ahead(s', home, j, key) {
      }
    }
  }

  lemma CleanConverges(s: System, home: string -> nat, p: nat, i: nat, key: string, stuck: bool)
    requires Inv(s, home, key, stuck) && Enabled(s, home, Clean(p, i))
    ensures Inv(Apply(s, home, Clean(p, i)), home, key, Sticks(s, home, Clean(p, i), key, stuck))
  {
    if s.logs[p][i].key != key || Superseded(s.logs[p], i) {
      CleanUnnoticed(s, home, p, i, key, stuck);
      if s.logs[p][i].key == key && Retired(s.logs[p], i) {
        HoleSuperseded(s.logs[p], i);
        LastOfSuffix(s.logs[p], i + 1, key);
        assert false;
      }
    } else {
      var s' := Apply(s, home, Clean(p, i));
      assert home(s.logs[p][i].key) == p;
      assert WellFormed(s', home);
      assert Left(s', home, key).None?;
      NoneAhead(s', home, key);
    }
  }

  lemma StepConverges(s: System, home: string -> nat, step: Step, key: string, stuck: bool)
    requires Inv(s, home, key, stuck) && Enabled(s, home, step)
    ensures Inv(Apply(s, home, step), home, key, Sticks(s, home, step, key, stuck))
  {
    match step
    case Publish(rec, direct) => PublishConverges(s, home, rec, direct, key, stuck);
    case WriteDirect(rec) => WriteConverges(s, home, rec, key, stuck);
    case Consume(i, p) => ConsumeConverges(s, home, i, p, key, stuck);
    case Restart(i) => RewindConverges(s, Apply(s, home, step), home, i, key, stuck);
    case Join => RewindConverges(s, Apply(s, home, step), home, |s.positions|, key, stuck);
    case Leave(i) => LeaveConverges(s, home, i, key, stuck);
    case Clean(p, i) => CleanConverges(s, home, p, i, key, stuck);
  }

  lemma StepKeepsForm(s: System, home: string -> nat, step: Step)
    requires WellFormed(s, home) && Enabled(s, home, step)
    ensures WellFormed(Apply(s, home, step), home)
  {
  }

  /** Whether some step of the run left the key wrong for good, and none has put it right since. */
  ghost predicate StuckAfter(s: System, home: string -> nat, run: seq<Step>, key: string, stuck: bool)
    requires WellFormed(s, home) && ValidRun(s, home, run)
    decreases |run|
  {
    if run == [] then stuck
    else
      StepKeepsForm(s, home, run[0]);
      StuckAfter(Apply(s, home, run[0]), home, run[1..], key, Sticks(s, home, run[0], key, stuck))
  }

  lemma {:induction false} RunConverges(s: System, home: string -> nat, run: seq<Step>, key: string, stuck: bool)
    requires Inv(s, home, key, stuck) && ValidRun(s, home, run)
    ensures Inv(After(s, home, run), home, key, StuckAfter(s, home, run, key, stuck))
    decreases |run|
  {
    if run != [] {
      StepConverges(s, home, run[0], key, stuck);
      RunConverges(Apply(s, home, run[0]), home, run[1..], key, Sticks(s, home, run[0], key, stuck));
    }
  }

  /** Every running instance has replayed everything. */
  predicate Drained(s: System) {
    forall i :: 0 <= i < |s.positions| ==>
      |s.positions[i]| == |s.logs| && forall p :: 0 <= p < |s.logs| ==> s.positions[i][p] == |s.logs[p]|
  }

  /** One instance, empty partitions, an empty mirror. */
  predicate Empty(s: System) {
    && (forall p :: 0 <= p < |s.logs| ==> s.logs[p] == [])
    && s.positions == [Zeros(|s.logs|)] && s.mirror == map[] && s.pending == multiset{}
  }

  /** Main result: whatever is published and compacted, however many instances join, start over or leave, whenever the
      handlers write, and in whatever order all of them do: once the instances that run have drained, the mirror holds
      under a key exactly what the last effective record left in the log says, if and only if no step left the key wrong
      for good. */
  lemma MirrorConvergesIff(s: System, home: string -> nat, run: seq<Step>, key: string)
    requires Empty(s) && ValidRun(s, home, run) && Drained(After(s, home, run))
    ensures var e := After(s, home, run);
            Lookup(e.mirror, key) == Entry(Left(e, home, key)) <==> !StuckAfter(s, home, run, key, false)
  {
    assert Agrees(s, home, key);
    RunConverges(s, home, run, key, false);
    DrainedNotAhead(After(s, home, run), home, key);
  }

  lemma DrainedNotAhead(s: System, home: string -> nat, key: string)
    requires WellFormed(s, home) && Drained(s)
    ensures NobodyAhead(s, home, key)
  {
    forall i | 0 <= i < |s.positions| && home(key) < |s.logs|
      ensures s.logs[home(key)][s.positions[i][home(key)]..] == []
    {
    }
  }

  /** Consumers alone, while none of them leaves and nothing is removed. */
  predicate Undisturbed(step: Step) {
    !step.WriteDirect? && !step.Leave? && !step.Clean?
  }

  lemma {:induction false} NeverStuck(s: System, home: string -> nat, run: seq<Step>, key: string)
    requires WellFormed(s, home) && s.positions != [] && ValidRun(s, home, run)
    requires forall k :: 0 <= k < |run| ==> Undisturbed(run[k])
    ensures !StuckAfter(s, home, run, key, false)
    decreases |run|
  {
    if run != [] {
      StepKeepsForm(s, home, run[0]);
      NeverStuck(Apply(s, home, run[0]), home, run[1..], key);
    }
  }

  /** Main result: so the consumers' writes alone always converge, however instances join, start over and interleave. */
  lemma MirrorConverges(s: System, home: string -> nat, run: seq<Step>, key: string)
    requires Empty(s) && ValidRun(s, home, run) && Drained(After(s, home, run))
    requires forall k :: 0 <= k < |run| ==> Undisturbed(run[k])
    ensures var e := After(s, home, run); Lookup(e.mirror, key) == Entry(Left(e, home, key))
  {
    NeverStuck(s, home, run, key);
    MirrorConvergesIff(s, home, run, key);
  }

  // ---------------------------------------------------------------- runs that leave the mirror wrong

  lemma OneStep(s: System, home: string -> nat, step: Step, next: System, rest: seq<Step>)
    requires Enabled(s, home, step) && Apply(s, home, step) == next && ValidRun(next, home, rest)
    ensures ValidRun(s, home, [step] + rest) && After(s, home, [step] + rest) == After(next, home, rest)
  {
    assert ([step] + rest)[1..] == rest;
  }

  /** One partition, read by one instance. */
  function Single(log: seq<Rec>, at: nat, mirror: map<string, Script>, pending: multiset<Rec>): System {
    System([log], [[at]], mirror, pending)
  }

  lemma SingleStep(log: seq<Rec>, at: nat, mirror: map<string, Script>, pending: multiset<Rec>, home: string -> nat,
      step: Step)
    requires Enabled(Single(log, at, mirror, pending), home, step)
    ensures var e := Apply(Single(log, at, mirror, pending), home, step);
            match step
            case Publish(rec, direct) =>
              e == Single(log + [rec], at, mirror, if direct then pending + multiset{rec} else pending)
            case WriteDirect(rec) => e == Single(log, at, Mirrored(mirror, rec), pending - multiset{rec})
            case Consume(_, _) => at < |log| && e == Single(log, at + 1, Mirrored(mirror, log[at]), pending)
            case Clean(_, i) => i < |log| && e == Single(Hole(log, i), at, mirror, pending)
            case Restart(_) => true
            case Join => true
            case Leave(_) => true
  {
    var s, e := Single(log, at, mirror, pending), Apply(Single(log, at, mirror, pending), home, step);
    match step
    case Publish(rec, direct) => assert e.logs == [log + [rec]];
    case WriteDirect(rec) =>
    case Consume(i, p) =>
      assert i == 0 && p == 0 && s.positions[0] == [at] && s.logs[0] == log;
      assert s.positions[0][0 := at + 1] == [at + 1];
      assert e.positions == [[at + 1]];
    case Clean(p, i) => assert e.logs == [Hole(log, i)];
    case Restart(_) =>
    case Join =>
    case Leave(_) =>
  }

  /** Two uploads, the first handler's write delayed past the replay of both. */
  function LateWriteRun(one: Rec, two: Rec): seq<Step> {
    [Publish(one, true)] + ([Publish(two, true)] + ([Consume(0, 0)] + ([Consume(0, 0)] + ([WriteDirect(one)] + []))))
  }

  /** A late write leaves the older script in the mirror for good, with nothing removed and no instance gone. */
  lemma LateWriteStays(one: Rec, two: Rec, home: string -> nat)
    requires Accepted(one) && Accepted(two) && one.key == two.key && one.value != two.value && home(one.key) == 0
    ensures var start := Single([], 0, map[], multiset{});
            && Empty(start) && ValidRun(start, home, LateWriteRun(one, two))
            && var e := After(start, home, LateWriteRun(one, two));
               && Drained(e) && Lookup(e.mirror, one.key) == Some(one.value.script)
               && Left(e, home, one.key) == Some(two)
  {
    var k, both, pending := one.key, [one] + [two], multiset{one} + multiset{two};
    var m1, m2 := map[k := one.value.script], map[k := two.value.script];
    var s5 := Single(both, 2, m1, pending - multiset{one});
    assert Zeros(1) == [0] && [] + [one] == [one] && multiset{} + multiset{one} == multiset{one};
    var write := [WriteDirect(one)] + [];
    SingleStep(both, 2, m2, pending, home, WriteDirect(one));
    OneStep(Single(both, 2, m2, pending), home, WriteDirect(one), s5, []);
    var last := [Consume(0, 0)] + write;
    SingleStep(both, 1, m1, pending, home, Consume(0, 0));
    OneStep(Single(both, 1, m1, pending), home, Consume(0, 0), Single(both, 2, m2, pending), write);
    var replay := [Consume(0, 0)] + last;
    SingleStep(both, 0, map[], pending, home, Consume(0, 0));
    OneStep(Single(both, 0, map[], pending), home, Consume(0, 0), Single(both, 1, m1, pending), last);
    SingleStep([one], 0, map[], multiset{one}, home, Publish(two, true));
    OneStep(Single([one], 0, map[], multiset{one}), home, Publish(two, true), Single(both, 0, map[], pending), replay);
    SingleStep([], 0, map[], multiset{}, home, Publish(one, true));
    OneStep(Single([], 0, map[], multiset{}), home, Publish(one, true), Single([one], 0, map[], multiset{one}),
            [Publish(two, true)] + replay);
    LastOfAppend([one], two, k);
  }

  /** A script is replayed and deleted, and compaction removes both records before the tombstone is replayed. */
  function RemovedRun(script: Rec): seq<Step> {
    [Publish(script, false)] + ([Consume(0, 0)] + RemovalRun(script.key))
  }

  function RemovalRun(key: string): seq<Step> {
    [Publish(Rec(key, Value.Tombstone), false)] + ([Clean(0, 0)] + ([Clean(0, 1)] + ([Consume(0, 0)] + [])))
  }

  lemma Removal(script: Rec, mirror: map<string, Script>, home: string -> nat)
    requires Accepted(script) && home(script.key) == 0
    ensures var s, hole := Single([script], 1, mirror, multiset{}), Rec(script.key, Malformed);
            ValidRun(s, home, RemovalRun(script.key))
            && After(s, home, RemovalRun(script.key)) == Single([hole, hole], 2, mirror, multiset{})
  {
    var k, none := script.key, multiset{};
    var tomb, hole := Rec(k, Value.Tombstone), Rec(k, Malformed);
    LastOfAppend([], tomb, k);
    assert [] + [tomb] == [tomb] && [script, tomb][1..] == [tomb] && [script] + [tomb] == [script, tomb];
    LastOfAppend([hole], hole, k);
    LastOfAppend([], hole, k);
    assert [] + [hole] == [hole] && [hole] + [hole] == [hole, hole];
    assert Hole([script, tomb], 0) == [hole, tomb] && Hole([hole, tomb], 1) == [hole, hole];
    var read := [Consume(0, 0)] + [];
    SingleStep([hole, hole], 1, mirror, none, home, Consume(0, 0));
    OneStep(Single([hole, hole], 1, mirror, none), home, Consume(0, 0), Single([hole, hole], 2, mirror, none), []);
    SingleStep([hole, tomb], 1, mirror, none, home, Clean(0, 1));
    OneStep(Single([hole, tomb], 1, mirror, none), home, Clean(0, 1), Single([hole, hole], 1, mirror, none), read);
    var rest := [Clean(0, 1)] + read;
    SingleStep([script, tomb], 1, mirror, none, home, Clean(0, 0));
    OneStep(Single([script, tomb], 1, mirror, none), home, Clean(0, 0), Single([hole, tomb], 1, mirror, none), rest);
    SingleStep([script], 1, mirror, none, home, Publish(tomb, false));
    OneStep(Single([script], 1, mirror, none), home, Publish(tomb, false), Single([script, tomb], 1, mirror, none),
            [Clean(0, 0)] + rest);
  }

  /** A tombstone removed before anyone applies it leaves the deleted script in the mirror for good. */
  lemma RemovedTombstoneStays(script: Rec, home: string -> nat)
    requires Accepted(script) && home(script.key) == 0
    ensures var start := Single([], 0, map[], multiset{});
            && Empty(start) && ValidRun(start, home, RemovedRun(script))
            && var e := After(start, home, RemovedRun(script));
               && Drained(e) && Lookup(e.mirror, script.key) == Some(script.value.script)
               && Left(e, home, script.key) == None
  {
    var k, none, hole := script.key, multiset{}, Rec(script.key, Malformed);
    var mirror := map[k := script.value.script];
    assert Zeros(1) == [0] && [] + [script] == [script];
    Removal(script, mirror, home);
    SingleStep([script], 0, map[], none, home, Consume(0, 0));
    OneStep(Single([script], 0, map[], none), home, Consume(0, 0), Single([script], 1, mirror, none), RemovalRun(k));
    SingleStep([], 0, map[], none, home, Publish(script, false));
    OneStep(Single([], 0, map[], none), home, Publish(script, false), Single([script], 0, map[], none),
            [Consume(0, 0)] + RemovalRun(k));
    LastOfAppend([hole], hole, k);
    LastOfAppend([], hole, k);
    assert [] + [hole] == [hole] && [hole] + [hole] == [hole, hole];
  }
}
