/** The script table each instance materialises by replaying the compacted scripts topic. */
module ScriptTables {
  import opened Domain

  datatype Script = Script(configId: string, luaCode: string, hash: string, version: string)

  /** A record's value: empty, not parseable, or a script configuration. */
  datatype Value = Tombstone | Malformed | Config(script: Script)

  datatype Rec = Rec(key: string, value: Value)

  /** `handleMessage` stores this record's script. */
  predicate Accepted(r: Rec) {
    r.value.Config? && r.value.script.configId != "" && r.value.script.luaCode != ""
  }

  /** The record changes state at all; the others are logged and skipped. */
  predicate Effective(r: Rec) {
    r.value.Tombstone? || Accepted(r)
  }

  /** The local table is keyed by the script's own config id, tombstones by the message key. */
  function Loaded(t: map<string, Script>, r: Rec): map<string, Script> {
    if r.value.Tombstone? then t - {r.key}
    else if Accepted(r) then t[r.value.script.configId := r.value.script]
    else t
  }

  /** The Redis mirror is keyed by the message key throughout. */
  function Mirrored(m: map<string, Script>, r: Rec): map<string, Script> {
    if r.value.Tombstone? then m - {r.key}
    else if Accepted(r) then m[r.key := r.value.script]
    else m
  }

  function Replay(t: map<string, Script>, log: seq<Rec>): map<string, Script>
    decreases |log|
  {
    if log == [] then t else Replay(Loaded(t, log[0]), log[1..])
  }

  /** The mirror after one instance has written `log` through, `oks` saying which writes reached Redis. */
  function WriteThrough(m: map<string, Script>, log: seq<Rec>, oks: seq<bool>): map<string, Script>
    requires |oks| == |log|
    decreases |log|
  {
    if log == [] then m else WriteThrough(if oks[0] then Mirrored(m, log[0]) else m, log[1..], oks[1..])
  }

  function Namespace(configId: string): string {
    var i := ColonIndex(configId, 0);
    if 0 < i < |configId| then configId[..i] else ""
  }

  function ColonIndex(s: string, from: nat): (i: nat)
    requires from <= |s|
    ensures from <= i <= |s| && (i < |s| ==> s[i] == ':') && forall k :: from <= k < i ==> s[k] != ':'
    decreases |s| - from
  {
    if from == |s| || s[from] == ':' then from else ColonIndex(s, from + 1)
  }

  class Loader {
    var scripts: map<string, Script>

    constructor ()
      ensures scripts == map[]
    {
      scripts := map[];
    }

    /** The exact entry, or else the entry of the part before the first colon. */
    method GetScript(configId: string) returns (script: Option<Script>)
      ensures configId in scripts ==> script == Some(scripts[configId])
      ensures configId !in scripts ==>
                forall ns: string :: ns != "" && ':' !in ns && ns + ":" <= configId ==>
                  script == if ns in scripts then Some(scripts[ns]) else None
      ensures configId !in scripts && script.Some? ==>
                exists ns :: ns in scripts && ns != "" && ':' !in ns && ns + ":" <= configId &&
                    script.value == scripts[ns]
    {
      if configId in scripts {
        return Some(scripts[configId]);
      }
      var ns := Namespace(configId);
      NamespaceIsUnique(configId);
      if ns != "" && ns != configId && ns in scripts {
        return Some(scripts[ns]);
      }
      return None;
    }

    method SetScript(script: Script)
      modifies this
      ensures scripts == old(scripts)[script.configId := script]
    {
      scripts := scripts[script.configId := script];
    }

    method DeleteScript(configId: string)
      modifies this
      ensures scripts == old(scripts) - {configId}
    {
      scripts := scripts - {configId};
    }
  }

  lemma NamespaceIsUnique(configId: string)
    ensures var ns := Namespace(configId); ns != "" ==> ':' !in ns && ns + ":" <= configId
    ensures forall ns: string :: ns != "" && ':' !in ns && ns + ":" <= configId ==> ns == Namespace(configId)
  {
    var i := ColonIndex(configId, 0);
    forall ns: string | ns != "" && ':' !in ns && ns + ":" <= configId ensures ns == Namespace(configId) {
      assert (ns + ":")[|ns|] == configId[|ns|] == ':';
      forall k | 0 <= k < |ns| ensures configId[k] != ':' {
        assert configId[k] == (ns + ":")[k] == ns[k];
      }
      assert i == |ns|;
    }
    if 0 < i < |configId| {
      assert configId[..i] + ":" == configId[..i + 1];
    }
  }

  /** The Redis keys script:<config id>. */
  class Mirror {
    var scripts: map<string, Script>

    constructor ()
      ensures scripts == map[]
    {
      scripts := map[];
    }
  }

  class Consumer {
    const loader: Loader
    const mirror: Mirror

    constructor (loader: Loader, mirror: Mirror)
      ensures this.loader == loader && this.mirror == mirror
    {
      this.loader, this.mirror := loader, mirror;
    }

    /** `handleMessage`: validate, update the local table, write through to Redis. A failed Redis write is only
        logged. */
    method HandleMessage(r: Rec, redisOk: bool) returns (ok: bool)
      modifies loader, mirror
      ensures loader.scripts == Loaded(old(loader.scripts), r)
      ensures mirror.scripts == if redisOk then Mirrored(old(mirror.scripts), r) else old(mirror.scripts)
      ensures ok <==> Effective(r)
      ensures ok <==> r.value.Tombstone? ||
                      (r.value.Config? && r.value.script.configId != "" && r.value.script.luaCode != "")
      ensures !ok ==> loader.scripts == old(loader.scripts) && mirror.scripts == old(mirror.scripts)
      ensures ok && r.value.Config? ==> loader.scripts == old(loader.scripts)[r.value.script.configId := r.value.script]
      ensures ok && r.value.Config? && redisOk ==> mirror.scripts == old(mirror.scripts)[r.key := r.value.script]
      ensures r.value.Tombstone? ==> loader.scripts == old(loader.scripts) - {r.key}
      ensures r.value.Tombstone? && redisOk ==> mirror.scripts == old(mirror.scripts) - {r.key}
    {
      if r.value.Tombstone? {
        loader.DeleteScript(r.key);
        if redisOk {
          mirror.scripts := mirror.scripts - {r.key};
        }
        return true;
      }
      if r.value.Malformed? {
        return false;
      }
      var script := r.value.script;
      if script.configId == "" {
        return false;
      }
      if script.luaCode == "" {
        return false;
      }
      loader.SetScript(script);
      if redisOk {
        mirror.scripts := mirror.scripts[r.key := script];
      }
      return true;
    }

    /** One partition goroutine of `Replay`: handler errors are skipped. */
    method ReplayPartition(records: seq<Rec>, redisOks: seq<bool>)
      requires |redisOks| == |records|
      modifies loader, mirror
      ensures loader.scripts == Replay(old(loader.scripts), records)
      ensures mirror.scripts == WriteThrough(old(mirror.scripts), records, redisOks)
    {
      var i := 0;
      assert records[0..] == records && redisOks[0..] == redisOks;
      while i < |records|
        invariant 0 <= i <= |records|
        invariant Replay(loader.scripts, records[i..]) == Replay(old(loader.scripts), records)
        invariant WriteThrough(mirror.scripts, records[i..], redisOks[i..]) ==
            WriteThrough(old(mirror.scripts), records, redisOks)
      {
        assert records[i..][1..] == records[i + 1..] && redisOks[i..][1..] == redisOks[i + 1..];
        var _ := HandleMessage(records[i], redisOks[i]);
        i := i + 1;
      }
    }
  }

  // ---------------------------------------------------------------- the table by key

  /** Every accepted script is published under its own config id. */
  predicate WellKeyed(log: seq<Rec>) {
    forall i :: 0 <= i < |log| && Accepted(log[i]) ==> log[i].value.script.configId == log[i].key
  }

  /** The last record of the key that changes state. */
  function LastEffective(log: seq<Rec>, key: string): Option<Rec>
    decreases |log|
  {
    if log == [] then None
    else
      var later := LastEffective(log[1..], key);
      if later.Some? then later
      else if log[0].key == key && Effective(log[0]) then Some(log[0]) else None
  }

  /** What a last record leaves under its key. */
  function Entry(last: Option<Rec>): Option<Script> {
    if last.Some? && last.value.value.Config? then Some(last.value.value.script) else None
  }

  function Lookup(t: map<string, Script>, key: string): Option<Script> {
    if key in t then Some(t[key]) else None
  }

  /** The replayed table holds, under each key, exactly what the key's last effective record says. */
  lemma {:induction false} ReplayByKey(t: map<string, Script>, log: seq<Rec>, key: string)
    requires WellKeyed(log)
    ensures Lookup(Replay(t, log), key) ==
            (if LastEffective(log, key).Some? then Entry(LastEffective(log, key)) else Lookup(t, key))
    decreases |log|
  {
    if log != [] {
      ReplayByKey(Loaded(t, log[0]), log[1..], key);
    }
  }

  /** The records whose writes reached Redis. */
  function Reached(log: seq<Rec>, oks: seq<bool>): seq<Rec>
    requires |oks| == |log|
    decreases |log|
  {
    if log == [] then [] else (if oks[0] then [log[0]] else []) + Reached(log[1..], oks[1..])
  }

  /** Written through by one instance, the mirror holds under each key what its last effective record that reached Redis
      says, and what it held before if none did. */
  lemma {:induction false} WriteThroughByKey(m: map<string, Script>, log: seq<Rec>, oks: seq<bool>, key: string)
    requires |oks| == |log|
    ensures Lookup(WriteThrough(m, log, oks), key) ==
            (if LastEffective(Reached(log, oks), key).Some? then Entry(LastEffective(Reached(log, oks), key))
             else Lookup(m, key))
    decreases |log|
  {
    if log != [] {
      WriteThroughByKey(if oks[0] then Mirrored(m, log[0]) else m, log[1..], oks[1..], key);
      var rest := Reached(log[1..], oks[1..]);
      if oks[0] {
        assert Reached(log, oks)[0] == log[0] && Reached(log, oks)[1..] == rest;
      } else {
        assert Reached(log, oks) == rest;
      }
    }
  }

  lemma SameLookups(a: map<string, Script>, b: map<string, Script>)
    requires forall key :: Lookup(a, key) == Lookup(b, key)
    ensures a == b
  {
    forall key ensures key in a <==> key in b {
      assert Lookup(a, key) == Lookup(b, key);
    }
    forall key | key in a ensures a[key] == b[key] {
      assert Lookup(a, key) == Lookup(b, key);
    }
  }

  // ---------------------------------------------------------------- interleavings of partitions

  /** `log` takes the records of all partitions, each partition in its own order. */
  ghost predicate Interleaves(parts: seq<seq<Rec>>, log: seq<Rec>)
    decreases |log|
  {
    if log == [] then forall p :: 0 <= p < |parts| ==> parts[p] == []
    else exists p :: 0 <= p < |parts| && parts[p] != [] && parts[p][0] == log[0]
                     && Interleaves(parts[p := parts[p][1..]], log[1..])
  }

  /** Each key is published to one partition. */
  ghost predicate Confined(parts: seq<seq<Rec>>, home: string -> nat) {
    forall p, i :: 0 <= p < |parts| && 0 <= i < |parts[p]| ==> home(parts[p][i].key) == p
  }

  function HomePart(parts: seq<seq<Rec>>, home: string -> nat, key: string): seq<Rec> {
    if home(key) < |parts| then parts[home(key)] else []
  }

  /** Whatever the interleaving, a key's last effective record is the last one of its partition. */
  lemma {:induction false} InterleavedLast(parts: seq<seq<Rec>>, home: string -> nat, log: seq<Rec>, key: string)
    requires Interleaves(parts, log) && Confined(parts, home)
    ensures LastEffective(log, key) == LastEffective(HomePart(parts, home, key), key)
    decreases |log|
  {
    if log != [] {
      var p :| 0 <= p < |parts| && parts[p] != [] && parts[p][0] == log[0] &&
          Interleaves(parts[p := parts[p][1..]], log[1..]);
      var rest: seq<seq<Rec>> := parts[p := parts[p][1..]];
      ConfinedTail(parts, home, p);
      InterleavedLast(rest, home, log[1..], key);
      assert home(log[0].key) == p;
      if home(key) != p {
        assert HomePart(rest, home, key) == HomePart(parts, home, key);
      }
    }
  }

  lemma ConfinedTail(parts: seq<seq<Rec>>, home: string -> nat, p: nat)
    requires Confined(parts, home) && p < |parts| && parts[p] != []
    ensures Confined(parts[p := parts[p][1..]], home)
  {
    var rest: seq<seq<Rec>> := parts[p := parts[p][1..]];
    forall q, i | 0 <= q < |rest| && 0 <= i < |rest[q]| ensures home(rest[q][i].key) == q {
      if q == p {
        assert rest[q][i] == parts[p][i + 1];
      }
    }
  }

  ghost predicate InParts(parts: seq<seq<Rec>>, r: Rec) {
    exists p :: 0 <= p < |parts| && r in parts[p]
  }

  /** An interleaving has exactly the records of the partitions. */
  lemma {:induction false} InterleavedRecords(parts: seq<seq<Rec>>, log: seq<Rec>)
    requires Interleaves(parts, log)
    ensures forall r :: r in log <==> InParts(parts, r)
    decreases |log|
  {
    if log != [] {
      var p :| 0 <= p < |parts| && parts[p] != [] && parts[p][0] == log[0] &&
          Interleaves(parts[p := parts[p][1..]], log[1..]);
      var rest: seq<seq<Rec>> := parts[p := parts[p][1..]];
      InterleavedRecords(rest, log[1..]);
      assert log == [log[0]] + log[1..] && parts[p] == [parts[p][0]] + rest[p];
      forall r ensures InParts(parts, r) <==> r == log[0] || InParts(rest, r) {
        if q :| 0 <= q < |parts| && r in parts[q] {
          assert q != p ==> r in rest[q];
        }
        if q :| 0 <= q < |rest| && r in rest[q] {
          assert r in parts[q];
        }
      }
    }
  }

  /** Main result: every interleaving of the partitions yields the same script table. */
  lemma ReplayConfluent(parts: seq<seq<Rec>>, home: string -> nat, a: seq<Rec>, b: seq<Rec>)
    requires Interleaves(parts, a) && Interleaves(parts, b) && Confined(parts, home)
    requires WellKeyed(a)
    ensures Replay(map[], a) == Replay(map[], b)
  {
    InterleavedRecords(parts, a);
    InterleavedRecords(parts, b);
    assert WellKeyed(b) by {
      forall i | 0 <= i < |b| && Accepted(b[i]) ensures b[i].value.script.configId == b[i].key {
        assert b[i] in b && InParts(parts, b[i]) && b[i] in a;
      }
    }
    forall key ensures Lookup(Replay(map[], a), key) == Lookup(Replay(map[], b), key) {
      ReplayByKey(map[], a, key);
      ReplayByKey(map[], b, key);
      InterleavedLast(parts, home, a, key);
      InterleavedLast(parts, home, b, key);
    }
    SameLookups(Replay(map[], a), Replay(map[], b));
  }

  /** A script published under a key other than its config id makes the table depend on the interleaving. */
  lemma MisKeyedDiverges(one: Script, two: Script)
    requires one.configId == two.configId == "a" && one.luaCode != "" && two.luaCode != "" && one != two
    ensures var r1, r2 := Rec("k", Config(one)), Rec("a", Config(two));
            Replay(map[], [r1, r2]) != Replay(map[], [r2, r1])
  {
    var r1, r2 := Rec("k", Config(one)), Rec("a", Config(two));
    assert [r1, r2][1..] == [r2] && [r2, r1][1..] == [r1] && [r1][1..] == [] && [r2][1..] == [];
    assert Replay(map[], [r1, r2]) == Replay(Loaded(Loaded(map[], r1), r2), []) == map["a" := two];
    assert Replay(map[], [r2, r1]) == Replay(Loaded(Loaded(map[], r2), r1), []) == map["a" := one];
    assert map["a" := one]["a"] != map["a" := two]["a"];
  }

  // ---------------------------------------------------------------- compaction

  /** The last record of the key, effective or not. */
  function Last(log: seq<Rec>, key: string): Option<Rec>
    decreases |log|
  {
    if log == [] then None
    else
      var later := Last(log[1..], key);
      if later.Some? then later else if log[0].key == key then Some(log[0]) else None
  }

  /** One record per key, the last one; only tombstones may be missing. */
  ghost predicate IsCompaction(log: seq<Rec>, c: seq<Rec>) {
    && (forall i :: 0 <= i < |c| ==> Last(log, c[i].key) == Some(c[i]))
    && (forall i, j :: 0 <= i < j < |c| ==> c[i].key != c[j].key)
    && (forall key :: Last(log, key).Some? && !Last(log, key).value.value.Tombstone? ==> Last(log, key).value in c)
  }

  lemma {:induction false} LastIsIn(log: seq<Rec>, key: string)
    ensures Last(log, key).Some? ==> Last(log, key).value in log && Last(log, key).value.key == key
    ensures LastEffective(log, key).Some? ==>
        LastEffective(log, key).value.key == key && Effective(LastEffective(log, key).value)
    ensures Last(log, key).Some? && Effective(Last(log, key).value) ==> LastEffective(log, key) == Last(log, key)
    ensures Last(log, key).None? ==> LastEffective(log, key).None?
    decreases |log|
  {
    if log != [] {
      LastIsIn(log[1..], key);
    }
  }

  lemma {:induction false} UniqueKeyLast(c: seq<Rec>, key: string)
    requires forall i, j :: 0 <= i < j < |c| ==> c[i].key != c[j].key
    ensures forall r :: r in c && r.key == key && Effective(r) ==> LastEffective(c, key) == Some(r)
    ensures LastEffective(c, key).Some? ==> LastEffective(c, key).value in c
    decreases |c|
  {
    if c != [] {
      UniqueKeyLast(c[1..], key);
      LastIsIn(c[1..], key);
      assert c == [c[0]] + c[1..];
      forall r | r in c[1..] ensures r.key != c[0].key {
        var i :| 0 <= i < |c[1..]| && c[1..][i] == r;
        assert c[i + 1] == r;
      }
    }
  }

  /** A rejected last record shadows nothing the table would hold. */
  ghost predicate NothingShadowed(log: seq<Rec>) {
    forall key :: Last(log, key).Some? && !Effective(Last(log, key).value) ==> Entry(LastEffective(log, key)).None?
  }

  lemma CompactedEntry(log: seq<Rec>, c: seq<Rec>, key: string)
    requires IsCompaction(log, c)
    ensures Entry(LastEffective(c, key)) ==
            if Last(log, key).Some? && Effective(Last(log, key).value) then Entry(Last(log, key)) else None
  {
    UniqueKeyLast(c, key);
    LastIsIn(log, key);
    LastIsIn(c, key);
  }

  /** Main result: replaying the compacted log gives the table of the full log, if and only if no key whose last record
      is malformed or incomplete had a script before it. */
  lemma CompactionExactIff(log: seq<Rec>, c: seq<Rec>)
    requires WellKeyed(log) && IsCompaction(log, c)
    ensures Replay(map[], c) == Replay(map[], log) <==> NothingShadowed(log)
  {
    forall i | 0 <= i < |c| ensures c[i] in log {
      LastIsIn(log, c[i].key);
    }
    forall key ensures Lookup(Replay(map[], c), key) == Entry(LastEffective(c, key))
               ensures Lookup(Replay(map[], log), key) == Entry(LastEffective(log, key)) {
      ReplayByKey(map[], c, key);
      ReplayByKey(map[], log, key);
    }
    forall key ensures Entry(LastEffective(c, key)) ==
                       if Last(log, key).Some? && Effective(Last(log, key).value)
                       then Entry(LastEffective(log, key)) else None {
      CompactedEntry(log, c, key);
      LastIsIn(log, key);
    }
    if NothingShadowed(log) {
      forall key ensures Lookup(Replay(map[], c), key) == Lookup(Replay(map[], log), key) {
        LastIsIn(log, key);
      }
      SameLookups(Replay(map[], c), Replay(map[], log));
    } else {
      var key :| Last(log, key).Some? && !Effective(Last(log, key).value) && Entry(LastEffective(log, key)).Some?;
      assert Lookup(Replay(map[], c), key) != Lookup(Replay(map[], log), key);
    }
  }
}
