/** The Redis sorted set that holds retry references: entries in order of score, then of member text. */
module SortedSet {
  datatype Entry = Entry(score: int, member: string)

  predicate LexLess(a: string, b: string) {
    b != [] && (a == [] || a[0] < b[0] || (a[0] == b[0] && LexLess(a[1..], b[1..])))
  }

  lemma {:induction false} LexTrichotomy(a: string, b: string)
    ensures LexLess(a, b) || a == b || LexLess(b, a)
    ensures !(LexLess(a, b) && LexLess(b, a)) && !LexLess(a, a)
  {
    if a != [] && b != [] && a[0] == b[0] {
      LexTrichotomy(a[1..], b[1..]);
      if a[1..] == b[1..] {
        assert a == [a[0]] + a[1..] == b;
      }
    }
    if a != [] {
      LexTrichotomy(a[1..], a[1..]);
    }
  }

  lemma {:induction false} LexTransitive(a: string, b: string, c: string)
    requires LexLess(a, b) && LexLess(b, c)
    ensures LexLess(a, c)
  {
    if a != [] && a[0] == b[0] == c[0] {
      LexTransitive(a[1..], b[1..], c[1..]);
    }
  }

  /** The texts agree up to `k`, where `a` ends or has the lesser character. */
  predicate DifferAt(a: string, b: string, k: int) {
    0 <= k <= |a| && k < |b| && a[..k] == b[..k] && (k == |a| || a[k] < b[k])
  }

  /** The order of texts: at the first place they differ the lesser character comes first, and a text comes before those
      it begins. */
  lemma {:induction false} LexLessMeans(a: string, b: string)
    ensures LexLess(a, b) <==> exists k :: DifferAt(a, b, k)
  {
    if a != [] && b != [] && a[0] == b[0] {
      var a', b' := a[1..], b[1..];
      LexLessMeans(a', b');
      if k :| DifferAt(a, b, k) {
        assert k > 0 && a'[..k - 1] == a[..k][1..] && b'[..k - 1] == b[..k][1..];
        assert DifferAt(a', b', k - 1);
      }
      if k :| DifferAt(a', b', k) {
        assert a[..k + 1] == [a[0]] + a'[..k] && b[..k + 1] == [b[0]] + b'[..k];
        assert DifferAt(a, b, k + 1);
      }
    } else if b != [] && (a == [] || a[0] < b[0]) {
      assert DifferAt(a, b, 0);
    } else if a != [] && b != [] {
      forall k ensures !DifferAt(a, b, k) {
        if 0 < k <= |a| && k < |b| {
          assert a[..k][0] == a[0] && b[..k][0] == b[0];
        }
      }
    }
  }

  predicate Before(a: Entry, b: Entry) {
    a.score < b.score || (a.score == b.score && LexLess(a.member, b.member))
  }

  ghost predicate Heads(e: Entry, z: seq<Entry>) {
    forall x :: x in z ==> Before(e, x) && e.member != x.member
  }

  /** In order, and no member twice. */
  ghost predicate Valid(z: seq<Entry>) {
    z == [] || (Heads(z[0], z[1..]) && Valid(z[1..]))
  }

  function Without(z: seq<Entry>, member: string): seq<Entry> {
    if z == [] then []
    else if z[0].member == member then Without(z[1..], member)
    else [z[0]] + Without(z[1..], member)
  }

  function Insert(z: seq<Entry>, e: Entry): seq<Entry> {
    if z == [] then [e]
    else if Before(e, z[0]) then [e] + z
    else [z[0]] + Insert(z[1..], e)
  }

  /** `ZADD`: insert the member, or move it to its new score. */
  function Added(z: seq<Entry>, member: string, score: int): seq<Entry> {
    Insert(Without(z, member), Entry(score, member))
  }

  /** The set as a map from member to score. */
  function Scores(z: seq<Entry>): map<string, int> {
    if z == [] then map[] else Scores(z[1..])[z[0].member := z[0].score]
  }

  lemma {:induction false} ScoresOf(z: seq<Entry>)
    requires Valid(z)
    ensures forall e :: e in z ==> e.member in Scores(z) && Scores(z)[e.member] == e.score
    ensures forall m :: m in Scores(z) ==> Entry(Scores(z)[m], m) in z
  {
    if z != [] {
      ScoresOf(z[1..]);
      assert z == [z[0]] + z[1..];
    }
  }

  lemma {:induction false} WithoutMembers(z: seq<Entry>, member: string)
    ensures forall e :: e in Without(z, member) <==> e in z && e.member != member
  {
    if z != [] {
      WithoutMembers(z[1..], member);
      assert z == [z[0]] + z[1..];
    }
  }

  lemma {:induction false} WithoutValid(z: seq<Entry>, member: string)
    requires Valid(z)
    ensures Valid(Without(z, member))
  {
    if z != [] {
      var rest := Without(z[1..], member);
      WithoutValid(z[1..], member);
      WithoutMembers(z[1..], member);
      if z[0].member != member {
        assert ([z[0]] + rest)[1..] == rest;
      }
    }
  }

  lemma {:induction false} WithoutScores(z: seq<Entry>, member: string)
    ensures Scores(Without(z, member)) == Scores(z) - {member}
  {
    if z != [] {
      var rest := Without(z[1..], member);
      WithoutScores(z[1..], member);
      if z[0].member != member {
        assert ([z[0]] + rest)[1..] == rest;
      }
    }
  }

  lemma WithoutCorrect(z: seq<Entry>, member: string)
    requires Valid(z)
    ensures Valid(Without(z, member))
    ensures Scores(Without(z, member)) == Scores(z) - {member}
  {
    WithoutValid(z, member);
    WithoutScores(z, member);
  }

  lemma {:induction false} InsertMembers(z: seq<Entry>, e: Entry)
    ensures forall x :: x in Insert(z, e) <==> x == e || x in z
  {
    if z != [] && !Before(e, z[0]) {
      InsertMembers(z[1..], e);
      assert z == [z[0]] + z[1..];
    }
  }

  lemma InsertFront(z: seq<Entry>, e: Entry)
    requires z != [] && Heads(z[0], z[1..]) && Before(e, z[0])
    requires forall x :: x in z ==> x.member != e.member
    ensures Heads(e, z)
  {
    assert z == [z[0]] + z[1..];
    forall x | x in z ensures Before(e, x) {
      if x != z[0] {
        BeforeTransitive(e, z[0], x);
      }
    }
  }

  lemma {:induction false} InsertValid(z: seq<Entry>, e: Entry)
    requires Valid(z) && forall x :: x in z ==> x.member != e.member
    ensures Valid(Insert(z, e))
  {
    if z == [] {
    } else if Before(e, z[0]) {
      InsertFront(z, e);
      assert ([e] + z)[1..] == z;
    } else {
      InsertValid(z[1..], e);
      InsertMembers(z[1..], e);
      LexTrichotomy(e.member, z[0].member);
      assert ([z[0]] + Insert(z[1..], e))[1..] == Insert(z[1..], e);
    }
  }

  lemma {:induction false} InsertScores(z: seq<Entry>, e: Entry)
    requires forall x :: x in z ==> x.member != e.member
    ensures Scores(Insert(z, e)) == Scores(z)[e.member := e.score]
  {
    if z == [] {
    } else if Before(e, z[0]) {
      assert ([e] + z)[1..] == z;
    } else {
      InsertScores(z[1..], e);
      assert ([z[0]] + Insert(z[1..], e))[1..] == Insert(z[1..], e);
    }
  }

  lemma BeforeTransitive(a: Entry, b: Entry, c: Entry)
    requires Before(a, b) && Before(b, c)
    ensures Before(a, c)
  {
    if a.score == b.score == c.score {
      LexTransitive(a.member, b.member, c.member);
    }
  }

  lemma AddedCorrect(z: seq<Entry>, member: string, score: int)
    requires Valid(z)
    ensures Valid(Added(z, member, score))
    ensures Scores(Added(z, member, score)) == Scores(z)[member := score]
  {
    WithoutCorrect(z, member);
    WithoutMembers(z, member);
    InsertValid(Without(z, member), Entry(score, member));
    InsertScores(Without(z, member), Entry(score, member));
    assert (Scores(z) - {member})[member := score] == Scores(z)[member := score];
  }

  // ---------------------------------------------------------------- due entries

  /** How many entries are due: those with a score of at most `now` come first. */
  function DueCount(z: seq<Entry>, now: int): (n: nat)
    ensures n <= |z|
    ensures forall i :: 0 <= i < n ==> z[i].score <= now
  {
    if z == [] || z[0].score > now then 0 else 1 + DueCount(z[1..], now)
  }

  lemma {:induction false} DueCountExact(z: seq<Entry>, now: int)
    requires Valid(z)
    ensures forall i :: 0 <= i < |z| ==> (z[i].score <= now <==> i < DueCount(z, now))
  {
    if z != [] && z[0].score <= now {
      DueCountExact(z[1..], now);
      forall i | 0 <= i < |z| ensures z[i].score <= now <==> i < DueCount(z, now) {
        if i > 0 {
          assert z[1..][i - 1] == z[i];
        }
      }
    }
  }

  /** How many entries one pop takes; a negative limit means no limit. */
  function TakeCount(z: seq<Entry>, now: int, limit: int): (n: nat)
    ensures n <= DueCount(z, now)
  {
    if limit < 0 || DueCount(z, now) <= limit then DueCount(z, now) else limit
  }

  function Members(z: seq<Entry>): (ms: seq<string>)
    ensures |ms| == |z| && forall i :: 0 <= i < |z| ==> ms[i] == z[i].member
  {
    if z == [] then [] else [z[0].member] + Members(z[1..])
  }

  /** `ZRANGEBYSCORE -inf now LIMIT 0 limit`. */
  function DueItems(z: seq<Entry>, now: int, limit: int): seq<string> {
    Members(z[..TakeCount(z, now, limit)])
  }
}
