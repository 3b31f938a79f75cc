/** Last-write-wins status writes, with the Lua script's comparison of timestamps as binary64 numbers. */
module StatusStores {
  import opened Domain

  datatype Status = Status(id: WebhookId, state: WebhookState, attempts: int, updatedAtNs: int)

  /** Binary64 numbers in [2^60, 2^61] are the multiples of 256 (section 3.4 of IEEE 754-2019: 53 significant bits). */
  const ULP := 256
  const LOW := 0x1000_0000_0000_0000
  const HIGH := 0x2000_0000_0000_0000

  predicate InBinade(ts: int) {
    LOW <= ts < HIGH
  }

  /** `tonumber`: round to nearest, ties to even (section 4.3.1 of IEEE 754-2019). */
  function Rounded(ts: int): int {
    var q, r := ts / ULP, ts % ULP;
    if 2 * r < ULP || (2 * r == ULP && q % 2 == 0) then q * ULP else (q + 1) * ULP
  }

  lemma RoundedIsNearest(ts: int)
    ensures Rounded(ts) % 256 == 0 && -128 <= Rounded(ts) - ts <= 128
    ensures ts % 256 == 128 ==> Rounded(ts) % 512 == 0
  {
  }

  /** So it is the one nearest multiple of 256, and of two equally near the one that is even in units of 256. */
  lemma RoundedIsTheNearest(ts: int, v: int)
    requires v % 256 == 0
    ensures -128 < v - ts < 128 ==> Rounded(ts) == v
    ensures (v - ts == 128 || v - ts == -128) && v % 512 == 0 ==> Rounded(ts) == v
  {
    RoundedIsNearest(ts);
  }

  /** The hash a status key holds: the data, and the rounded timestamp it was compared with. */
  datatype Cell = Cell(ts: int, status: Status)

  /** The Lua script on one key; a missing timestamp counts as zero. */
  function Merged(cell: Option<Cell>, status: Status): Option<Cell> {
    var stored := if cell.Some? then cell.value.ts else 0;
    if Rounded(status.updatedAtNs) > stored then Some(Cell(Rounded(status.updatedAtNs), status)) else cell
  }

  class StatusStore {
    var cells: map<WebhookId, Cell>

    constructor ()
      ensures cells == map[]
    {
      cells := map[];
    }

    function Get(id: WebhookId): Option<Cell>
      reads this
    {
      if id in cells then Some(cells[id]) else None
    }

    /** `SetStatus`: an unset timestamp becomes the current time. */
    method SetStatus(status: Status, now: int)
      modifies this
      ensures var s := if status.updatedAtNs == 0 then status.(updatedAtNs := now) else status;
              Get(status.id) == Merged(old(Get(status.id)), s)
      ensures forall id :: id != status.id ==> Get(id) == old(Get(id))
    {
      var s := status;
      if s.updatedAtNs == 0 {
        s := s.(updatedAtNs := now);
      }
      var oldTs := if s.id in cells then cells[s.id].ts else 0;
      if Rounded(s.updatedAtNs) > oldTs {
        cells := cells[s.id := Cell(Rounded(s.updatedAtNs), s)];
      }
    }
  }

  /** The writes to one key, in order. */
  function MergeAll(writes: seq<Status>): Option<Cell> {
    if writes == [] then None else Merged(MergeAll(writes[..|writes| - 1]), writes[|writes| - 1])
  }

  /** `k` is the first write among those with the greatest rounded timestamp. */
  ghost predicate FirstOfGreatest(writes: seq<Status>, k: nat) {
    && k < |writes|
    && (forall i :: 0 <= i < |writes| ==> Rounded(writes[i].updatedAtNs) <= Rounded(writes[k].updatedAtNs))
    && (forall i :: 0 <= i < k ==> Rounded(writes[i].updatedAtNs) < Rounded(writes[k].updatedAtNs))
  }

  /** Main result: what survives is the first write whose rounded timestamp is the greatest. */
  lemma {:induction false} SurvivorIsFirstGreatest(writes: seq<Status>) returns (k: nat)
    requires writes != [] && forall i :: 0 <= i < |writes| ==> InBinade(writes[i].updatedAtNs)
    ensures FirstOfGreatest(writes, k)
    ensures MergeAll(writes) == Some(Cell(Rounded(writes[k].updatedAtNs), writes[k]))
  {
    var front, last := writes[..|writes| - 1], writes[|writes| - 1];
    RoundedIsNearest(last.updatedAtNs);
    if front == [] {
      k := 0;
    } else {
      k := SurvivorIsFirstGreatest(front);
      OneMoreWrite(writes, k);
      k := if Rounded(last.updatedAtNs) > Rounded(front[k].updatedAtNs) then |front| else k;
    }
  }

  lemma OneMoreWrite(writes: seq<Status>, k: nat)
    requires writes != [] && FirstOfGreatest(writes[..|writes| - 1], k)
    ensures var n := |writes| - 1;
            FirstOfGreatest(writes, if Rounded(writes[n].updatedAtNs) > Rounded(writes[k].updatedAtNs) then n else k)
  {
    var n := |writes| - 1;
    assert forall i :: 0 <= i < n ==> writes[..n][i] == writes[i];
  }

  /** Main result: the surviving timestamp is at most 256 ns below the greatest one written. */
  lemma SurvivorWithin256(writes: seq<Status>, i: nat)
    requires i < |writes| && forall j :: 0 <= j < |writes| ==> InBinade(writes[j].updatedAtNs)
    ensures MergeAll(writes).Some? && writes[i].updatedAtNs <= MergeAll(writes).value.status.updatedAtNs + 256
  {
    var k := SurvivorIsFirstGreatest(writes);
    RoundedIsNearest(writes[i].updatedAtNs);
    RoundedIsNearest(writes[k].updatedAtNs);
  }

  /** The writes can be told apart by the comparison. */
  ghost predicate DistinctRounded(writes: seq<Status>) {
    forall i, j :: 0 <= i < j < |writes| ==> Rounded(writes[i].updatedAtNs) != Rounded(writes[j].updatedAtNs)
  }

  /** Main result: two orders of the same writes leave the same status when no two timestamps round to the same number;
      repeating a write changes nothing. */
  lemma MergeOrderIndependent(a: seq<Status>, b: seq<Status>)
    requires a != [] && b != []
    requires forall i :: 0 <= i < |a| ==> InBinade(a[i].updatedAtNs) && a[i] in b
    requires forall i :: 0 <= i < |b| ==> InBinade(b[i].updatedAtNs) && b[i] in a
    requires DistinctRounded(a)
    ensures MergeAll(a) == MergeAll(b)
  {
    var k := SurvivorIsFirstGreatest(a);
    var l := SurvivorIsFirstGreatest(b);
    var m :| 0 <= m < |a| && a[m] == b[l];
    var n :| 0 <= n < |b| && b[n] == a[k];
    assert Rounded(a[m].updatedAtNs) == Rounded(a[k].updatedAtNs);
    assert m == k;
  }

  /** Main result: for two writes of different statuses, the order matters exactly when their timestamps round to the
      same number; distinct nanosecond timestamps are not enough. */
  lemma OrderMattersIff(x: Status, y: Status)
    requires InBinade(x.updatedAtNs) && InBinade(y.updatedAtNs) && x != y
    ensures MergeAll([x, y]) != MergeAll([y, x]) <==> Rounded(x.updatedAtNs) == Rounded(y.updatedAtNs)
  {
    RoundedIsNearest(x.updatedAtNs);
    RoundedIsNearest(y.updatedAtNs);
    assert [x, y][..1] == [x] && [y, x][..1] == [y] && [x][..0] == [] && [y][..0] == [];
    assert MergeAll([x]) == Merged(None, x) && MergeAll([y]) == Merged(None, y);
  }

  /** A missing timestamp counts as zero, so a first write is kept exactly when its timestamp does not round to it. */
  lemma FirstWriteKept(x: Status)
    ensures MergeAll([x]).Some? <==> 128 < x.updatedAtNs
    ensures MergeAll([x]).Some? ==> MergeAll([x]).value.status == x
  {
    assert [x][..0] == [];
  }

  /** A later write by one nanosecond that is ignored. */
  lemma LaterWriteIgnored(x: Status)
    requires x.updatedAtNs == 0x17b0_0000_0000_0000
    ensures var y := x.(state := StateDelivered, updatedAtNs := x.updatedAtNs + 1);
            InBinade(x.updatedAtNs) && InBinade(y.updatedAtNs) && MergeAll([x, y]).value.status == x
  {
    assert [x, x.(state := StateDelivered, updatedAtNs := x.updatedAtNs + 1)][..1] == [x] && [x][..0] == [];
    assert MergeAll([x]) == Merged(None, x);
  }
}
