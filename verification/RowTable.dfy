/** The row table of a disk-backed list, keyed by position, and its position updates.

  SQLite checks the primary key row by row while an UPDATE runs, in an order of its own.
  `Rekey` is such an UPDATE; it may only be used when no single row update can collide. */
module RowTable {
  import opened Spool
  import opened StableSort

  type Table = map<int, Row>

  ghost predicate Shaped(t: Table, n: nat) {
    forall k :: k in t <==> 0 <= k < n
  }

  function RowsOf(t: Table, n: nat): (rows: seq<Row>)
    requires forall k | 0 <= k < n :: k in t
    ensures |rows| == n
  {
    seq(n, i requires 0 <= i < n => t[i])
  }

  /** The position updates the list issues, each one SQL statement. */
  datatype Move =
    | NegateAbove(p: int)        // position = -position      where position > p
    | LowerNegatives             // position = -position - 1  where position < 0
    | LowerFrom(p: int)          // position = -position - 1  where position >= p
    | NegateNegatives            // position = -position      where position < 0
    | Place(from: int, to: int)  // position = to             where position = from

  predicate Selected(mv: Move, k: int) {
    match mv
    case NegateAbove(p) => k > p
    case LowerNegatives => k < 0
    case LowerFrom(p) => k >= p
    case NegateNegatives => k < 0
    case Place(from, _) => k == from
  }

  function Target(mv: Move, k: int): int {
    match mv
    case NegateAbove(_) => -k
    case LowerNegatives => -k - 1
    case LowerFrom(_) => -k - 1
    case NegateNegatives => -k
    case Place(_, to) => to
  }

  function Moved(mv: Move, k: int): int {
    if Selected(mv, k) then Target(mv, k) else k
  }

  /** No update can hit a key that is taken, whatever rows were moved before it. */
  ghost predicate Collisionless(keys: set<int>, mv: Move) {
    && (forall k | k in keys && Selected(mv, k) :: Target(mv, k) !in keys)
    && (forall j, k | j in keys && k in keys && Selected(mv, j) && Selected(mv, k) && j != k ::
          Target(mv, j) != Target(mv, k))
  }

  /** In any order of single row updates: with the rows `done` moved already, the next one lands
      on a free key. */
  lemma NoRowUpdateCollides(keys: set<int>, mv: Move, done: set<int>, k: int)
    requires Collisionless(keys, mv)
    requires done <= keys && (forall d <- done :: Selected(mv, d))
    requires k in keys && Selected(mv, k) && k !in done
    ensures Target(mv, k) !in (keys - done) + (set d | d in done :: Target(mv, d))
  {}

  function Rekey(t: Table, mv: Move): (r: Table)
    requires Collisionless(t.Keys, mv)
  {
    map k | k in t :: Moved(mv, k) := t[k]
  }

  lemma RekeyRow(t: Table, mv: Move, k: int)
    requires Collisionless(t.Keys, mv) && k in t
    ensures Moved(mv, k) in Rekey(t, mv) && Rekey(t, mv)[Moved(mv, k)] == t[k]
  {}

  lemma RekeySource(t: Table, mv: Move, m: int) returns (k: int)
    requires Collisionless(t.Keys, mv) && m in Rekey(t, mv)
    ensures k in t && Moved(mv, k) == m
  {
    k :| k in t && Moved(mv, k) == m;
  }

  // ---------- closing and opening a gap ----------

  lemma RowsOfClosed(t: Table, n: nat, p: nat, r: Table)
    requires Shaped(t, n) && p < n
    requires forall i | 0 <= i < n - 1 :: i in r && r[i] == t[if i < p then i else i + 1]
    requires forall m | m in r :: 0 <= m < n - 1
    ensures Shaped(r, n - 1) && RowsOf(r, n - 1) == RowsOf(t, n)[..p] + RowsOf(t, n)[p + 1..]
  {}

  lemma RowsOfOpened(t: Table, n: nat, p: nat, row: Row, r: Table)
    requires Shaped(t, n) && p <= n
    requires forall i | 0 <= i <= n && i != p :: i in r && r[i] == t[if i < p then i else i - 1]
    requires p in r && r[p] == row && forall m | m in r :: 0 <= m <= n
    ensures Shaped(r, n + 1) && RowsOf(r, n + 1) == RowsOf(t, n)[..p] + [row] + RowsOf(t, n)[p..]
  {}

  lemma LiftAbove(t: Table, n: nat, p: nat)
    requires Shaped(t, n) && p < n
    ensures Collisionless((t - {p}).Keys, NegateAbove(p))
    ensures Collisionless(Rekey(t - {p}, NegateAbove(p)).Keys, LowerNegatives)
    ensures forall m | m in Rekey(t - {p}, NegateAbove(p)) :: 0 < m + n && m < p && (m < 0 ==> m + p < 0)
  {
    var t0 := t - {p};
    forall m | m in Rekey(t0, NegateAbove(p)) ensures 0 < m + n && m < p && (m < 0 ==> m + p < 0) {
      var k := RekeySource(t0, NegateAbove(p), m);
    }
  }

  lemma CloseGapRow(t: Table, n: nat, p: nat, i: nat)
    requires Shaped(t, n) && p < n && i < n - 1
    requires Collisionless((t - {p}).Keys, NegateAbove(p))
    requires Collisionless(Rekey(t - {p}, NegateAbove(p)).Keys, LowerNegatives)
    ensures var r := Rekey(Rekey(t - {p}, NegateAbove(p)), LowerNegatives);
            i in r && r[i] == t[if i < p then i else i + 1]
  {
    var k := if i < p then i else i + 1;
    RekeyRow(t - {p}, NegateAbove(p), k);
    RekeyRow(Rekey(t - {p}, NegateAbove(p)), LowerNegatives, Moved(NegateAbove(p), k));
  }

  /** Delete: every row above the gap goes to its negative, then comes back one lower. */
  lemma CloseGap(t: Table, n: nat, p: nat)
    requires Shaped(t, n) && p < n
    ensures Collisionless((t - {p}).Keys, NegateAbove(p))
    ensures var t1 := Rekey(t - {p}, NegateAbove(p));
            && Collisionless(t1.Keys, LowerNegatives)
            && Shaped(Rekey(t1, LowerNegatives), n - 1)
            && RowsOf(Rekey(t1, LowerNegatives), n - 1) == RowsOf(t, n)[..p] + RowsOf(t, n)[p + 1..]
  {
    hide Rekey, RowsOf;
    LiftAbove(t, n, p);
    var t1 := Rekey(t - {p}, NegateAbove(p));
    var t2 := Rekey(t1, LowerNegatives);
    forall i | 0 <= i < n - 1 ensures i in t2 && t2[i] == t[if i < p then i else i + 1] {
      CloseGapRow(t, n, p, i);
    }
    forall m | m in t2 ensures 0 <= m < n - 1 {
      var m1 := RekeySource(t1, LowerNegatives, m);
    }
    RowsOfClosed(t, n, p, t2);
  }

  lemma LiftFrom(t: Table, n: nat, p: nat)
    requires Shaped(t, n) && p <= n
    ensures Collisionless(t.Keys, LowerFrom(p))
    ensures Collisionless(Rekey(t, LowerFrom(p)).Keys, NegateNegatives)
    ensures forall m | m in Rekey(t, LowerFrom(p)) :: 0 <= m + n && m < p && (m < 0 ==> m + p < 0)
  {
    forall m | m in Rekey(t, LowerFrom(p)) ensures 0 <= m + n && m < p && (m < 0 ==> m + p < 0) {
      var k := RekeySource(t, LowerFrom(p), m);
    }
  }

  lemma OpenGapRow(t: Table, n: nat, p: nat, i: nat)
    requires Shaped(t, n) && p <= n && i <= n && i != p
    requires Collisionless(t.Keys, LowerFrom(p))
    requires Collisionless(Rekey(t, LowerFrom(p)).Keys, NegateNegatives)
    ensures var r := Rekey(Rekey(t, LowerFrom(p)), NegateNegatives);
            i in r && r[i] == t[if i < p then i else i - 1]
  {
    var k := if i < p then i else i - 1;
    RekeyRow(t, LowerFrom(p), k);
    RekeyRow(Rekey(t, LowerFrom(p)), NegateNegatives, Moved(LowerFrom(p), k));
  }

  /** Insert: every row at or above the place goes negative, then comes back one higher. */
  lemma OpenGap(t: Table, n: nat, p: nat, row: Row)
    requires Shaped(t, n) && p <= n
    ensures Collisionless(t.Keys, LowerFrom(p))
    ensures var t1 := Rekey(t, LowerFrom(p));
            && Collisionless(t1.Keys, NegateNegatives)
            && p !in Rekey(t1, NegateNegatives)
            && var r := Rekey(t1, NegateNegatives)[p := row];
               && Shaped(r, n + 1)
               && RowsOf(r, n + 1) == RowsOf(t, n)[..p] + [row] + RowsOf(t, n)[p..]
  {
    LiftFrom(t, n, p);
    var t1 := Rekey(t, LowerFrom(p));
    var t2 := Rekey(t1, NegateNegatives);
    forall i | 0 <= i <= n && i != p ensures i in t2 && t2[i] == t[if i < p then i else i - 1] {
      OpenGapRow(t, n, p, i);
    }
    forall m | m in t2 ensures 0 <= m <= n && m != p {
      var m1 := RekeySource(t1, NegateNegatives, m);
    }
    RowsOfOpened(t, n, p, row, t2[p := row]);
  }

  // ---------- reordering ----------

  function Below(p: int): int { -p - 1 }

  /** The table part way through a sort: k rows are placed, the others wait below zero. */
  ghost predicate PartSorted(t: Table, rows: seq<Row>, order: seq<nat>, k: nat)
    requires k <= |order| && forall i | 0 <= i < |order| :: order[i] < |rows|
  {
    && (forall m | m in t && m >= 0 :: m < k)
    && (forall m | 0 <= m < k :: m in t && t[m] == rows[order[m]])
    && (forall i | k <= i < |order| :: Below(order[i]) in t && t[Below(order[i])] == rows[order[i]])
    && (forall m | m in t && m < 0 :: exists i :: k <= i < |order| && Below(order[i]) == m)
  }

  /** The first statement of a sort parks every row below zero. */
  lemma ParkRows(t: Table, rows: seq<Row>, order: seq<nat>)
    requires Shaped(t, |rows|) && rows == RowsOf(t, |rows|) && Permutation(order, |rows|)
    ensures Collisionless(t.Keys, LowerFrom(0))
    ensures PartSorted(Rekey(t, LowerFrom(0)), rows, order, 0)
  {
    var t1 := Rekey(t, LowerFrom(0));
    forall i | 0 <= i < |order|
      ensures Below(order[i]) in t1 && t1[Below(order[i])] == rows[order[i]]
    {
      RekeyRow(t, LowerFrom(0), order[i]);
    }
    forall m | m in t1 ensures m < 0 && exists i :: 0 <= i < |order| && Below(order[i]) == m {
      var k := RekeySource(t, LowerFrom(0), m);
      var i := PlaceOf(order, |rows|, k);
      assert Below(order[i]) == m;
    }
  }

  lemma PlaceRow(t: Table, rows: seq<Row>, order: seq<nat>, k: nat)
    requires Permutation(order, |rows|) && k < |rows| && PartSorted(t, rows, order, k)
    ensures var mv := Place(Below(order[k]), k);
            Collisionless(t.Keys, mv) && PartSorted(Rekey(t, mv), rows, order, k + 1)
  {
    PlacedRows(t, rows, order, k);
    PlacedKeys(t, rows, order, k);
    hide Permutation, Rekey;
  }

  /** After the move rows up to k are in place, and the later ones still parked. */
  lemma PlacedRows(t: Table, rows: seq<Row>, order: seq<nat>, k: nat)
    requires Permutation(order, |rows|) && k < |rows| && PartSorted(t, rows, order, k)
    ensures var t1 := Rekey(t, Place(Below(order[k]), k));
            && Collisionless(t.Keys, Place(Below(order[k]), k))
            && (forall m | 0 <= m <= k :: m in t1 && t1[m] == rows[order[m]])
            && forall i | k + 1 <= i < |order| :: Below(order[i]) in t1 && t1[Below(order[i])] == rows[order[i]]
  {
    hide Rekey;
    var mv := Place(Below(order[k]), k);
    RekeyRow(t, mv, Below(order[k]));
    forall m | 0 <= m < k ensures m in Rekey(t, mv) && Rekey(t, mv)[m] == rows[order[m]] {
      RekeyRow(t, mv, m);
    }
    forall i | k + 1 <= i < |order|
      ensures Below(order[i]) in Rekey(t, mv) && Rekey(t, mv)[Below(order[i])] == rows[order[i]]
    {
      assert order[i] != order[k];
      RekeyRow(t, mv, Below(order[i]));
    }
  }

  lemma PlacedKeys(t: Table, rows: seq<Row>, order: seq<nat>, k: nat)
    requires Permutation(order, |rows|) && k < |rows| && PartSorted(t, rows, order, k)
    ensures forall m | m in Rekey(t, Place(Below(order[k]), k)) ::
              m < k + 1 && (m < 0 ==> exists i :: k + 1 <= i < |order| && Below(order[i]) == m)
  {
    var mv := Place(Below(order[k]), k);
    forall m | m in Rekey(t, mv)
      ensures m < k + 1 && (m < 0 ==> exists i :: k + 1 <= i < |order| && Below(order[i]) == m)
    {
      var m0 := RekeySource(t, mv, m);
      if m < 0 {
        var i :| k <= i < |order| && Below(order[i]) == m0;
        assert i != k;
      }
    }
  }

  lemma AllPlaced(t: Table, rows: seq<Row>, order: seq<nat>)
    requires Permutation(order, |rows|) && PartSorted(t, rows, order, |rows|)
    ensures Shaped(t, |rows|) && RowsOf(t, |rows|) == Pick(rows, order)
  {}
}
