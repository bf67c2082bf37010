/** The state of a disk-backed list, as a value, and what each of its operations does to it.

  Rows are kept in position order; one record is live in memory and may have been edited since
  its row was written.  `View` is the plain list the caller sees. */
module Spool {
  import opened ChunkTree

  type Record(!new)
  type Payload(==) = string

  /** dumps and loads of one record, and its weight (absent when the list has no weigher). */
  datatype Codec = Codec(dumps: Record -> Payload, loads: Payload -> Record, weigh: Option<Record -> int>)
  {
    /** A record read back from its payload is the record that was written. */
    ghost predicate Lossless() {
      forall r: Record :: loads(dumps(r)) == r
    }

    function Weight(r: Record): int {
      match weigh case Some(w) => w(r) case None => 0
    }
  }

  datatype Row = Row(payload: Payload, weight: int, revision: nat)

  datatype Live = Live(position: nat, value: Record, payload: Payload, weight: int)

  datatype State = State(rows: seq<Row>, live: Option<Live>, total: int, generation: nat, revision: nat)
  {
    /** The list a caller sees: the live record where there is one, stored rows elsewhere. */
    function View(c: Codec): seq<Record> {
      seq(|rows|, i requires 0 <= i < |rows| =>
        if live.Some? && live.value.position == i then live.value.value else c.loads(rows[i].payload))
    }
  }

  function Weights(rows: seq<Row>): int {
    if rows == [] then 0 else Weights(rows[..|rows| - 1]) + rows[|rows| - 1].weight
  }

  /** What the weigher says of every record, added up. */
  function WeightOf(c: Codec, view: seq<Record>): int {
    if view == [] || c.weigh.None? then 0 else WeightOf(c, view[..|view| - 1]) + c.weigh.value(view[|view| - 1])
  }

  ghost predicate Stored(c: Codec, row: Row) {
    row.weight == c.Weight(c.loads(row.payload))
  }

  ghost predicate Inv(c: Codec, s: State) {
    && c.Lossless()
    && (s.live.Some? ==>
          var l := s.live.value;
          && l.position < |s.rows|
          && s.rows[l.position].payload == l.payload && s.rows[l.position].weight == l.weight
          && (c.weigh.None? ==> l.weight == 0))
    && (forall i | 0 <= i < |s.rows| :: s.rows[i].revision <= s.revision)
    && (forall i | 0 <= i < |s.rows| ::
          (s.live.Some? && s.live.value.position == i) || Stored(c, s.rows[i]))
    && s.total == Weights(s.rows)
  }

  // ---------- the operations ----------

  /** Bring the stored weight of the live record up to date. */
  function Sync(c: Codec, s: State): (t: State)
    ensures |t.rows| == |s.rows|
  {
    if s.live.None? || c.weigh.None? || s.live.value.position >= |s.rows| then s
    else
      var l := s.live.value;
      var w := c.Weight(l.value);
      if w == l.weight then s
      else s.(rows := s.rows[l.position := s.rows[l.position].(weight := w)],
              total := s.total + w - l.weight,
              live := Some(l.(weight := w)))
  }

  /** Write the live record back if it was edited; an edit gets a new revision. */
  function Flush(c: Codec, s: State): (t: State)
    ensures |t.rows| == |s.rows|
  {
    WriteBack(c, Sync(c, s))
  }

  function WriteBack(c: Codec, t: State): (r: State)
    ensures |r.rows| == |t.rows|
  {
    if t.live.None? || t.live.value.position >= |t.rows| then t
    else
      var l := t.live.value;
      var p := c.dumps(l.value);
      if p == l.payload then t
      else
        var row := t.rows[l.position];
        t.(revision := t.revision + 1,
           rows := t.rows[l.position := row.(payload := p, revision := t.revision + 1)],
           live := Some(l.(payload := p)))
  }

  function Get(c: Codec, s: State, i: nat): State
    requires i < |s.rows|
  {
    if s.live.Some? && s.live.value.position == i then s
    else
      var t := Flush(c, s);
      var row := t.rows[i];
      t.(live := Some(Live(i, c.loads(row.payload), row.payload, row.weight)))
  }

  function Set(c: Codec, s: State, i: nat, v: Record): State
    requires i < |s.rows|
  {
    var t := Flush(c, s);
    var row := Row(c.dumps(v), c.Weight(v), t.revision + 1);
    t.(revision := t.revision + 1,
       rows := t.rows[i := row],
       total := t.total + row.weight - t.rows[i].weight,
       live := Some(Live(i, v, row.payload, row.weight)))
  }

  function Delete(c: Codec, s: State, i: nat): State
    requires i < |s.rows|
  {
    DropRow(Flush(c, s), i)
  }

  function DropRow(t: State, i: nat): State
    requires i < |t.rows|
  {
    t.(live := None,
       rows := t.rows[..i] + t.rows[i + 1..],
       generation := t.generation + 1,
       total := t.total - t.rows[i].weight)
  }

  function Insert(c: Codec, s: State, i: nat, v: Record): State
    requires i <= |s.rows|
  {
    AddRow(c, Flush(c, s), i, v)
  }

  function AddRow(c: Codec, t: State, i: nat, v: Record): State
    requires i <= |t.rows|
  {
    var row := Row(c.dumps(v), c.Weight(v), t.revision + 1);
    t.(revision := t.revision + 1,
       generation := if i < |t.rows| then t.generation + 1 else t.generation,
       rows := t.rows[..i] + [row] + t.rows[i..],
       total := t.total + row.weight,
       live := Some(Live(i, v, row.payload, row.weight)))
  }

  function Clear(s: State): State {
    s.(live := None, rows := [], generation := s.generation + 1, total := 0)
  }

  /** Load the first n records one after the other, as computing a sort key for each does. */
  function Touch(c: Codec, s: State, n: nat): (t: State)
    requires n <= |s.rows|
    ensures |t.rows| == |s.rows|
  {
    if n == 0 then s else Get(c, Touch(c, s, n - 1), n - 1)
  }

  function Rearrange(c: Codec, s: State, order: seq<nat>): State
    requires |order| == |s.rows| && forall k | 0 <= k < |order| :: order[k] < |s.rows|
  {
    ReorderRows(Flush(c, Touch(c, s, |s.rows|)), order)
  }

  /** Row k becomes the one that stood at order[k]. */
  function ReorderRows(t: State, order: seq<nat>): State
    requires |order| == |t.rows| && forall k | 0 <= k < |order| :: order[k] < |t.rows|
  {
    t.(live := None,
       generation := t.generation + 1,
       rows := seq(|order|, k requires 0 <= k < |order| => t.rows[order[k]]))
  }

  /** The caller edits the live record it was handed. */
  function Edit(s: State, v: Record): State
    requires s.live.Some?
  {
    s.(live := Some(s.live.value.(value := v)))
  }

  // ---------- sums of weights ----------

  lemma {:induction false} WeightsJoin(a: seq<Row>, b: seq<Row>)
    ensures Weights(a + b) == Weights(a) + Weights(b)
    decreases |b|
  {
    if b == [] {
      assert a + b == a;
    } else {
      assert (a + b)[..|a + b| - 1] == a + b[..|b| - 1];
      WeightsJoin(a, b[..|b| - 1]);
    }
  }

  lemma WeightsAround(a: seq<Row>, row: Row, b: seq<Row>)
    ensures Weights(a + [row] + b) == Weights(a + b) + row.weight
  {
    WeightsJoin(a + [row], b);
    WeightsJoin(a, [row]);
    WeightsJoin(a, b);
    assert Weights([row]) == row.weight;
  }

  lemma WeightsUpdate(rows: seq<Row>, i: nat, row: Row)
    requires i < |rows|
    ensures Weights(rows[i := row]) == Weights(rows) + row.weight - rows[i].weight
  {
    assert rows == rows[..i] + [rows[i]] + rows[i + 1..];
    assert rows[i := row] == rows[..i] + [row] + rows[i + 1..];
    WeightsAround(rows[..i], rows[i], rows[i + 1..]);
    WeightsAround(rows[..i], row, rows[i + 1..]);
  }

  // ---------- flushing ----------

  /** Row by row, the stored rows hold the records of a list. */
  ghost predicate Holds(c: Codec, rows: seq<Row>, view: seq<Record>, revision: nat) {
    && |rows| == |view|
    && forall k | 0 <= k < |rows| ::
         && c.loads(rows[k].payload) == view[k] && Stored(c, rows[k])
         && rows[k].revision <= revision
  }

  /** A row gets a new revision exactly when its payload is another. */
  predicate Rewritten(row: Row, row': Row, revision: nat) {
    if row'.payload == row.payload then row'.revision == row.revision else row'.revision > revision
  }

  lemma SyncKeeps(c: Codec, s: State)
    requires Inv(c, s)
    ensures var t := Sync(c, s);
            && Inv(c, t) && t.View(c) == s.View(c)
            && (t.live.Some? ==> t.live.value.weight == c.Weight(s.live.value.value))
  {
    if s.live.Some? {
      var l := s.live.value;
      WeightsUpdate(s.rows, l.position, s.rows[l.position].(weight := c.Weight(l.value)));
    }
  }

  /** Weighing the live record touches neither payloads nor revisions. */
  lemma SyncChangesWeights(c: Codec, s: State)
    ensures var t := Sync(c, s);
            && t.generation == s.generation && t.revision == s.revision
            && (t.live.Some? <==> s.live.Some?)
            && (t.live.Some? ==> t.live.value.(weight := s.live.value.weight) == s.live.value)
            && forall i | 0 <= i < |s.rows| :: t.rows[i].(weight := s.rows[i].weight) == s.rows[i]
  {}

  /** A payload that changed goes into its row with a new revision. */
  lemma WriteBackKeeps(c: Codec, t: State)
    requires Inv(c, t) && (t.live.Some? ==> t.live.value.weight == c.Weight(t.live.value.value))
    ensures var r := WriteBack(c, t);
            && Inv(c, r) && Holds(c, r.rows, r.View(c), r.revision) && r.View(c) == t.View(c)
            && r.generation == t.generation && r.revision >= t.revision
            && (forall i | 0 <= i < |t.rows| :: Rewritten(t.rows[i], r.rows[i], t.revision))
            && (forall i | 0 <= i < |t.rows| :: r.rows[i].revision >= t.rows[i].revision)
            && (r.revision == t.revision <==> forall i | 0 <= i < |t.rows| :: r.rows[i].payload == t.rows[i].payload)
  {
    hide Weights;
    if t.live.Some? {
      var l := t.live.value;
      WeightsUpdate(t.rows, l.position,
                    t.rows[l.position].(payload := c.dumps(l.value), revision := t.revision + 1));
    }
  }

  lemma FlushKeeps(c: Codec, s: State)
    requires Inv(c, s)
    ensures var t := Flush(c, s);
            && Inv(c, t) && Holds(c, t.rows, t.View(c), t.revision) && t.View(c) == s.View(c)
            && t.generation == s.generation && t.revision >= s.revision
            && (forall i | 0 <= i < |s.rows| :: Rewritten(s.rows[i], t.rows[i], s.revision))
            && (forall i | 0 <= i < |s.rows| :: t.rows[i].revision >= s.rows[i].revision)
            && (t.revision == s.revision <==> forall i | 0 <= i < |s.rows| :: t.rows[i].payload == s.rows[i].payload)
  {
    SyncKeeps(c, s);
    SyncChangesWeights(c, s);
    WriteBackKeeps(c, Sync(c, s));
    hide Sync, WriteBack, Weights, Holds, State.View, Inv;
  }

  /** The weight total, once the live record is brought up to date, is the sum over the list. */
  lemma TotalIsSum(c: Codec, s: State)
    requires Inv(c, s)
    ensures Sync(c, s).total == WeightOf(c, s.View(c))
  {
    SyncKeeps(c, s);
    var t := Sync(c, s);
    forall i | 0 <= i < |t.rows|
      ensures t.rows[i].weight == c.Weight(t.View(c)[i])
    {
      assert (t.live.Some? && t.live.value.position == i) || Stored(c, t.rows[i]);
    }
    WeightsAreViewWeights(c, t.rows, t.View(c));
  }

  lemma {:induction false} WeightsAreViewWeights(c: Codec, rows: seq<Row>, view: seq<Record>)
    requires |rows| == |view| && forall i | 0 <= i < |rows| :: rows[i].weight == c.Weight(view[i])
    ensures Weights(rows) == WeightOf(c, view)
  {
    if rows != [] { WeightsAreViewWeights(c, rows[..|rows| - 1], view[..|view| - 1]); }
  }

  // ---------- each operation is the plain list operation ----------

  /** The record at the position is the live one, so that editing it in place edits the list. */
  ghost predicate Holding(s: State, i: nat, v: Record) {
    s.live.Some? && s.live.value.position == i && s.live.value.value == v
  }

  lemma GetIsRead(c: Codec, s: State, i: nat)
    requires Inv(c, s) && i < |s.rows|
    ensures var t := Get(c, s, i);
            && Inv(c, t) && t.View(c) == s.View(c)
            && t.live.Some? && t.live.value.position == i && t.live.value.value == s.View(c)[i]
  {
    FlushKeeps(c, s);
    assert Stored(c, Flush(c, s).rows[i]);
  }

  lemma SetIsAssign(c: Codec, s: State, i: nat, v: Record)
    requires Inv(c, s) && i < |s.rows|
    ensures Inv(c, Set(c, s, i, v)) && Set(c, s, i, v).View(c) == s.View(c)[i := v]
    ensures Holding(Set(c, s, i, v), i, v)
  {
    hide Flush, Weights;
    FlushKeeps(c, s);
    var t := Flush(c, s);
    WeightsUpdate(t.rows, i, Row(c.dumps(v), c.Weight(v), t.revision + 1));
  }

  lemma HoldsJoin(c: Codec, a: seq<Row>, b: seq<Row>, va: seq<Record>, vb: seq<Record>, revision: nat)
    requires Holds(c, a, va, revision) && Holds(c, b, vb, revision)
    ensures Holds(c, a + b, va + vb, revision)
  {}

  lemma HoldsCut(c: Codec, rows: seq<Row>, view: seq<Record>, revision: nat, i: nat)
    requires Holds(c, rows, view, revision) && i <= |rows|
    ensures Holds(c, rows[..i], view[..i], revision) && Holds(c, rows[i..], view[i..], revision)
  {}

  /** A state with no live record is sound when its rows are, and then it shows what they hold. */
  lemma RowsAlone(c: Codec, t: State, view: seq<Record>)
    requires c.Lossless() && t.live.None? && t.total == Weights(t.rows)
    requires Holds(c, t.rows, view, t.revision)
    ensures Inv(c, t) && t.View(c) == view
  {}

  lemma DropRowIsRemove(c: Codec, t: State, i: nat)
    requires Inv(c, t) && Holds(c, t.rows, t.View(c), t.revision) && i < |t.rows|
    ensures Inv(c, DropRow(t, i))
    ensures DropRow(t, i).View(c) == t.View(c)[..i] + t.View(c)[i + 1..]
  {
    var view := t.View(c);
    WeightsAround(t.rows[..i], t.rows[i], t.rows[i + 1..]);
    assert t.rows == t.rows[..i] + [t.rows[i]] + t.rows[i + 1..];
    HoldsCut(c, t.rows, view, t.revision, i);
    HoldsCut(c, t.rows, view, t.revision, i + 1);
    HoldsJoin(c, t.rows[..i], t.rows[i + 1..], view[..i], view[i + 1..], t.revision);
    RowsAlone(c, DropRow(t, i), view[..i] + view[i + 1..]);
  }

  lemma RowsWithNew(c: Codec, rows: seq<Row>, view: seq<Record>, revision: nat, i: nat, row: Row, v: Record)
    requires Holds(c, rows, view, revision) && i <= |rows|
    requires Holds(c, [row], [v], revision + 1)
    ensures Holds(c, rows[..i] + [row] + rows[i..], view[..i] + [v] + view[i..], revision + 1)
    ensures Weights(rows[..i] + [row] + rows[i..]) == Weights(rows) + row.weight
  {
    WeightsAround(rows[..i], row, rows[i..]);
    assert rows == rows[..i] + rows[i..];
    HoldsCut(c, rows, view, revision, i);
    HoldsJoin(c, rows[..i], [row], view[..i], [v], revision + 1);
    HoldsJoin(c, rows[..i] + [row], rows[i..], view[..i] + [v], view[i..], revision + 1);
  }

  lemma AddRowIsInsert(c: Codec, t: State, i: nat, v: Record)
    requires Inv(c, t) && Holds(c, t.rows, t.View(c), t.revision) && i <= |t.rows|
    ensures Inv(c, AddRow(c, t, i, v))
    ensures AddRow(c, t, i, v).View(c) == t.View(c)[..i] + [v] + t.View(c)[i..]
  {
    var t', view := AddRow(c, t, i, v), t.View(c);
    var row := Row(c.dumps(v), c.Weight(v), t.revision + 1);
    RowsWithNew(c, t.rows, view, t.revision, i, row, v);
    RowsAlone(c, t'.(live := None), view[..i] + [v] + view[i..]);
    assert t'.rows[i] == row;
    LiveOnTop(c, t', i, v);
  }

  lemma DeleteIsRemove(c: Codec, s: State, i: nat)
    requires Inv(c, s) && i < |s.rows|
    ensures Inv(c, Delete(c, s, i))
    ensures Delete(c, s, i).View(c) == s.View(c)[..i] + s.View(c)[i + 1..]
    ensures Delete(c, s, i).generation == s.generation + 1
  {
    FlushKeeps(c, s);
    DropRowIsRemove(c, Flush(c, s), i);
  }

  lemma InsertIsInsert(c: Codec, s: State, i: nat, v: Record)
    requires Inv(c, s) && i <= |s.rows|
    ensures Inv(c, Insert(c, s, i, v))
    ensures Insert(c, s, i, v).View(c) == s.View(c)[..i] + [v] + s.View(c)[i..]
    ensures Insert(c, s, i, v).generation == (if i < |s.rows| then s.generation + 1 else s.generation)
    ensures Holding(Insert(c, s, i, v), i, v)
  {
    FlushKeeps(c, s);
    AddRowIsInsert(c, Flush(c, s), i, v);
  }

  /** Holding in memory the very record a row stores changes nothing the caller sees. */
  lemma LiveOnTop(c: Codec, t: State, i: nat, v: Record)
    requires i < |t.rows| && Inv(c, t.(live := None)) && c.loads(t.rows[i].payload) == v
    requires t.live == Some(Live(i, v, t.rows[i].payload, t.rows[i].weight))
    ensures Inv(c, t) && t.View(c) == t.(live := None).View(c)
  {
    assert Stored(c, t.rows[i]);
  }

  lemma {:induction false} TouchKeeps(c: Codec, s: State, n: nat)
    requires Inv(c, s) && n <= |s.rows|
    ensures Inv(c, Touch(c, s, n)) && Touch(c, s, n).View(c) == s.View(c)
    ensures Touch(c, s, n).generation == s.generation && Touch(c, s, n).revision >= s.revision
  {
    hide Flush, Inv, State.View, Holds, Weights;
    if n > 0 {
      TouchKeeps(c, s, n - 1);
      GetIsRead(c, Touch(c, s, n - 1), n - 1);
      FlushKeeps(c, Touch(c, s, n - 1));
    }
  }
}
