/** What holds over whole histories of a disk-backed list.

  `Step` runs one operation of the caller: an index may count from the end, and a slice comes down
  to a series of actions on single records.  Every operation acts on the records as it would on a
  plain list, and none makes a cursor taken earlier lie about the rows it remembers. */
module ListHistory {
  import opened ChunkTree
  import opened Spool
  import opened StableSort
  import opened Slices

  // ---------- sorting ----------

  lemma {:induction false} WeightsPermuted(rows: seq<Row>, order: seq<nat>)
    requires Permutation(order, |rows|)
    ensures Weights(Pick(rows, order)) == Weights(rows)
    decreases |rows|
  {
    if rows == [] {
      assert Pick(rows, order) == [];
    } else {
      var n := |rows| - 1;
      var k := PlaceOf(order, |rows|, n);
      PickAround(rows, order, n, k);
      hide Permutation, Pick;
      WeightsPermuted(rows[..n], order[..k] + order[k + 1..]);
      WeightsAround(Pick(rows, order[..k]), rows[n], Pick(rows, order[k + 1..]));
      assert rows[..n] + [rows[n]] + [] == rows && rows[..n] + [] == rows[..n];
      WeightsAround(rows[..n], rows[n], []);
    }
  }

  lemma ReorderRowsIsReorder(c: Codec, t: State, order: seq<nat>)
    requires Inv(c, t) && Holds(c, t.rows, t.View(c), t.revision) && Permutation(order, |t.rows|)
    ensures Inv(c, ReorderRows(t, order)) && ReorderRows(t, order).View(c) == Pick(t.View(c), order)
  {
    WeightsPermuted(t.rows, order);
    assert Pick(t.rows, order) == ReorderRows(t, order).rows;
    RowsAlone(c, ReorderRows(t, order), Pick(t.View(c), order));
  }

  lemma RearrangeIsReorder(c: Codec, s: State, order: seq<nat>)
    requires Inv(c, s) && Permutation(order, |s.rows|)
    ensures var t := Rearrange(c, s, order);
            && Inv(c, t) && t.View(c) == Pick(s.View(c), order)
            && t.generation == s.generation + 1 && t.revision >= s.revision
  {
    var u := Touch(c, s, |s.rows|);
    TouchKeeps(c, s, |s.rows|);
    FlushKeeps(c, u);
    ReorderRowsIsReorder(c, Flush(c, u), order);
  }

  // ---------- one action on a record ----------

  /** The type of sort keys; any type with an order will do. */
  type SortKey(!new)

  datatype Sorting = Sorting(key: Record -> SortKey, less: (SortKey, SortKey) -> bool, reverse: bool)
  {
    function Keys(view: seq<Record>): seq<SortKey> {
      seq(|view|, i requires 0 <= i < |view| => key(view[i]))
    }

    function OrderFor(view: seq<Record>): (order: seq<nat>)
      ensures Permutation(order, |view|)
    {
      StableOrder(Keys(view), less, reverse, |view|)
    }
  }

  /** Sorted by key, in whichever direction, with equal keys in their old order. */
  lemma SortedByKey(how: Sorting, view: seq<Record>)
    requires WeakOrder(how.less)
    ensures var order := how.OrderFor(view);
            var after := Pick(view, order);
            && |after| == |view|
            && forall j, k | 0 <= j < k < |after| ::
                 var a, b := how.key(after[j]), how.key(after[k]);
                 && (if how.reverse then !how.less(a, b) else !how.less(b, a))
                 && (!how.less(a, b) && !how.less(b, a) ==> order[j] < order[k])
  {
    var order, keys := how.OrderFor(view), how.Keys(view);
    assert order == StableOrder(keys, how.less, how.reverse, |view|);
    assert AllInOrder(keys, how.less, how.reverse, order);
    forall j, k | 0 <= j < k < |order|
      ensures InOrder(keys, how.less, how.reverse, order[j], order[k])
              && keys[order[j]] == how.key(view[order[j]]) && keys[order[k]] == how.key(view[order[k]])
    {}
    hide StableOrder, Permutation, AllInOrder;
  }

  datatype Act =
    | GetAt(i: nat)
    | SetAt(i: nat, v: Record)
    | DeleteAt(i: nat)
    | InsertAt(i: nat, v: Record)
    | ClearAll
    | SortBy(how: Sorting)
    | EditLive(v: Record)
    | SyncTotal

  /** An index out of range is refused before anything changes. */
  function Do(c: Codec, s: State, a: Act): State {
    match a
    case GetAt(i) => if i < |s.rows| then Get(c, s, i) else s
    case SetAt(i, v) => if i < |s.rows| then Set(c, s, i, v) else s
    case DeleteAt(i) => if i < |s.rows| then Delete(c, s, i) else s
    case InsertAt(i, v) => if i <= |s.rows| then Insert(c, s, i, v) else s
    case ClearAll => Clear(s)
    case SortBy(how) => Rearrange(c, s, how.OrderFor(s.View(c)))
    case EditLive(v) => if s.live.Some? then Edit(s, v) else s
    case SyncTotal => Sync(c, s)
  }

  /** The same action on a plain list; `live` is the place of the record the caller holds. */
  function PlainDo(view: seq<Record>, live: Option<nat>, a: Act): seq<Record> {
    match a
    case SetAt(i, v) => if i < |view| then view[i := v] else view
    case DeleteAt(i) => if i < |view| then view[..i] + view[i + 1..] else view
    case InsertAt(i, v) => if i <= |view| then view[..i] + [v] + view[i..] else view
    case ClearAll => []
    case SortBy(how) => Pick(view, how.OrderFor(view))
    case EditLive(v) => if live.Some? && live.value < |view| then view[live.value := v] else view
    case _ => view
  }

  function LivePlace(s: State): Option<nat> {
    if s.live.Some? then Some(s.live.value.position) else None
  }

  lemma EditKeeps(c: Codec, s: State, v: Record)
    requires Inv(c, s) && s.live.Some?
    ensures Inv(c, Edit(s, v)) && s.live.value.position < |s.View(c)|
    ensures Edit(s, v).View(c) == s.View(c)[s.live.value.position := v]
  {
    hide Weights;
  }

  lemma ClearKeeps(c: Codec, s: State)
    requires Inv(c, s)
    ensures Inv(c, Clear(s)) && Clear(s).View(c) == []
  {}

  lemma DoRefinesPlainList(c: Codec, s: State, a: Act)
    requires Inv(c, s)
    ensures Inv(c, Do(c, s, a)) && Do(c, s, a).View(c) == PlainDo(s.View(c), LivePlace(s), a)
  {
    ViewLength(c, s);
    hide Inv, State.View, Get, Set, Delete, Insert, Clear, Rearrange, Sync, Edit;
    match a
    case GetAt(i) => if i < |s.rows| { GetIsRead(c, s, i); }
    case SetAt(i, v) => if i < |s.rows| { SetIsAssign(c, s, i, v); }
    case DeleteAt(i) => if i < |s.rows| { DeleteIsRemove(c, s, i); }
    case InsertAt(i, v) => if i <= |s.rows| { InsertIsInsert(c, s, i, v); }
    case ClearAll => ClearKeeps(c, s);
    case SortBy(how) => RearrangeIsReorder(c, s, how.OrderFor(s.View(c)));
    case EditLive(v) => if s.live.Some? { EditKeeps(c, s, v); }
    case SyncTotal => SyncKeeps(c, s);
  }

  lemma ViewLength(c: Codec, s: State)
    ensures |s.View(c)| == |s.rows|
  {}

  // ---------- one operation of the caller ----------

  /** Where an index points, counting from the end when it is negative. */
  function Resolve(index: int, length: nat): Option<nat> {
    var i := if index < 0 then index + length else index;
    if 0 <= i < length then Some(i) else None
  }

  /** Where an insertion goes: clamped to the ends, never refused. */
  function Clamp(index: int, length: nat): (p: nat)
    ensures p <= length
  {
    var i := if index >= 0 then index else length + index;
    var low := if i < length then i else length;
    if low < 0 then 0 else low
  }

  datatype Op =
    | ReadIndex(index: int)
    | StoreIndex(index: int, v: Record)
    | DropIndex(index: int)
    | PutIndex(index: int, v: Record)
    | ReadSlice(s: Slice)
    | StoreSlice(s: Slice, values: seq<Record>)
    | DropSlice(s: Slice)
    | EmptyList
    | SortList(how: Sorting)
    | EditRecord(v: Record)
    | AskTotal

  function Gets(ps: seq<int>): seq<Act>
    requires forall k | 0 <= k < |ps| :: ps[k] >= 0
  {
    seq(|ps|, k requires 0 <= k < |ps| => GetAt(ps[k]))
  }

  function Deletes(ps: seq<int>): seq<Act>
    requires forall k | 0 <= k < |ps| :: ps[k] >= 0
  {
    seq(|ps|, k requires 0 <= k < |ps| => DeleteAt(ps[k]))
  }

  function Sets(ps: seq<int>, values: seq<Record>): seq<Act>
    requires |ps| == |values| && forall k | 0 <= k < |ps| :: ps[k] >= 0
  {
    seq(|ps|, k requires 0 <= k < |ps| => SetAt(ps[k], values[k]))
  }

  function Inserts(start: nat, values: seq<Record>): seq<Act> {
    seq(|values|, k requires 0 <= k < |values| => InsertAt(start + k, values[k]))
  }

  /** Deleting a slice starts with the highest position. */
  function Falling(s: Slice, length: nat): (down: seq<int>)
    requires s.Step() != 0
    ensures forall k | 0 <= k < |down| :: 0 <= down[k] < length
    ensures forall j, k | 0 <= j < k < |down| :: down[j] > down[k]
    ensures Members(down) == Members(s.Positions(length))
  {
    PositionsInside(s, length);
    DownwardFalls(s.Positions(length), s.Step());
    Downward(s.Positions(length), s.Step())
  }

  /** Whether a slice may be assigned these values: a stepped one must keep the length. */
  predicate Assignable(s: Slice, length: nat, values: seq<Record>) {
    s.Step() != 0 && (s.Step() == 1 || |values| == |s.Positions(length)|)
  }

  /** The actions an operation comes down to; none when it is refused. */
  function Acts(op: Op, length: nat): seq<Act> {
    match op
    case ReadIndex(i) => (match Resolve(i, length) case None => [] case Some(p) => [GetAt(p)])
    case StoreIndex(i, v) => (match Resolve(i, length) case None => [] case Some(p) => [SetAt(p, v)])
    case DropIndex(i) => (match Resolve(i, length) case None => [] case Some(p) => [DeleteAt(p)])
    case PutIndex(i, v) => [InsertAt(Clamp(i, length), v)]
    case ReadSlice(s) =>
      if s.Step() == 0 then [] else (PositionsInside(s, length); Gets(s.Positions(length)))
    case DropSlice(s) => if s.Step() == 0 then [] else Deletes(Falling(s, length))
    case StoreSlice(s, values) =>
      if !Assignable(s, length, values) then []
      else if |values| == |s.Positions(length)| then (PositionsInside(s, length); Sets(s.Positions(length), values))
      else (RunPositions(s, length); Deletes(Falling(s, length)) + Inserts(s.Start(length), values))
    case EmptyList => [ClearAll]
    case SortList(how) => [SortBy(how)]
    case EditRecord(v) => [EditLive(v)]
    case AskTotal => [SyncTotal]
  }

  function DoAll(c: Codec, s: State, acts: seq<Act>): State {
    if acts == [] then s else Do(c, DoAll(c, s, acts[..|acts| - 1]), acts[|acts| - 1])
  }

  function Step(c: Codec, s: State, op: Op): State {
    DoAll(c, s, Acts(op, |s.rows|))
  }

  /** The same operation on a plain list. */
  function PlainStep(view: seq<Record>, live: Option<nat>, op: Op): seq<Record> {
    match op
    case StoreIndex(i, v) =>
      if 0 <= i < |view| then view[i := v] else if -|view| <= i < 0 then view[|view| + i := v] else view
    case DropIndex(i) =>
      if 0 <= i < |view| then view[..i] + view[i + 1..]
      else if -|view| <= i < 0 then view[..|view| + i] + view[|view| + i + 1..]
      else view
    case PutIndex(i, v) =>
      if i >= |view| then view + [v]
      else if i >= 0 then view[..i] + [v] + view[i..]
      else if i > -|view| then view[..|view| + i] + [v] + view[|view| + i..]
      else [v] + view
    case DropSlice(s) => if s.Step() == 0 then view else Others(view, Members(s.Positions(|view|)))
    case StoreSlice(s, values) =>
      if !Assignable(s, |view|, values) then view
      else if s.Step() == 1 then
        (RunPositions(s, |view|); view[..s.Start(|view|)] + values + view[RunEnd(s, |view|)..])
      else (PositionsInside(s, |view|); Assigned(view, s.Positions(|view|), values, |values|))
    case EmptyList => []
    case SortList(how) => Pick(view, how.OrderFor(view))
    case EditRecord(v) => if live.Some? && live.value < |view| then view[live.value := v] else view
    case _ => view
  }

  // ---------- series of actions ----------

  lemma OneAct(c: Codec, s: State, a: Act)
    ensures DoAll(c, s, [a]) == Do(c, s, a)
  {
    assert [a][..0] == [] && DoAll(c, s, []) == s;
  }

  lemma DoAllSnoc(c: Codec, s: State, acts: seq<Act>, k: nat)
    requires k < |acts|
    ensures DoAll(c, s, acts[..k + 1]) == Do(c, DoAll(c, s, acts[..k]), acts[k])
  {
    assert acts[..k + 1][..k] == acts[..k];
  }

  lemma {:induction false} DoAllJoin(c: Codec, s: State, a: seq<Act>, b: seq<Act>)
    ensures DoAll(c, s, a + b) == DoAll(c, DoAll(c, s, a), b)
    decreases |b|
  {
    hide Do;
    if b == [] {
      assert a + b == a;
    } else {
      assert (a + b)[..|a + b| - 1] == a + b[..|b| - 1];
      DoAllJoin(c, s, a, b[..|b| - 1]);
    }
  }

  lemma {:induction false} GetsKeep(c: Codec, s: State, ps: seq<int>, k: nat)
    requires Inv(c, s) && k <= |ps| && forall i | 0 <= i < |ps| :: ps[i] >= 0
    ensures Inv(c, DoAll(c, s, Gets(ps)[..k])) && DoAll(c, s, Gets(ps)[..k]).View(c) == s.View(c)
  {
    hide Do, Inv;
    if k > 0 {
      GetsKeep(c, s, ps, k - 1);
      DoAllSnoc(c, s, Gets(ps), k - 1);
      DoRefinesPlainList(c, DoAll(c, s, Gets(ps)[..k - 1]), Gets(ps)[k - 1]);
    }
  }

  /** Deleting from the highest position down removes exactly the elements meant. */
  lemma {:induction false} DeletesRemove(c: Codec, s: State, down: seq<int>, k: nat)
    requires Inv(c, s) && k <= |down| && forall i | 0 <= i < |down| :: 0 <= down[i] < |s.rows|
    requires forall i, j | 0 <= i < j < |down| :: down[i] > down[j]
    ensures var t := DoAll(c, s, Deletes(down)[..k]);
            Inv(c, t) && t.View(c) == Others(s.View(c), Members(down[..k]))
  {
    hide Do, Inv, Members;
    if k > 0 {
      DeletesRemove(c, s, down, k - 1);
      DoAllSnoc(c, s, Deletes(down), k - 1);
      DoRefinesPlainList(c, DoAll(c, s, Deletes(down)[..k - 1]), DeleteAt(down[k - 1]));
      OneMoreGone(down, k - 1);
      DeleteNext(s.View(c), Members(down[..k - 1]), down[k - 1]);
    } else {
      NothingMember(down);
      NoneGone(s.View(c), {});
    }
  }

  lemma NothingMember(down: seq<int>)
    ensures Members(down[..0]) == {}
  {}

  lemma {:induction false} SetsAssign(c: Codec, s: State, ps: seq<int>, values: seq<Record>, k: nat)
    requires Inv(c, s) && k <= |ps| == |values| && forall i | 0 <= i < |ps| :: 0 <= ps[i] < |s.rows|
    ensures var t := DoAll(c, s, Sets(ps, values)[..k]);
            Inv(c, t) && t.View(c) == Assigned(s.View(c), ps, values, k)
  {
    hide Do, Inv;
    if k > 0 {
      SetsAssign(c, s, ps, values, k - 1);
      DoAllSnoc(c, s, Sets(ps, values), k - 1);
      DoRefinesPlainList(c, DoAll(c, s, Sets(ps, values)[..k - 1]), SetAt(ps[k - 1], values[k - 1]));
    }
  }

  lemma {:induction false} InsertsSplice(c: Codec, s: State, start: nat, values: seq<Record>, k: nat)
    requires Inv(c, s) && start <= |s.rows| && k <= |values|
    ensures var t, view := DoAll(c, s, Inserts(start, values)[..k]), s.View(c);
            Inv(c, t) && t.View(c) == view[..start] + values[..k] + view[start..]
  {
    hide Do, Inv;
    var view := s.View(c);
    if k > 0 {
      InsertsSplice(c, s, start, values, k - 1);
      DoAllSnoc(c, s, Inserts(start, values), k - 1);
      DoRefinesPlainList(c, DoAll(c, s, Inserts(start, values)[..k - 1]), InsertAt(start + (k - 1), values[k - 1]));
      SpliceInsert(view[..start], values, k - 1, view[start..]);
    } else {
      assert view[..start] + values[..0] + view[start..] == view;
    }
  }

  /** A list with its slots from start on overwritten by the first i values. */
  lemma SpliceInsert<T>(front: seq<T>, values: seq<T>, i: nat, back: seq<T>)
    requires i < |values|
    ensures var s, p := front + values[..i] + back, |front| + i;
            s[..p] + [values[i]] + s[p..] == front + values[..i + 1] + back
  {}

  // ---------- every operation is the plain list operation ----------

  lemma ReadSliceRefines(c: Codec, s: State, slice: Slice)
    requires Inv(c, s) && slice.Step() != 0
    ensures var t := Step(c, s, ReadSlice(slice));
            Inv(c, t) && t.View(c) == s.View(c)
  {
    hide DoAll, Inv;
    PositionsInside(slice, |s.rows|);
    var ps := slice.Positions(|s.rows|);
    GetsKeep(c, s, ps, |ps|);
    assert Gets(ps)[..|ps|] == Gets(ps);
  }

  lemma DropSliceRefines(c: Codec, s: State, slice: Slice)
    requires Inv(c, s) && slice.Step() != 0
    ensures var t := DoAll(c, s, Deletes(Falling(slice, |s.rows|)));
            Inv(c, t) && t.View(c) == Others(s.View(c), Members(slice.Positions(|s.rows|)))
  {
    hide DoAll, Inv, Members;
    var down := Falling(slice, |s.rows|);
    hide Falling;
    DeletesRemove(c, s, down, |down|);
    assert Deletes(down)[..|down|] == Deletes(down) && down[..|down|] == down;
  }

  lemma StoreSliceRefines(c: Codec, s: State, slice: Slice, values: seq<Record>)
    requires Inv(c, s) && Assignable(slice, |s.rows|, values)
    ensures var t := Step(c, s, StoreSlice(slice, values));
            Inv(c, t) && t.View(c) == PlainStep(s.View(c), LivePlace(s), StoreSlice(slice, values))
  {
    hide DoAll, Inv;
    var n, view := |s.rows|, s.View(c);
    var ps := slice.Positions(n);
    PositionsInside(slice, n);
    if |values| == |ps| {
      SetsAssign(c, s, ps, values, |ps|);
      assert Sets(ps, values)[..|ps|] == Sets(ps, values);
      if slice.Step() == 1 {
        RunPositions(slice, n);
        AssignedRun(view, ps, values, slice.Start(n), |ps|);
        assert values[..|ps|] == values;
      }
    } else {
      ReplaceRun(c, s, slice, values);
    }
  }

  lemma DropRunRefines(c: Codec, s: State, slice: Slice)
    requires Inv(c, s) && slice.Step() == 1
    ensures var n, view := |s.rows|, s.View(c);
            && 0 <= slice.Start(n) <= RunEnd(slice, n) <= n
            && var t := DoAll(c, s, Deletes(Falling(slice, n)));
               Inv(c, t) && t.View(c) == view[..slice.Start(n)] + view[RunEnd(slice, n)..]
  {
    hide DoAll, Inv;
    var n := |s.rows|;
    RunPositions(slice, n);
    var ps := slice.Positions(n);
    hide Falling;
    DropSliceRefines(c, s, slice);
    MembersOfRun(ps, slice.Start(n), RunEnd(slice, n));
    OthersOfRun(s.View(c), Members(ps), slice.Start(n), RunEnd(slice, n));
  }

  /** A run is replaced by deleting it and inserting the values where it began. */
  lemma ReplaceRun(c: Codec, s: State, slice: Slice, values: seq<Record>)
    requires Inv(c, s) && slice.Step() == 1
    ensures var n, view := |s.rows|, s.View(c);
            && 0 <= slice.Start(n) <= RunEnd(slice, n) <= n
            && var t := DoAll(c, s, Deletes(Falling(slice, n)) + Inserts(slice.Start(n), values));
               Inv(c, t) && t.View(c) == view[..slice.Start(n)] + values + view[RunEnd(slice, n)..]
  {
    hide DoAll, Inv, Falling;
    var n, view := |s.rows|, s.View(c);
    DropRunRefines(c, s, slice);
    var lo, t := slice.Start(n), DoAll(c, s, Deletes(Falling(slice, n)));
    assert |t.rows| == |t.View(c)|;
    DoAllJoin(c, s, Deletes(Falling(slice, n)), Inserts(lo, values));
    InsertsSplice(c, t, lo, values, |values|);
    CutAround(view, lo, RunEnd(slice, n));
    assert Inserts(lo, values)[..|values|] == Inserts(lo, values) && values[..|values|] == values;
  }

  /** Inserting at an end is appending or putting in front. */
  lemma PutIsInsert(view: seq<Record>, live: Option<nat>, index: int, v: Record)
    ensures var p := Clamp(index, |view|);
            PlainStep(view, live, PutIndex(index, v)) == view[..p] + [v] + view[p..]
  {
    assert view[..|view|] == view && view[|view|..] == [] && view[..0] == [] && view[0..] == view;
    assert view + [v] + [] == view + [v] && [] + [v] + view == [v] + view;
  }

  lemma PutActs(view: seq<Record>, live: Option<nat>, index: int, v: Record)
    ensures var acts := Acts(PutIndex(index, v), |view|);
            |acts| == 1 && PlainStep(view, live, PutIndex(index, v)) == PlainDo(view, live, acts[0])
  {
    hide Clamp, PlainStep;
    PutIsInsert(view, live, index, v);
    assert Acts(PutIndex(index, v), |view|) == [InsertAt(Clamp(index, |view|), v)];
  }

  lemma IndexActs(view: seq<Record>, live: Option<nat>, op: Op)
    requires op.StoreIndex? || op.DropIndex?
    ensures var acts := Acts(op, |view|);
            && |acts| <= 1
            && PlainStep(view, live, op) == if acts == [] then view else PlainDo(view, live, acts[0])
  {
    hide Clamp, Deletes, Falling, Gets, Sets, Inserts, Others, Assigned, Members, Assignable, Pick;
  }

  /** An operation other than on a slice is one action, or none. */
  lemma OneActOrNone(view: seq<Record>, live: Option<nat>, op: Op)
    requires !op.ReadSlice? && !op.StoreSlice? && !op.DropSlice?
    ensures var acts := Acts(op, |view|);
            && |acts| <= 1
            && PlainStep(view, live, op) == if acts == [] then view else PlainDo(view, live, acts[0])
  {
    hide Clamp, Deletes, Falling, Gets, Sets, Inserts, Others, Assigned, Members, Assignable, Pick;
    if op.PutIndex? {
      hide Acts, PlainStep, PlainDo;
      PutActs(view, live, op.index, op.v);
    } else if op.StoreIndex? || op.DropIndex? {
      hide Acts, PlainStep, PlainDo;
      IndexActs(view, live, op);
    }
  }

  lemma SingleRefines(c: Codec, s: State, op: Op)
    requires Inv(c, s) && !op.ReadSlice? && !op.StoreSlice? && !op.DropSlice?
    ensures var t := Step(c, s, op);
            Inv(c, t) && t.View(c) == PlainStep(s.View(c), LivePlace(s), op)
  {
    ViewLength(c, s);
    hide DoAll, Inv, Do, Acts, PlainStep, PlainDo, State.View, LivePlace;
    OneActOrNone(s.View(c), LivePlace(s), op);
    var acts := Acts(op, |s.rows|);
    if acts == [] {
      NoAct(c, s);
    } else {
      assert acts == [acts[0]];
      OneAct(c, s, acts[0]);
      DoRefinesPlainList(c, s, acts[0]);
    }
  }

  lemma StepRefinesPlainList(c: Codec, s: State, op: Op)
    requires Inv(c, s)
    ensures Inv(c, Step(c, s, op))
    ensures Step(c, s, op).View(c) == PlainStep(s.View(c), LivePlace(s), op)
  {
    hide DoAll, Inv, Do, Deletes, Falling, Resolve, Clamp, Pick;
    match op
    case ReadSlice(slice) => if slice.Step() != 0 { ReadSliceRefines(c, s, slice); } else { NoAct(c, s); }
    case DropSlice(slice) => if slice.Step() != 0 { DropSliceRefines(c, s, slice); } else { NoAct(c, s); }
    case StoreSlice(slice, values) =>
      if Assignable(slice, |s.rows|, values) { StoreSliceRefines(c, s, slice, values); } else { NoAct(c, s); }
    case _ => SingleRefines(c, s, op);
  }

  lemma NoAct(c: Codec, s: State)
    ensures DoAll(c, s, []) == s
  {}

  // ---------- cursors ----------

  datatype Cursor = Cursor(generation: int, revision: int, length: nat)

  /** What a cursor taken with a list of `prefix` still says about the state: until the generation
      changes, a row either holds the record it had then or carries a later revision. */
  ghost predicate Fits(c: Codec, s: State, cur: Cursor, prefix: seq<Record>) {
    && cur.length == |prefix| && cur.generation <= s.generation && cur.revision <= s.revision
    && (cur.generation == s.generation ==>
          && |prefix| <= |s.rows|
          && forall p | 0 <= p < |prefix| ::
               s.rows[p].revision > cur.revision || c.loads(s.rows[p].payload) == prefix[p])
  }

  lemma FitsAfterFlush(c: Codec, s: State, cur: Cursor, prefix: seq<Record>)
    requires Inv(c, s) && Fits(c, s, cur, prefix)
    ensures Fits(c, Flush(c, s), cur, prefix)
  {
    FlushKeeps(c, s);
  }

  lemma FitsAfterGet(c: Codec, s: State, i: nat, cur: Cursor, prefix: seq<Record>)
    requires Inv(c, s) && Fits(c, s, cur, prefix) && i < |s.rows|
    ensures Fits(c, Get(c, s, i), cur, prefix)
  {
    FitsAfterFlush(c, s, cur, prefix);
  }

  lemma FitsAfterSet(c: Codec, s: State, i: nat, v: Record, cur: Cursor, prefix: seq<Record>)
    requires Inv(c, s) && Fits(c, s, cur, prefix) && i < |s.rows|
    ensures Fits(c, Set(c, s, i, v), cur, prefix)
  {
    FitsAfterFlush(c, s, cur, prefix);
  }

  lemma FitsAfterInsert(c: Codec, s: State, i: nat, v: Record, cur: Cursor, prefix: seq<Record>)
    requires Inv(c, s) && Fits(c, s, cur, prefix) && i <= |s.rows|
    ensures Fits(c, Insert(c, s, i, v), cur, prefix)
  {
    FitsAfterFlush(c, s, cur, prefix);
    FlushKeeps(c, s);
  }

  /** No action makes a cursor lie: what it remembers is unchanged or visibly newer. */
  lemma FitsAfterDo(c: Codec, s: State, a: Act, cur: Cursor, prefix: seq<Record>)
    requires Inv(c, s) && Fits(c, s, cur, prefix)
    ensures Fits(c, Do(c, s, a), cur, prefix)
  {
    match a
    case GetAt(i) => if i < |s.rows| { FitsAfterGet(c, s, i, cur, prefix); }
    case SetAt(i, v) => if i < |s.rows| { FitsAfterSet(c, s, i, v, cur, prefix); }
    case DeleteAt(i) => if i < |s.rows| { FlushKeeps(c, s); }
    case InsertAt(i, v) => if i <= |s.rows| { FitsAfterInsert(c, s, i, v, cur, prefix); }
    case ClearAll =>
    case SortBy(how) => RearrangeIsReorder(c, s, how.OrderFor(s.View(c)));
    case EditLive(v) =>
    case SyncTotal => SyncKeeps(c, s);
  }

  lemma {:induction false} FitsAfterAll(c: Codec, s: State, acts: seq<Act>, cur: Cursor, prefix: seq<Record>)
    requires Inv(c, s) && Fits(c, s, cur, prefix)
    ensures Inv(c, DoAll(c, s, acts)) && Fits(c, DoAll(c, s, acts), cur, prefix)
    decreases |acts|
  {
    hide Do, Inv, Fits;
    if acts != [] {
      var before, last := acts[..|acts| - 1], acts[|acts| - 1];
      FitsAfterAll(c, s, before, cur, prefix);
      DoRefinesPlainList(c, DoAll(c, s, before), last);
      FitsAfterDo(c, DoAll(c, s, before), last, cur, prefix);
    }
  }

  /** No operation makes a cursor lie, slices included. */
  lemma FitsAfterStep(c: Codec, s: State, op: Op, cur: Cursor, prefix: seq<Record>)
    requires Inv(c, s) && Fits(c, s, cur, prefix)
    ensures Fits(c, Step(c, s, op), cur, prefix)
  {
    FitsAfterAll(c, s, Acts(op, |s.rows|), cur, prefix);
    hide Fits, DoAll, Acts;
  }
}
