/** A mutable list whose records live in a row table, with one live record in memory. */
module DiskBackedList {
  import opened ChunkTree
  import opened Spool
  import opened ListHistory
  import opened StableSort
  import opened IncrementalRoot
  import opened RowTable
  import opened Slices

  datatype Result<+T> = Ok(value: T) | IndexError

  class DiskBackedList {
    const codec: Codec
    var table: Table
    var length: nat
    var live: Option<Live>
    var total: int
    var generation: nat
    var revision: nat

    /** Rows stand at exactly the positions 0..length-1 and the state is sound. */
    ghost predicate Valid()
      reads this
    {
      Shaped(table, length) && Inv(codec, Now())
    }

    ghost function Now(): State
      reads this
      requires Shaped(table, length)
    {
      State(RowsOf(table, length), live, total, generation, revision)
    }

    ghost function View(): seq<Record>
      reads this
      requires Shaped(table, length)
    {
      Now().View(codec)
    }

    constructor (codec: Codec, values: seq<Record>)
      requires codec.Lossless()
      ensures Valid() && this.codec == codec && View() == values && generation == 0
    {
      this.codec := codec;
      table, length, live := map[], 0, None;
      total, generation, revision := 0, 0, 0;
      new;
      assert RowsOf(table, length) == [];
      var i := 0;
      while i < |values|
        invariant 0 <= i <= |values| && Valid() && View() == values[..i] && generation == 0
      {
        InsertRow(i, values[i]);
        i := i + 1;
      }
    }

    method SyncWeight()
      requires Valid()
      modifies this
      ensures Valid() && Now() == Sync(codec, old(Now())) && View() == old(View())
    {
      SyncKeeps(codec, Now());
      if live.Some? && codec.weigh.Some? {
        var l := live.value;
        var weight := codec.Weight(l.value);
        if weight != l.weight {
          table := table[l.position := table[l.position].(weight := weight)];
          total := total + weight - l.weight;
          live := Some(l.(weight := weight));
        }
      }
      assert Now() == Sync(codec, old(Now()));
    }

    /** The incremental total, which is the sum of the weights of the records in the list. */
    method TotalWeight() returns (r: Option<int>)
      requires Valid()
      modifies this
      ensures Valid() && Now() == Sync(codec, old(Now())) && View() == old(View())
      ensures Now() == Step(codec, old(Now()), AskTotal)
      ensures r == if codec.weigh.Some? then Some(WeightOf(codec, View())) else None
    {
      TotalIsSum(codec, Now());
      OneAct(codec, Now(), SyncTotal);
      SyncWeight();
      r := if codec.weigh.Some? then Some(total) else None;
    }

    method FlushLive()
      requires Valid()
      modifies this
      ensures Valid() && Now() == Flush(codec, old(Now())) && View() == old(View())
    {
      hide Inv, State.View, Sync;
      FlushKeeps(codec, Now());
      SyncWeight();
      LiveInside(codec, Now());
      if live.Some? {
        var l := live.value;
        var payload := codec.dumps(l.value);
        if payload != l.payload {
          revision := revision + 1;
          table := table[l.position := table[l.position].(payload := payload, revision := revision)];
          live := Some(l.(payload := payload));
        }
      }
      assert Now() == Flush(codec, old(Now()));
    }

    /** Read one record; reading another one than the live one writes the live one back first. */
    method GetItem(index: int) returns (r: Result<Record>)
      requires Valid()
      modifies this
      ensures Valid() && View() == old(View())
      ensures r == IndexError <==> index >= old(length) || old(length) + index < 0
      ensures 0 <= index < old(length) ==> r == Ok(View()[index]) && Holding(Now(), index, View()[index])
      ensures index < 0 <= old(length) + index ==>
                r == Ok(View()[old(length) + index]) && Holding(Now(), old(length) + index, View()[old(length) + index])
      ensures match Resolve(index, old(length))
              case None => Now() == old(Now())
              case Some(i) => Now() == Get(codec, old(Now()), i)
      ensures Now() == Step(codec, old(Now()), ReadIndex(index))
    {
      hide Inv, Flush, Weights;
      var position := Resolve(index, length);
      if position.None? { return IndexError; }
      GetIsRead(codec, Now(), position.value);
      OneAct(codec, Now(), GetAt(position.value));
      if live.None? || live.value.position != position.value {
        FlushLive();
        var row := table[position.value];
        live := Some(Live(position.value, codec.loads(row.payload), row.payload, row.weight));
      }
      assert Now() == Get(codec, old(Now()), position.value);
      r := Ok(live.value.value);
    }

    /** The caller edits the live record in place; nothing is written until it is flushed. */
    method EditInPlace(value: Record)
      requires Valid() && live.Some?
      modifies this`live
      ensures Valid() && Now() == Edit(old(Now()), value) && Now() == Step(codec, old(Now()), EditRecord(value))
      ensures View() == old(View())[live.value.position := value]
    {
      OneAct(codec, Now(), EditLive(value));
      live := Some(live.value.(value := value));
      assert Now() == Edit(old(Now()), value);
    }

    method SetItem(index: int, value: Record) returns (r: Result<()>)
      requires Valid()
      modifies this
      ensures Valid()
      ensures r == IndexError <==> index >= old(length) || old(length) + index < 0
      ensures 0 <= index < old(length) ==>
                View() == old(View())[index := value] && Holding(Now(), index, value)
      ensures index < 0 <= old(length) + index ==>
                View() == old(View())[old(length) + index := value] && Holding(Now(), old(length) + index, value)
      ensures match Resolve(index, old(length))
              case None => Now() == old(Now())
              case Some(i) => Now() == Set(codec, old(Now()), i, value)
      ensures Now() == Step(codec, old(Now()), StoreIndex(index, value))
    {
      var position := Resolve(index, length);
      if position.None? { return IndexError; }
      OneAct(codec, Now(), SetAt(position.value, value));
      SetRow(position.value, value);
      r := Ok(());
    }

    method SetRow(position: nat, value: Record)
      requires Valid() && position < length
      modifies this
      ensures Valid() && length == old(length)
      ensures Now() == Set(codec, old(Now()), position, value)
      ensures View() == old(View())[position := value] && Holding(Now(), position, value)
    {
      SetIsAssign(codec, Now(), position, value);
      FlushLive();
      var payload, weight := codec.dumps(value), codec.Weight(value);
      var previousWeight := table[position].weight;
      revision := revision + 1;
      table := table[position := Row(payload, weight, revision)];
      total := total + weight - previousWeight;
      live := Some(Live(position, value, payload, weight));
      assert Now() == Set(codec, old(Now()), position, value);
    }

    method DelItem(index: int) returns (r: Result<()>)
      requires Valid()
      modifies this
      ensures Valid()
      ensures r == IndexError <==> index >= old(length) || old(length) + index < 0
      ensures 0 <= index < old(length) ==> View() == old(View())[..index] + old(View())[index + 1..]
      ensures index < 0 <= old(length) + index ==>
                View() == old(View())[..old(length) + index] + old(View())[old(length) + index + 1..]
      ensures match Resolve(index, old(length))
              case None => Now() == old(Now())
              case Some(i) => Now() == Delete(codec, old(Now()), i)
      ensures Now() == Step(codec, old(Now()), DropIndex(index))
    {
      var position := Resolve(index, length);
      if position.None? { return IndexError; }
      OneAct(codec, Now(), DeleteAt(position.value));
      DeleteRow(position.value);
      r := Ok(());
    }

    method DeleteRow(position: nat)
      requires Valid() && position < length
      modifies this
      ensures Valid() && length == old(length) - 1
      ensures Now() == Delete(codec, old(Now()), position)
      ensures View() == old(View())[..position] + old(View())[position + 1..]
    {
      DeleteIsRemove(codec, Now(), position);
      FlushLive();
      DropFlushed(position);
    }

    method DropFlushed(position: nat)
      requires Shaped(table, length) && position < length
      modifies this
      ensures Shaped(table, length) && length == old(length) - 1
      ensures Now() == DropRow(old(Now()), position)
    {
      live := None;
      var weight := table[position].weight;
      RemoveAndShift(position);
      generation := generation + 1;
      length := length - 1;
      total := total - weight;
    }

    /** The three statements of a deletion. */
    method RemoveAndShift(position: nat)
      requires Shaped(table, length) && position < length
      modifies this`table
      ensures Shaped(table, length - 1)
      ensures RowsOf(table, length - 1)
              == old(RowsOf(table, length))[..position] + old(RowsOf(table, length))[position + 1..]
    {
      CloseGap(table, length, position);
      table := table - {position};
      table := Rekey(table, NegateAbove(position));
      table := Rekey(table, LowerNegatives);
    }

    method InsertItem(index: int, value: Record)
      requires Valid()
      modifies this
      ensures Valid()
      ensures Now() == Insert(codec, old(Now()), Clamp(index, old(length)), value)
      ensures var p := if index >= old(length) then old(length) else if index >= 0 then index
                       else if old(length) + index > 0 then old(length) + index else 0;
              View() == old(View())[..p] + [value] + old(View())[p..] && Holding(Now(), p, value)
      ensures Now() == Step(codec, old(Now()), PutIndex(index, value))
    {
      OneAct(codec, Now(), InsertAt(Clamp(index, length), value));
      InsertRow(Clamp(index, length), value);
    }

    method InsertRow(position: nat, value: Record)
      requires Valid() && position <= length
      modifies this
      ensures Valid() && length == old(length) + 1
      ensures Now() == Insert(codec, old(Now()), position, value)
      ensures View() == old(View())[..position] + [value] + old(View())[position..]
      ensures Holding(Now(), position, value) && (position == old(length) ==> generation == old(generation))
    {
      InsertIsInsert(codec, Now(), position, value);
      FlushLive();
      AddFlushed(position, value);
    }

    method AddFlushed(position: nat, value: Record)
      requires Shaped(table, length) && position <= length
      modifies this
      ensures Shaped(table, length) && length == old(length) + 1
      ensures Now() == AddRow(codec, old(Now()), position, value)
    {
      live := None;
      var payload, weight := codec.dumps(value), codec.Weight(value);
      revision := revision + 1;
      var row := Row(payload, weight, revision);
      if position < length {
        ShiftAndAdd(position, row);
        generation := generation + 1;
      } else {
        table := table[position := row];
      }
      length := length + 1;
      total := total + weight;
      live := Some(Live(position, value, payload, weight));
      assert RowsOf(table, length)
          == old(RowsOf(table, length))[..position] + [row] + old(RowsOf(table, length))[position..];
    }

    /** The three statements of an insertion before the end. */
    method ShiftAndAdd(position: nat, row: Row)
      requires Shaped(table, length) && position < length
      modifies this`table
      ensures Shaped(table, length + 1)
      ensures RowsOf(table, length + 1)
              == old(RowsOf(table, length))[..position] + [row] + old(RowsOf(table, length))[position..]
    {
      OpenGap(table, length, position, row);
      table := Rekey(table, LowerFrom(position));
      table := Rekey(table, NegateNegatives);
      table := table[position := row];
    }

    method Clear()
      requires Valid()
      modifies this
      ensures Valid() && Now() == Spool.Clear(old(Now())) && View() == []
      ensures Now() == Step(codec, old(Now()), EmptyList)
    {
      OneAct(codec, Now(), ClearAll);
      live := None;
      table := map[];
      generation := generation + 1;
      length := 0;
      total := 0;
      assert Now() == Spool.Clear(old(Now()));
    }

    /** A stable sort: the view becomes its stable rearrangement by key. */
    method Sort(how: Sorting)
      requires Valid() && WeakOrder(how.less)
      modifies this
      ensures Valid() && Now() == Step(codec, old(Now()), SortList(how))
      ensures var order := how.OrderFor(old(View()));
              && Now() == Rearrange(codec, old(Now()), order) && View() == Pick(old(View()), order)
      ensures forall j, k | 0 <= j < k < |View()| ::
                var a, b := how.key(View()[j]), how.key(View()[k]);
                if how.reverse then !how.less(a, b) else !how.less(b, a)
    {
      hide WeakOrder, Inv, Touch, Flush, DoAll, Pick, StableOrder, Permutation, Weights;
      ghost var start := Now();
      SortedByKey(how, View());
      OneAct(codec, Now(), SortBy(how));
      var keys := ReadKeys(how);
      var order := StableOrder(keys, how.less, how.reverse, length);
      RearrangeIsReorder(codec, start, order);
      FlushLive();
      ReorderFlushed(order);
    }

    /** Load every record once, in order, to compute its sort key. */
    method ReadKeys(how: Sorting) returns (keys: seq<SortKey>)
      requires Valid()
      modifies this
      ensures Valid() && length == old(length) && View() == old(View())
      ensures Now() == Touch(codec, old(Now()), length)
      ensures keys == how.Keys(View())
    {
      hide Sorting.Keys, Inv, Touch;
      NothingRead(codec, Now(), how);
      ghost var start, view := Now(), View();
      keys := [];
      var i := 0;
      while i < length
        invariant Valid() && i <= length == |start.rows| && View() == view
        invariant Now() == Touch(codec, start, i)
        invariant keys == how.Keys(view[..i])
      {
        var record := GetItem(i);
        KeysStep(view, how, i);
        TouchStep(codec, start, i);
        keys := keys + [how.key(record.value)];
        i := i + 1;
      }
      assert view[..i] == view;
    }

    method ReorderFlushed(order: seq<nat>)
      requires Shaped(table, length) && Permutation(order, length)
      modifies this
      ensures Shaped(table, length) && length == old(length)
      ensures Now() == ReorderRows(old(Now()), order)
    {
      live := None;
      generation := generation + 1;
      PlaceRows(order);
    }

    /** Park every row below zero, then give each its place, one statement a row. */
    method PlaceRows(order: seq<nat>)
      requires Shaped(table, length) && Permutation(order, length)
      modifies this`table
      ensures Shaped(table, length)
      ensures RowsOf(table, length) == Pick(old(RowsOf(table, length)), order)
    {
      ghost var rows := RowsOf(table, length);
      ParkRows(table, rows, order);
      table := Rekey(table, LowerFrom(0));
      var k := 0;
      while k < length
        invariant k <= length && PartSorted(table, rows, order, k)
      {
        PlaceRow(table, rows, order, k);
        table := Rekey(table, Place(Below(order[k]), k));
        k := k + 1;
      }
      AllPlaced(table, rows, order);
    }

    /** The delta for a cursor: changed and new records of the first `stop`, in position order. */
    method ChangesSince(cursor: Cursor, stop: nat)
        returns (r: Result<(nat, nat, seq<(nat, Record)>)>)
      requires Valid()
      modifies this
      ensures Valid() && Now() == Flush(codec, old(Now())) && View() == old(View())
      ensures r.IndexError? <==> stop > length
      ensures r.Ok? ==> r.value == (generation, revision, Changes(codec, Now(), cursor, stop))
    {
      FlushLive();
      if stop > length { return IndexError; }
      r := Ok((generation, revision, Changes(codec, CurrentState(), cursor, stop)));
    }

    /** The state as a value, for the SELECT behind `ChangesSince`. */
    function CurrentState(): (s: State)
      reads this
      requires Shaped(table, length)
      ensures s == Now()
    {
      State(RowsOf(table, length), live, total, generation, revision)
    }

    /** An independent copy that remembers generation and revision but has no live record. */
    method Snapshot() returns (r: DiskBackedList)
      requires Valid()
      modifies this
      ensures Valid() && Now() == Flush(codec, old(Now())) && View() == old(View())
      ensures fresh(r) && r.Valid() && r.codec == codec && r.View() == View()
      ensures r.Now() == Now().(live := None)
    {
      FlushKeeps(codec, Now());
      FlushLive();
      r := new DiskBackedList(codec, []);
      r.table, r.length, r.live, r.total := table, length, None, total;
      r.generation, r.revision := generation, revision;
      assert r.Now() == Now().(live := None);
      RowsAlone(codec, r.Now(), View());
    }

    // ---------- slices ----------

    /** The records at the positions of a slice, in its order; a step of zero is refused. */
    method GetSlice(s: Slice) returns (r: Option<seq<Record>>)
      requires Valid()
      modifies this
      ensures Valid() && View() == old(View()) && (r.None? <==> s.Step() == 0)
      ensures Now() == Step(codec, old(Now()), ReadSlice(s))
      ensures r.Some? ==> forall p :: p in s.Positions(old(length)) <==> Names(s, old(length), p)
      ensures r.Some? ==> var ps := s.Positions(old(length));
                |r.value| == |ps| && forall k | 0 <= k < |ps| :: 0 <= ps[k] < |View()| && r.value[k] == View()[ps[k]]
    {
      hide Inv, DoAll;
      StepRefinesPlainList(codec, Now(), ReadSlice(s));
      NoAct(codec, Now());
      if s.Step() == 0 { return None; }
      PositionsInside(s, length);
      PositionsAre(s, length);
      var found := ReadEach(s.Positions(length));
      r := Some(found);
    }

    method ReadEach(ps: seq<int>) returns (found: seq<Record>)
      requires Valid() && forall k | 0 <= k < |ps| :: 0 <= ps[k] < length
      modifies this
      ensures Valid() && View() == old(View()) && Now() == DoAll(codec, old(Now()), Gets(ps))
      ensures |found| == |ps| && forall k | 0 <= k < |ps| :: 0 <= ps[k] < |View()| && found[k] == View()[ps[k]]
    {
      hide Inv, Get, Step, DoAll;
      NoAct(codec, Now());
      ghost var start, acts := Now(), Gets(ps);
      found := [];
      while |found| < |ps|
        invariant |found| <= |ps| && Valid() && View() == old(View()) && length == old(length)
        invariant Now() == DoAll(codec, start, acts[..|found|])
        invariant forall k | 0 <= k < |found| :: found[k] == View()[ps[k]]
      {
        DoAllSnoc(codec, start, acts, |found|);
        var record := GetItem(ps[|found|]);
        found := found + [record.value];
      }
      assert acts[..|found|] == acts;
    }

    /** Delete the positions of a slice, the highest first; a step of zero is refused. */
    method DelSlice(s: Slice) returns (ok: bool)
      requires Valid()
      modifies this
      ensures Valid() && (ok <==> s.Step() != 0)
      ensures Now() == Step(codec, old(Now()), DropSlice(s))
      ensures View() == if ok then Others(old(View()), Members(s.Positions(old(length)))) else old(View())
      ensures ok ==> forall p :: p in Members(s.Positions(old(length))) <==> Names(s, old(length), p)
    {
      StepRefinesPlainList(codec, Now(), DropSlice(s));
      ok := s.Step() != 0;
      if ok {
        PositionsAre(s, length);
        DeletePositions(s);
      }
    }

    method DeletePositions(s: Slice)
      requires Valid() && s.Step() != 0
      modifies this
      ensures Valid() && Now() == DoAll(codec, old(Now()), Deletes(Falling(s, old(length))))
    {
      var down := Falling(s, length);
      hide Inv, Delete;
      NoAct(codec, Now());
      ghost var start, acts := Now(), Deletes(down);
      var k := 0;
      while k < |down|
        invariant 0 <= k <= |down| && Valid() && length == old(length) - k
        invariant Now() == DoAll(codec, start, acts[..k])
      {
        DoAllSnoc(codec, start, acts, k);
        HighestInside(down, old(length), k);
        DeleteRow(down[k]);
        k := k + 1;
      }
      assert acts[..k] == acts;
    }

    /** Slice assignment: one by one when the lengths agree, otherwise delete and insert; refused
        when the step is zero, or when a stepped slice would change the length. */
    method SetSlice(s: Slice, values: seq<Record>) returns (ok: bool)
      requires Valid()
      modifies this
      ensures Valid() && Now() == Step(codec, old(Now()), StoreSlice(s, values))
      ensures ok <==> s.Step() == 1 || (s.Step() != 0 && |values| == |s.Positions(old(length))|)
      ensures !ok ==> View() == old(View())
      ensures s.Step() != 0 ==> var ps := s.Positions(old(length));
                (forall k | 0 <= k < |ps| :: 0 <= ps[k] < |old(View())|)
                && (|values| == |ps| ==> View() == Assigned(old(View()), ps, values, |ps|))
      ensures s.Step() == 1 ==>
                var lo, hi := s.Start(old(length)), RunEnd(s, old(length));
                && 0 <= lo <= hi <= |old(View())| && View() == old(View())[..lo] + values + old(View())[hi..]
                && (forall p :: lo <= p < hi <==> Names(s, old(length), p))
                && lo == if s.start.None? then 0
                         else if s.start.value >= old(length) then old(length)
                         else if s.start.value >= 0 then s.start.value
                         else if s.start.value + old(length) > 0 then s.start.value + old(length)
                         else 0
    {
      hide Others, Assigned, Range, Members, DoAll, Inv;
      StepRefinesPlainList(codec, Now(), StoreSlice(s, values));
      NoAct(codec, Now());
      AssignedEitherWay(View(), s, values);
      if s.Step() == 0 { return false; }
      var ps := s.Positions(length);
      PositionsInside(s, length);
      if s.Step() == 1 { RunIsNamed(s, length); }
      ok := s.Step() == 1 || |ps| == |values|;
      if ok {
        if |ps| == |values| {
          AssignEach(ps, values);
        } else {
          var start := s.Start(length);
          ghost var before := Now();
          DeletePositions(s);
          DropRunRefines(codec, before, s);
          assert length == |View()|;
          InsertAll(start, values);
          DoAllJoin(codec, before, Deletes(Falling(s, |before.rows|)), Inserts(start, values));
        }
      }
    }

    method AssignEach(ps: seq<int>, values: seq<Record>)
      requires Valid() && |ps| == |values| && forall k | 0 <= k < |ps| :: 0 <= ps[k] < length
      modifies this
      ensures Valid() && Now() == DoAll(codec, old(Now()), Sets(ps, values))
    {
      hide Inv, Set;
      NoAct(codec, Now());
      ghost var start, acts := Now(), Sets(ps, values);
      var i := 0;
      while i < |values|
        invariant 0 <= i <= |values| && length == old(length) && Valid()
        invariant Now() == DoAll(codec, start, acts[..i])
      {
        DoAllSnoc(codec, start, acts, i);
        SetRow(ps[i], values[i]);
        i := i + 1;
      }
      assert acts[..i] == acts;
    }

    method InsertAll(start: nat, values: seq<Record>)
      requires Valid() && start <= length
      modifies this
      ensures Valid() && Now() == DoAll(codec, old(Now()), Inserts(start, values))
    {
      hide Inv, Insert;
      NoAct(codec, Now());
      ghost var before, acts := Now(), Inserts(start, values);
      var i := 0;
      while i < |values|
        invariant 0 <= i <= |values| && start + i <= length && Valid()
        invariant Now() == DoAll(codec, before, acts[..i])
      {
        DoAllSnoc(codec, before, acts, i);
        InsertRow(start + i, values[i]);
        i := i + 1;
      }
      assert acts[..i] == acts;
    }
  }

  lemma LiveInside(c: Codec, s: State)
    requires Inv(c, s)
    ensures s.live.Some? ==> s.live.value.position < |s.rows|
  {}

  /** A slice of step one names the run from its start to its end. */
  lemma RunIsNamed(s: Slice, length: nat)
    requires s.Step() == 1
    ensures var ps, lo, hi := s.Positions(length), s.Start(length), RunEnd(s, length);
            && 0 <= lo <= hi <= length && |ps| == hi - lo
            && (forall k | 0 <= k < |ps| :: ps[k] == lo + k)
            && (forall p :: lo <= p < hi <==> Names(s, length, p))
            && lo == if s.start.None? then 0
                     else if s.start.value >= length then length
                     else if s.start.value >= 0 then s.start.value
                     else if s.start.value + length > 0 then s.start.value + length
                     else 0
  {
    RunPositions(s, length);
    RunStart(s, length);
    PositionsAre(s, length);
    var ps := s.Positions(length);
    hide Names, Range;
    forall p ensures s.Start(length) <= p < RunEnd(s, length) <==> Names(s, length, p) {
      assert p in ps <==> Names(s, length, p);
    }
  }

  lemma NothingRead(c: Codec, s: State, how: Sorting)
    ensures Touch(c, s, 0) == s && how.Keys(s.View(c)[..0]) == []
  {}

  lemma TouchStep(c: Codec, s: State, i: nat)
    requires i < |s.rows|
    ensures Touch(c, s, i + 1) == Get(c, Touch(c, s, i), i)
  {}

  lemma KeysStep(view: seq<Record>, how: Sorting, i: nat)
    requires i < |view|
    ensures how.Keys(view[..i + 1]) == how.Keys(view[..i]) + [how.key(view[i])]
  {}

  /** After k deletions from the highest position down, the next position is still in the list. */
  lemma {:induction false} HighestInside(down: seq<int>, length: nat, k: nat)
    requires k < |down| && forall i | 0 <= i < |down| :: 0 <= down[i] < length
    requires forall i, j | 0 <= i < j < |down| :: down[i] > down[j]
    ensures down[k] + k < length
  {
    if k > 0 { HighestInside(down, length, k - 1); }
  }

  /** Values of the right number, assigned one by one or as a run, give the same list. */
  lemma AssignedEitherWay(view: seq<Record>, s: Slice, values: seq<Record>)
    ensures s.Step() != 0 && |values| == |s.Positions(|view|)| ==>
              && (forall k | 0 <= k < |values| :: 0 <= s.Positions(|view|)[k] < |view|)
              && PlainStep(view, None, StoreSlice(s, values)) == Assigned(view, s.Positions(|view|), values, |values|)
  {
    if s.Step() != 0 && |values| == |s.Positions(|view|)| {
      PositionsInside(s, |view|);
      if s.Step() == 1 {
        RunPositions(s, |view|);
        AssignedRun(view, s.Positions(|view|), values, s.Start(|view|), |values|);
        assert values[..|values|] == values;
      }
    }
  }
}
