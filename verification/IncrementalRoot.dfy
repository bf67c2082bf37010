/** The incremental snapshot of a list gives the tree a snapshot from scratch would give.

  `Changes` is the delta a list hands out for a cursor; `FastRoot` patches the tree saved with
  that cursor, or rebuilds when the cursor is stale.  A run mixes list operations, snapshots and
  loss of the saved cursor in any order. */
module IncrementalRoot {
  import opened ChunkTree
  import opened Spool
  import opened ListHistory

  // ---------- the delta ----------

  /** The rows at or after k that a reader of the first `stop` records has to be told about. */
  function ChangedFrom(c: Codec, rows: seq<Row>, revision: int, length: nat, k: nat, stop: nat)
      : seq<(nat, Record)>
    requires stop <= |rows|
    decreases stop - k
  {
    if k >= stop then []
    else
      var rest := ChangedFrom(c, rows, revision, length, k + 1, stop);
      if k >= length || rows[k].revision > revision then [(k, c.loads(rows[k].payload))] + rest
      else rest
  }

  /** A cursor of another generation, or past the requested stop, selects everything. */
  function Changes(c: Codec, s: State, cur: Cursor, stop: nat): seq<(nat, Record)>
    requires stop <= |s.rows|
  {
    if cur.generation != s.generation || stop < cur.length then
      ChangedFrom(c, s.rows, -1, 0, 0, stop)
    else
      ChangedFrom(c, s.rows, cur.revision, cur.length, 0, stop)
  }

  /** Overwrite or extend a list pair by pair; None if a pair would leave a gap. */
  function ApplyAll<T>(base: seq<T>, pairs: seq<(nat, T)>): Option<seq<T>>
    decreases |pairs|
  {
    if pairs == [] then Some(base)
    else if pairs[0].0 > |base| then None
    else ApplyAll(SetOrAppend(base, pairs[0].0, pairs[0].1), pairs[1..])
  }

  ghost predicate Ascending<T>(pairs: seq<(nat, T)>, lo: nat, hi: nat) {
    && (forall i | 0 <= i < |pairs| :: lo <= pairs[i].0 < hi)
    && (forall i, j | 0 <= i < j < |pairs| :: pairs[i].0 < pairs[j].0)
  }

  lemma {:induction false} ChangedAscending(c: Codec, rows: seq<Row>, revision: int, length: nat,
                                            k: nat, stop: nat)
    requires stop <= |rows|
    ensures Ascending(ChangedFrom(c, rows, revision, length, k, stop), k, stop)
    decreases stop - k
  {
    if k < stop { ChangedAscending(c, rows, revision, length, k + 1, stop); }
  }

  /** The positions a delta tells about. */
  function Told<T>(pairs: seq<(nat, T)>): set<nat> {
    set i | 0 <= i < |pairs| :: pairs[i].0
  }

  /** Told are exactly the rows that are new or of a later revision. */
  lemma {:induction false} ChangedExactly(c: Codec, rows: seq<Row>, revision: int, length: nat, k: nat, stop: nat)
    requires stop <= |rows|
    ensures forall p: nat :: p in Told(ChangedFrom(c, rows, revision, length, k, stop)) <==>
              k <= p < stop && (p >= length || rows[p].revision > revision)
    decreases stop - k
  {
    if k < stop {
      ChangedExactly(c, rows, revision, length, k + 1, stop);
      var rest := ChangedFrom(c, rows, revision, length, k + 1, stop);
      ToldCons((k, c.loads(rows[k].payload)), rest);
    }
  }

  lemma ToldCons<T>(pair: (nat, T), rest: seq<(nat, T)>)
    ensures Told([pair] + rest) == {pair.0} + Told(rest)
  {
    var all := [pair] + rest;
    forall p | p in Told(rest) ensures p in Told(all) {
      var i :| 0 <= i < |rest| && rest[i].0 == p;
      assert all[i + 1].0 == p;
    }
    assert all[0].0 == pair.0;
  }

  /** The delta is minimal: for a cursor of this generation within the requested stop it tells about
      exactly the records that were added since or whose row has been written since. */
  lemma DeltaIsMinimal(c: Codec, t: State, cur: Cursor, stop: nat)
    requires stop <= |t.rows| && cur.generation == t.generation && cur.length <= stop
    ensures forall p: nat :: p in Told(Changes(c, t, cur, stop)) <==>
              p < stop && (p >= cur.length || t.rows[p].revision > cur.revision)
  {
    ChangedExactly(c, t.rows, cur.revision, cur.length, 0, stop);
  }

  /** The list after the pairs below k: new records in front, the remembered ones behind. */
  function Patched(view: seq<Record>, prefix: seq<Record>, k: nat): (r: seq<Record>)
    requires k <= |view|
    ensures |r| == if k <= |prefix| then |prefix| else k
  {
    if k <= |prefix| then view[..k] + prefix[k..] else view[..k]
  }

  lemma ApplyStep<T>(base: seq<T>, p: nat, x: T, rest: seq<(nat, T)>)
    requires p <= |base|
    ensures ApplyAll(base, [(p, x)] + rest) == ApplyAll(SetOrAppend(base, p, x), rest)
  {
    assert ([(p, x)] + rest)[1..] == rest;
  }

  lemma PatchedStep(view: seq<Record>, prefix: seq<Record>, k: nat)
    requires k < |view|
    ensures SetOrAppend(Patched(view, prefix, k), k, view[k]) == Patched(view, prefix, k + 1)
  {}

  lemma {:induction false} ChangedCompletes(c: Codec, rows: seq<Row>, view: seq<Record>, revision: int,
                                            prefix: seq<Record>, k: nat, stop: nat)
    requires k <= stop <= |rows| && |rows| == |view| && |prefix| <= stop
    requires forall i | 0 <= i < |rows| :: c.loads(rows[i].payload) == view[i]
    requires forall i | 0 <= i < |prefix| :: rows[i].revision > revision || view[i] == prefix[i]
    ensures ApplyAll(Patched(view, prefix, k), ChangedFrom(c, rows, revision, |prefix|, k, stop))
            == Some(view[..stop])
    decreases stop - k
  {
    var base := Patched(view, prefix, k);
    if k < stop {
      ChangedCompletes(c, rows, view, revision, prefix, k + 1, stop);
      PatchedStep(view, prefix, k);
      if k >= |prefix| || rows[k].revision > revision {
        ApplyStep(base, k, view[k], ChangedFrom(c, rows, revision, |prefix|, k + 1, stop));
      } else {
        assert base == SetOrAppend(base, k, view[k]);
      }
    } else {
      assert base == view[..stop];
    }
  }

  /** The delta is complete and minimal in order: applied to what the cursor remembers it gives
      the first `stop` records as they are now. */
  lemma DeltaCompletes(c: Codec, s: State, cur: Cursor, prefix: seq<Record>, stop: nat)
    requires Inv(c, s) && Fits(c, s, cur, prefix) && stop <= |s.rows|
    ensures var t := Flush(c, s);
            && Ascending(Changes(c, t, cur, stop), 0, stop)
            && ApplyAll(if cur.generation == t.generation && cur.length <= stop then prefix else [],
                        Changes(c, t, cur, stop))
               == Some(s.View(c)[..stop])
  {
    FlushKeeps(c, s);
    FitsAfterFlush(c, s, cur, prefix);
    var t, view := Flush(c, s), s.View(c);
    if cur.generation == t.generation && cur.length <= stop {
      ChangedAscending(c, t.rows, cur.revision, cur.length, 0, stop);
      ChangedCompletes(c, t.rows, view, cur.revision, prefix, 0, stop);
      assert Patched(view, prefix, 0) == prefix;
    } else {
      ChangesFromNothing(c, s, cur, stop);
    }
  }

  /** Without a usable cursor the delta is every record, in order. */
  lemma ChangesFromNothing(c: Codec, s: State, cur: Cursor, stop: nat)
    requires Inv(c, s) && stop <= |s.rows|
    requires cur.generation != s.generation || stop < cur.length
    ensures var pairs := Changes(c, Flush(c, s), cur, stop);
            && Ascending(pairs, 0, stop)
            && ApplyAll([], pairs) == Some(s.View(c)[..stop])
            && pairs == seq(stop, i requires 0 <= i < stop => (i, s.View(c)[i]))
  {
    FlushKeeps(c, s);
    var t := Flush(c, s);
    ChangedAscending(c, t.rows, -1, 0, 0, stop);
    ChangedCompletes(c, t.rows, s.View(c), -1, [], 0, stop);
    assert Patched(s.View(c), [], 0) == [];
    ChangedIsEverything(c, t.rows, s.View(c), 0, stop);
  }

  lemma {:induction false} ChangedIsEverything(c: Codec, rows: seq<Row>, view: seq<Record>, k: nat, stop: nat)
    requires k <= stop <= |rows| && |rows| == |view|
    requires forall i | 0 <= i < |rows| :: c.loads(rows[i].payload) == view[i]
    ensures ChangedFrom(c, rows, -1, 0, k, stop)
            == seq(stop - k, i requires 0 <= i < stop - k => (k + i, view[k + i]))
    decreases stop - k
  {
    if k < stop { ChangedIsEverything(c, rows, view, k + 1, stop); }
  }

  // ---------- the incremental root ----------

  /** What is remembered of the last snapshot of one list. */
  datatype Saved = Saved(generation: nat, revision: nat, length: nat, root: Doc)

  function CursorOf(saved: Option<Saved>): Cursor {
    match saved
    case None => Cursor(-1, -1, 0)
    case Some(v) => Cursor(v.generation, v.revision, v.length)
  }

  function Docs(enc: Record -> Doc, records: seq<Record>): seq<Doc> {
    seq(|records|, i requires 0 <= i < |records| => enc(records[i]))
  }

  /** Patch the remembered tree with each pair in turn. */
  function PatchAll(enc: Record -> Doc, root: Doc, length: nat, pairs: seq<(nat, Record)>): Option<Doc>
    decreases |pairs|
  {
    if pairs == [] then Some(root)
    else
      var (p, record) := pairs[0];
      var next := SequenceSetTree(root, length, p, enc(record));
      if next.None? then None
      else PatchAll(enc, next.value, if p + 1 > length then p + 1 else length, pairs[1..])
  }

  function Records(pairs: seq<(nat, Record)>): seq<Record> {
    seq(|pairs|, i requires 0 <= i < |pairs| => pairs[i].1)
  }

  /** The root a snapshot of the first `stop` records stores, from a flushed list. */
  function FastRoot(c: Codec, enc: Record -> Doc, t: State, saved: Option<Saved>, stop: nat): Option<Doc>
    requires stop <= |t.rows|
  {
    var pairs := Changes(c, t, CursorOf(saved), stop);
    if saved.Some? && saved.value.generation == t.generation && saved.value.length <= stop then
      PatchAll(enc, saved.value.root, saved.value.length, pairs)
    else
      Some(CanonTree(Docs(enc, Records(pairs))))
  }

  lemma PatchStep(enc: Record -> Doc, root: Doc, length: nat, p: nat, record: Record,
                  rest: seq<(nat, Record)>, next: Doc)
    requires SequenceSetTree(root, length, p, enc(record)) == Some(next)
    ensures PatchAll(enc, root, length, [(p, record)] + rest)
            == PatchAll(enc, next, if p + 1 > length then p + 1 else length, rest)
  {
    assert ([(p, record)] + rest)[1..] == rest;
  }

  lemma DocsSet(enc: Record -> Doc, records: seq<Record>, p: nat, record: Record)
    requires p <= |records|
    ensures |Docs(enc, records)| == |records|
    ensures Docs(enc, SetOrAppend(records, p, record)) == SetOrAppend(Docs(enc, records), p, enc(record))
  {}

  lemma {:induction false} PatchAllIsCanonical(enc: Record -> Doc, base: seq<Record>,
                                               pairs: seq<(nat, Record)>, result: seq<Record>)
    requires ApplyAll(base, pairs) == Some(result)
    ensures PatchAll(enc, CanonTree(Docs(enc, base)), |base|, pairs) == Some(CanonTree(Docs(enc, result)))
    decreases |pairs|
  {
    hide SequenceSetTree, CanonTree, Docs;
    if pairs != [] {
      var (p, record) := pairs[0];
      var base', rest := SetOrAppend(base, p, record), pairs[1..];
      assert pairs == [(p, record)] + rest;
      DocsSet(enc, base, p, record);
      SequenceSetIsCanonical(Docs(enc, base), p, enc(record));
      PatchAllIsCanonical(enc, base', rest, result);
      PatchStep(enc, CanonTree(Docs(enc, base)), |base|, p, record, rest, CanonTree(Docs(enc, base')));
    }
  }

  ghost predicate SavedGood(c: Codec, enc: Record -> Doc, s: State, saved: Saved, prefix: seq<Record>) {
    && Fits(c, s, CursorOf(Some(saved)), prefix)
    && saved.root == CanonTree(Docs(enc, prefix))
  }

  /** The fast root refines the simple one: it is the canonical tree of the current records. */
  lemma FastRootIsCanonical(c: Codec, enc: Record -> Doc, s: State, saved: Option<Saved>,
                            prefix: seq<Record>, stop: nat)
    requires Inv(c, s) && stop <= |s.rows|
    requires saved.Some? ==> SavedGood(c, enc, s, saved.value, prefix)
    ensures FastRoot(c, enc, Flush(c, s), saved, stop)
            == Some(CanonTree(Docs(enc, s.View(c)[..stop])))
  {
    FlushKeeps(c, s);
    var t, cur := Flush(c, s), CursorOf(saved);
    var pairs := Changes(c, t, cur, stop);
    if saved.Some? && saved.value.generation == t.generation && saved.value.length <= stop {
      DeltaCompletes(c, s, cur, prefix, stop);
      PatchAllIsCanonical(enc, prefix, pairs, s.View(c)[..stop]);
    } else {
      ChangesFromNothing(c, s, cur, stop);
      assert Records(pairs) == s.View(c)[..stop];
    }
  }

  // ---------- whole runs ----------

  datatype Event = Mutate(op: Op) | Save(stop: nat) | Forget

  datatype System = System(list: State, saved: Option<Saved>)

  /** A save past the end of the list is refused and keeps what was remembered. */
  function StepSystem(c: Codec, enc: Record -> Doc, sys: System, e: Event): System {
    match e
    case Mutate(op) => sys.(list := Step(c, sys.list, op))
    case Forget => sys.(saved := None)
    case Save(stop) =>
      var t := Flush(c, sys.list);
      if stop > |t.rows| then sys.(list := t)
      else
        var root := FastRoot(c, enc, t, sys.saved, stop);
        if root.None? then sys.(list := t)
        else System(t, Some(Saved(t.generation, t.revision, stop, root.value)))
  }

  function RunSystem(c: Codec, enc: Record -> Doc, sys: System, events: seq<Event>): System
    decreases |events|
  {
    if events == [] then sys
    else StepSystem(c, enc, RunSystem(c, enc, sys, events[..|events| - 1]), events[|events| - 1])
  }

  const START := System(State([], None, 0, 0, 0), None)

  ghost predicate SysInv(c: Codec, enc: Record -> Doc, sys: System) {
    && Inv(c, sys.list)
    && (sys.saved.Some? ==> exists prefix :: SavedGood(c, enc, sys.list, sys.saved.value, prefix))
  }

  lemma StepKeepsSysInv(c: Codec, enc: Record -> Doc, sys: System, e: Event)
    requires SysInv(c, enc, sys)
    ensures SysInv(c, enc, StepSystem(c, enc, sys, e))
  {
    var prefix: seq<Record> :| sys.saved.Some? ==> SavedGood(c, enc, sys.list, sys.saved.value, prefix);
    match e
    case Mutate(op) =>
      StepRefinesPlainList(c, sys.list, op);
      if sys.saved.Some? {
        FitsAfterStep(c, sys.list, op, CursorOf(sys.saved), prefix);
        assert SavedGood(c, enc, Step(c, sys.list, op), sys.saved.value, prefix);
      }
    case Forget =>
    case Save(stop) =>
      SaveKeepsSysInv(c, enc, sys, prefix, stop);
  }

  lemma SaveKeepsSysInv(c: Codec, enc: Record -> Doc, sys: System, prefix: seq<Record>, stop: nat)
    requires SysInv(c, enc, sys)
    requires sys.saved.Some? ==> SavedGood(c, enc, sys.list, sys.saved.value, prefix)
    ensures SysInv(c, enc, StepSystem(c, enc, sys, Save(stop)))
  {
    var t := Flush(c, sys.list);
    FlushKeeps(c, sys.list);
    if stop > |t.rows| {
      if sys.saved.Some? {
        FitsAfterFlush(c, sys.list, CursorOf(sys.saved), prefix);
        assert SavedGood(c, enc, t, sys.saved.value, prefix);
      }
    } else {
      FastRootIsCanonical(c, enc, sys.list, sys.saved, prefix, stop);
      var now := sys.list.View(c)[..stop];
      var saved := Saved(t.generation, t.revision, stop, CanonTree(Docs(enc, now)));
      assert SavedGood(c, enc, t, saved, now);
    }
  }

  /** A save remembers where it stood: saved again at once, no record is handed out, and the root is the
      one remembered. */
  lemma SavedTwiceHandsOutNothing(c: Codec, enc: Record -> Doc, sys: System, stop: nat)
    requires SysInv(c, enc, sys) && stop <= |sys.list.rows|
    ensures var after := StepSystem(c, enc, sys, Save(stop));
            && after.saved.Some? && after.saved.value.length == stop <= |Flush(c, after.list).rows|
            && Changes(c, Flush(c, after.list), CursorOf(after.saved), stop) == []
            && FastRoot(c, enc, Flush(c, after.list), after.saved, stop) == Some(after.saved.value.root)
  {
    var prefix: seq<Record> :| sys.saved.Some? ==> SavedGood(c, enc, sys.list, sys.saved.value, prefix);
    FastRootIsCanonical(c, enc, sys.list, sys.saved, prefix, stop);
    FlushKeeps(c, sys.list);
    var t := Flush(c, sys.list);
    FlushTwice(c, sys.list);
    var after := StepSystem(c, enc, sys, Save(stop));
    DeltaIsMinimal(c, t, CursorOf(after.saved), stop);
    NothingTold(Changes(c, t, CursorOf(after.saved), stop));
    hide Flush, SysInv, SavedGood, Changes;
    assert forall p: nat | p < stop :: t.rows[p].revision <= t.revision;
  }

  /** What was just written back is not written back again. */
  lemma FlushTwice(c: Codec, s: State)
    ensures Flush(c, Flush(c, s)) == Flush(c, s)
  {}

  lemma NothingTold<T>(pairs: seq<(nat, T)>)
    ensures Told(pairs) == {} ==> pairs == []
  {
    if pairs != [] { assert pairs[0].0 in Told(pairs); }
  }

  lemma {:induction false} RunKeepsSysInv(c: Codec, enc: Record -> Doc, events: seq<Event>)
    requires c.Lossless()
    ensures SysInv(c, enc, RunSystem(c, enc, START, events))
    decreases |events|
  {
    if events != [] {
      RunKeepsSysInv(c, enc, events[..|events| - 1]);
      StepKeepsSysInv(c, enc, RunSystem(c, enc, START, events[..|events| - 1]), events[|events| - 1]);
    }
  }

  /** After any history of edits, inserts, deletes, slice operations, sorts, snapshots and lost
      cursors, the next snapshot's root is the tree a build from scratch gives for the records now
      in the list. */
  lemma EveryRootIsScratchRoot(c: Codec, enc: Record -> Doc, events: seq<Event>, stop: nat)
    requires c.Lossless()
    requires stop <= |RunSystem(c, enc, START, events).list.rows|
    ensures var sys := RunSystem(c, enc, START, events);
            FastRoot(c, enc, Flush(c, sys.list), sys.saved, stop)
            == Some(CanonTree(Docs(enc, sys.list.View(c)[..stop])))
  {
    RunKeepsSysInv(c, enc, events);
    var sys := RunSystem(c, enc, START, events);
    var prefix: seq<Record> :| sys.saved.Some? ==> SavedGood(c, enc, sys.list, sys.saved.value, prefix);
    FastRootIsCanonical(c, enc, sys.list, sys.saved, prefix, stop);
  }
}
