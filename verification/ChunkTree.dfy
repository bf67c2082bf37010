/** The shape of a stored document, and the chunk tree that represents a long list.

  A list of n elements is kept as a tree with fan-out FANOUT: leaves are `List` nodes, inner
  nodes are `Concat` nodes, every node but those on the right edge is full, and the height is the
  smallest that fits n.  `CanonTree` is the reference definition, from the root down.
  `GroupUp` is the builder that works from the leaves up, and `SequenceSetTree` replaces or
  appends one slot of an existing tree.  Both are shown to give the canonical tree. */
module ChunkTree {

  const FANOUT := 32

  datatype Option<+T> = None | Some(value: T)
  {
    function GetOr(default: T): T {
      match this case Some(v) => v case None => default
    }
  }

  datatype Scalar = Null | Bool(b: bool) | Number(text: string) | Str(s: string)

  datatype Doc =
    | Value(scalar: Scalar)
    | Object(members: seq<Member>)
    | List(items: seq<Doc>)
    | Concat(chunks: seq<Doc>)

  datatype Member = Member(name: string, doc: Doc)

  // ---------- cutting a sequence into runs of equal size ----------

  function Chunks<T>(s: seq<T>, size: nat): (r: seq<seq<T>>)
    requires size > 0
    ensures s != [] ==> r != []
  {
    if s == [] then []
    else if |s| <= size then [s]
    else [s[..size]] + Chunks(s[size..], size)
  }

  /** What a slot write does to a plain list: replace slot p, or append when p is the length. */
  function SetOrAppend<T>(s: seq<T>, p: nat, x: T): (r: seq<T>)
    requires p <= |s|
    ensures |r| == if p == |s| then |s| + 1 else |s|
    ensures forall i | 0 <= i < |r| :: r[i] == if i == p then x else s[i]
  {
    if p == |s| then s + [x] else s[p := x]
  }

  lemma {:induction false} ChunksCount<T>(s: seq<T>, size: nat, m: nat)
    requires size > 0
    ensures |s| <= m * size ==> |Chunks(s, size)| <= m
    ensures |s| > m * size ==> |Chunks(s, size)| > m
    decreases |s|
  {
    if |s| > size {
      if m == 0 {
      } else {
        ChunksCount(s[size..], size, m - 1);
        assert m * size == (m - 1) * size + size;
      }
    } else if m > 0 {
      assert m * size >= size by { MulAtLeast(m, size); }
    }
  }

  lemma MulAtLeast(m: nat, size: nat)
    requires m > 0
    ensures m * size >= size
  {
    assert m * size == (m - 1) * size + size;
  }

  lemma ChunksStep<T>(head: seq<T>, rest: seq<T>, size: nat)
    requires size > 0 && |head| == size
    ensures Chunks(head + rest, size) == [head] + Chunks(rest, size)
  {
    var s := head + rest;
    assert s[..size] == head && s[size..] == rest;
    if rest == [] { assert s == head; }
  }

  /** Cutting commutes with concatenation when the first part is a whole number of runs. */
  lemma {:induction false} ChunksSplit<T>(a: seq<T>, b: seq<T>, size: nat, m: nat)
    requires size > 0 && |a| == m * size
    ensures |Chunks(a, size)| == m
    ensures Chunks(a + b, size) == Chunks(a, size) + Chunks(b, size)
    decreases m
  {
    if m == 0 {
      assert a + b == b;
    } else {
      MulAtLeast(m, size);
      var head, rest := a[..size], a[size..];
      assert |rest| == (m - 1) * size by { assert m * size == (m - 1) * size + size; }
      ChunksSplit(rest, b, size, m - 1);
      ChunksStep(head, rest, size);
      ChunksStep(head, rest + b, size);
      assert a == head + rest && a + b == head + (rest + b);
    }
  }

  /** divmod by repeated subtraction, which is the recursion of `Chunks`. */
  function Quot(p: nat, size: nat): nat
    requires size > 0
  {
    if p < size then 0 else 1 + Quot(p - size, size)
  }

  function Rem(p: nat, size: nat): nat
    requires size > 0
  {
    if p < size then p else Rem(p - size, size)
  }

  lemma {:induction false} QuotRemMeaning(p: nat, size: nat)
    requires size > 0
    ensures p == Quot(p, size) * size + Rem(p, size) && Rem(p, size) < size
    decreases p
  {
    if p >= size {
      QuotRemMeaning(p - size, size);
      assert Quot(p, size) * size == Quot(p - size, size) * size + size;
    }
  }

  /** A slot write lands in one run, at the quotient, and inside it at the remainder. */
  ghost predicate SlotInRun<T>(s: seq<T>, size: nat, p: nat, x: T)
    requires size > 0 && p <= |s|
  {
    var c, i := Chunks(s, size), Quot(p, size);
    && i <= |c|
    && (i < |c| ==> Rem(p, size) <= |c[i]|)
    && (i == |c| ==> Rem(p, size) == 0)
    && Chunks(SetOrAppend(s, p, x), size)
       == SetOrAppend(c, i, if i < |c| then SetOrAppend(c[i], Rem(p, size), x) else [x])
  }

  lemma SlotInFirstRun<T>(s: seq<T>, size: nat, p: nat, x: T)
    requires size > 0 && p <= |s| && p < size
    ensures SlotInRun(s, size, p, x)
  {
    var s', c := SetOrAppend(s, p, x), Chunks(s, size);
    if s == [] {
      assert s' == [x];
    } else if |s| <= size {
      assert c == [s];
      assert Chunks(s', size) == [s'];
    } else {
      ChunksStep(s[..size], s[size..], size);
      ChunksStep(SetOrAppend(s[..size], p, x), s[size..], size);
      assert s == s[..size] + s[size..];
      assert s' == SetOrAppend(s[..size], p, x) + s[size..];
    }
  }

  lemma SlotPastFirstRun<T>(head: seq<T>, rest: seq<T>, size: nat, p: nat, x: T)
    requires size > 0 && |head| == size <= p <= size + |rest|
    requires SlotInRun(rest, size, p - size, x)
    ensures SlotInRun(head + rest, size, p, x)
  {
    var s, c := head + rest, Chunks(rest, size);
    ChunksStep(head, rest, size);
    ChunksStep(head, SetOrAppend(rest, p - size, x), size);
    assert SetOrAppend(s, p, x) == head + SetOrAppend(rest, p - size, x);
    var i, r := Quot(p - size, size), Rem(p - size, size);
    assert Quot(p, size) == i + 1 && Rem(p, size) == r;
    var run := if i < |c| then SetOrAppend(c[i], r, x) else [x];
    assert SetOrAppend([head] + c, i + 1, run) == [head] + SetOrAppend(c, i, run);
  }

  lemma {:induction false} ChunksSetOrAppend<T>(s: seq<T>, size: nat, p: nat, x: T)
    requires size > 0 && p <= |s|
    ensures SlotInRun(s, size, p, x)
    decreases |s|
  {
    if p < size {
      SlotInFirstRun(s, size, p, x);
    } else {
      assert s == s[..size] + s[size..];
      ChunksSetOrAppend(s[size..], size, p - size, x);
      SlotPastFirstRun(s[..size], s[size..], size, p, x);
    }
  }

  // ---------- the canonical tree ----------

  function Pow(k: nat): (r: nat)
    ensures r > 0
  {
    if k == 0 then 1 else FANOUT * Pow(k - 1)
  }

  /** The smallest height at or above h whose capacity FANOUT^(h+1) holds n elements. */
  function HeightFrom(n: nat, h: nat): (r: nat)
    ensures h <= r && n <= Pow(r + 1)
    decreases if n > Pow(h + 1) then n - Pow(h + 1) else 0
  {
    if n <= Pow(h + 1) then h else HeightFrom(n, h + 1)
  }

  function Height(n: nat): (h: nat)
    ensures n <= Pow(h + 1)
    ensures h > 0 ==> n > Pow(h)
  {
    HeightLeast(n, 0);
    HeightFrom(n, 0)
  }

  lemma {:induction false} HeightLeast(n: nat, h: nat)
    ensures HeightFrom(n, h) > h ==> n > Pow(HeightFrom(n, h))
    decreases if n > Pow(h + 1) then n - Pow(h + 1) else 0
  {
    if n > Pow(h + 1) { HeightLeast(n, h + 1); }
  }

  lemma {:induction false} PowMonotone(j: nat, k: nat)
    requires j <= k
    ensures Pow(j) <= Pow(k)
    decreases k
  {
    if j < k { PowMonotone(j, k - 1); }
  }

  lemma HeightUnique(n: nat, h: nat)
    requires n <= Pow(h + 1) && (h > 0 ==> n > Pow(h))
    ensures Height(n) == h
  {
    var g := Height(n);
    if g < h { PowMonotone(g + 1, h); }
    if h < g { PowMonotone(h + 1, g); }
  }

  function Build(items: seq<Doc>, h: nat): Doc
    decreases h
  {
    if h == 0 then List(items)
    else
      var runs := Chunks(items, Pow(h));
      Concat(seq(|runs|, i requires 0 <= i < |runs| => Build(runs[i], h - 1)))
  }

  function BuildAll(runs: seq<seq<Doc>>, h: nat): seq<Doc> {
    seq(|runs|, i requires 0 <= i < |runs| => Build(runs[i], h))
  }

  /** The reference definition of the tree for a list. */
  function CanonTree(items: seq<Doc>): Doc {
    Build(items, Height(|items|))
  }

  // ---------- the builder from the leaves up ----------

  function ConcatAll(groups: seq<seq<Doc>>): (r: seq<Doc>)
    ensures |r| == |groups|
    ensures forall i | 0 <= i < |r| :: r[i] == Concat(groups[i])
  {
    seq(|groups|, i requires 0 <= i < |groups| => Concat(groups[i]))
  }

  /** One pass of the bottom-up builder: every FANOUT neighbours become one concat node. */
  function GroupUp(level: seq<Doc>): (r: seq<Doc>)
    ensures |level| > 1 ==> 0 < |r| < |level|
  {
    if |level| > 1 then ChunksCount(level, FANOUT, |level| - 1); ConcatAll(Chunks(level, FANOUT))
    else ConcatAll(Chunks(level, FANOUT))
  }

  lemma BuildAllAppend(a: seq<seq<Doc>>, b: seq<seq<Doc>>, h: nat)
    ensures BuildAll(a + b, h) == BuildAll(a, h) + BuildAll(b, h)
  {}

  lemma GroupUpLast(items: seq<Doc>, k: nat)
    requires 0 < |items| <= Pow(k + 2)
    ensures GroupUp(BuildAll(Chunks(items, Pow(k + 1)), k)) == [Build(items, k + 1)]
  {
    ChunksCount(items, Pow(k + 1), FANOUT);
    var level := BuildAll(Chunks(items, Pow(k + 1)), k);
    assert Chunks(level, FANOUT) == [level];
  }

  lemma GroupUpFirst(head: seq<Doc>, rest: seq<Doc>, k: nat)
    requires |head| == Pow(k + 2)
    ensures GroupUp(BuildAll(Chunks(head + rest, Pow(k + 1)), k))
            == [Build(head, k + 1)] + GroupUp(BuildAll(Chunks(rest, Pow(k + 1)), k))
  {
    var size := Pow(k + 1);
    ChunksSplit(head, rest, size, FANOUT);
    BuildAllAppend(Chunks(head, size), Chunks(rest, size), k);
    var front, back := BuildAll(Chunks(head, size), k), BuildAll(Chunks(rest, size), k);
    ChunksSplit(front, back, FANOUT, 1);
    assert Chunks(front, FANOUT) == [front];
  }

  /** Grouping the runs of one level gives exactly the runs of the next. */
  lemma {:induction false} GroupUpIsNextLevel(items: seq<Doc>, k: nat)
    ensures GroupUp(BuildAll(Chunks(items, Pow(k + 1)), k))
            == BuildAll(Chunks(items, Pow(k + 2)), k + 1)
    decreases |items|
  {
    var big := Pow(k + 2);
    if items == [] {
    } else if |items| <= big {
      GroupUpLast(items, k);
      assert Chunks(items, big) == [items];
    } else {
      var head, rest := items[..big], items[big..];
      assert items == head + rest;
      GroupUpFirst(head, rest, k);
      GroupUpIsNextLevel(rest, k);
      BuildAllAppend([head], Chunks(rest, big), k + 1);
    }
  }

  // ---------- replacing or appending one slot ----------

  function ChildrenOf(t: Option<Doc>): seq<Doc> {
    match t
    case Some(List(items)) => items
    case Some(Concat(chunks)) => chunks
    case _ => []
  }

  /** The recursive patch: None when a child index lies beyond the next free one. */
  function ReplaceTree(t: Option<Doc>, level: nat, offset: nat, x: Doc): Option<Doc>
    decreases level
  {
    var children := ChildrenOf(t);
    if level == 0 then
      if offset > |children| then None else Some(List(SetOrAppend(children, offset, x)))
    else
      var index := Quot(offset, Pow(level));
      var child := ReplaceTree(ChildAt(children, index), level - 1, Rem(offset, Pow(level)), x);
      if child.None? || index > |children| then None
      else Some(Concat(SetOrAppend(children, index, child.value)))
  }

  /** Patch one slot of the tree of a list of `length` elements, growing it when it is full. */
  function SequenceSetTree(root: Doc, length: nat, position: nat, x: Doc): Option<Doc> {
    var h := Height(length);
    if length == Pow(h + 1) && position == length then
      ReplaceTree(Some(Concat([root])), h + 1, position, x)
    else
      ReplaceTree(Some(root), h, position, x)
  }

  lemma BuildAllSet(c: seq<seq<Doc>>, i: nat, run: seq<Doc>, h: nat)
    requires i <= |c|
    ensures BuildAll(SetOrAppend(c, i, run), h) == SetOrAppend(BuildAll(c, h), i, Build(run, h))
  {}

  function ChildAt(children: seq<Doc>, i: nat): Option<Doc> {
    if i < |children| then Some(children[i]) else None
  }

  /** One unfolding of the patch at an inner node: q and r are the child's index and its offset. */
  lemma ReplaceStep(t: Option<Doc>, level: nat, offset: nat, q: nat, r: nat, x: Doc,
                    children: seq<Doc>, child: Doc)
    requires level > 0 && q == Quot(offset, Pow(level)) && r == Rem(offset, Pow(level))
    requires children == ChildrenOf(t) && q <= |children|
    requires ReplaceTree(ChildAt(children, q), level - 1, r, x) == Some(child)
    ensures ReplaceTree(t, level, offset, x) == Some(Concat(SetOrAppend(children, q, child)))
  {}

  /** The patch at an inner node over the runs c, given what it does inside the run it reaches. */
  lemma ReplaceRun(c: seq<seq<Doc>>, level: nat, offset: nat, q: nat, r: nat, x: Doc, run: seq<Doc>)
    requires level > 0 && q == Quot(offset, Pow(level)) && r == Rem(offset, Pow(level)) && q <= |c|
    requires ReplaceTree(if q < |c| then Some(Build(c[q], level - 1)) else None, level - 1, r, x)
             == Some(Build(run, level - 1))
    ensures ReplaceTree(Some(Concat(BuildAll(c, level - 1))), level, offset, x)
            == Some(Concat(BuildAll(SetOrAppend(c, q, run), level - 1)))
  {
    hide Build, ReplaceTree, Quot, Rem, Pow, SetOrAppend;
    var t := Concat(BuildAll(c, level - 1));
    ReplaceStep(Some(t), level, offset, q, r, x, t.chunks, Build(run, level - 1));
    BuildAllSet(c, q, run, level - 1);
  }

  lemma BuildStep(items: seq<Doc>, level: nat, c: seq<seq<Doc>>)
    requires level > 0 && c == Chunks(items, Pow(level))
    ensures Build(items, level) == Concat(BuildAll(c, level - 1))
  {}

  lemma {:induction false} ReplaceBuilt(items: seq<Doc>, level: nat, p: nat, x: Doc, t: Doc)
    requires p <= |items| && t == Build(items, level)
    ensures ReplaceTree(Some(t), level, p, x) == Some(Build(SetOrAppend(items, p, x), level))
    decreases level
  {
    if level > 0 {
      var size := Pow(level);
      var c, q, r := Chunks(items, size), Quot(p, size), Rem(p, size);
      var items' := SetOrAppend(items, p, x);
      ChunksSetOrAppend(items, size, p, x);
      var run := if q < |c| then SetOrAppend(c[q], r, x) else [x];
      if q < |c| {
        ReplaceBuilt(c[q], level - 1, r, x, Build(c[q], level - 1));
      } else {
        ReplaceFresh(level - 1, x);
      }
      ReplaceRun(c, level, p, q, r, x, run);
      BuildStep(items, level, c);
      BuildStep(items', level, SetOrAppend(c, q, run));
    }
  }

  /** A missing child grows a fresh right-edge path holding the one new element. */
  lemma {:induction false} ReplaceFresh(level: nat, x: Doc)
    ensures ReplaceTree(None, level, 0, x) == Some(Build([x], level))
  {
    if level > 0 {
      ReplaceFresh(level - 1, x);
      var child := Build([x], level - 1);
      ReplaceStep(None, level, 0, 0, 0, x, [], child);
      assert SetOrAppend([], 0, child) == [child];
      BuildStep([x], level, [[x]]);
      assert BuildAll([[x]], level - 1) == [child];
    } else {
      assert SetOrAppend([], 0, x) == [x];
    }
  }

  lemma GrownTree(items: seq<Doc>, h: nat)
    requires |items| == Pow(h + 1)
    ensures Build(items, h + 1) == Concat([Build(items, h)])
  {
    assert Chunks(items, Pow(h + 1)) == [items];
    assert BuildAll([items], h) == [Build(items, h)];
  }

  /** The patched canonical tree is the canonical tree of the patched list, for every length. */
  lemma SequenceSetIsCanonical(items: seq<Doc>, p: nat, x: Doc)
    requires p <= |items|
    ensures SequenceSetTree(CanonTree(items), |items|, p, x)
            == Some(CanonTree(SetOrAppend(items, p, x)))
  {
    hide Build, Chunks;
    var n, n' := |items|, |SetOrAppend(items, p, x)|;
    var h := Height(n);
    if n == Pow(h + 1) && p == n {
      GrownTree(items, h);
      ReplaceBuilt(items, h + 1, p, x, Build(items, h + 1));
      assert n' <= Pow(h + 2) by { assert Pow(h + 2) == FANOUT * Pow(h + 1); }
      HeightUnique(n', h + 1);
    } else {
      ReplaceBuilt(items, h, p, x, CanonTree(items));
      HeightUnique(n', h);
    }
  }
}
