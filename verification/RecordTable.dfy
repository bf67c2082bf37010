/** The table of records as one save writes it: rows go in once, through a bounded cache, and the
    nodes of a list are put leaf by leaf, level by level, or patched along one path. */
module RecordTable {
  import opened ChunkTree
  import opened Records
  import opened RecordReader

  const CACHE_BYTES := 64 * 1024
  const CACHE_ENTRIES := 1024

  datatype SaveError = Collision | NotJson | OutOfRange

  datatype Attempt<+T> = Good(value: T) | Bad(error: SaveError)

  /** INSERT OR IGNORE followed by the comparison of the payload that is there. */
  function PutRow(h: Hash, s: Store, n: Node): Option<Store> {
    if h(n) in s then (if s[h(n)] == n then Some(s) else None) else Some(s[h(n) := n])
  }

  type Cache = seq<(Digest, Node)>

  function Find(cache: Cache, d: Digest): (r: Option<nat>)
    ensures r.Some? ==> r.value < |cache| && cache[r.value].0 == d
    ensures r.None? ==> forall i | 0 <= i < |cache| :: cache[i].0 != d
  {
    if cache == [] then None
    else if cache[|cache| - 1].0 == d then Some(|cache| - 1)
    else Find(cache[..|cache| - 1], d)
  }

  function Bytes(size: Node -> nat, cache: Cache): nat {
    if cache == [] then 0 else Bytes(size, cache[1..]) + size(cache[0].1)
  }

  lemma {:induction false} BytesJoin(size: Node -> nat, a: Cache, b: Cache)
    ensures Bytes(size, a + b) == Bytes(size, a) + Bytes(size, b)
  {
    if a == [] {
      assert a + b == b;
    } else {
      assert (a + b)[1..] == a[1..] + b;
      BytesJoin(size, a[1..], b);
    }
  }

  predicate TooBig(size: Node -> nat, cache: Cache) {
    Bytes(size, cache) > CACHE_BYTES || |cache| > CACHE_ENTRIES
  }

  /** The oldest entries are gone, as few as it takes. */
  ghost predicate Evicted(size: Node -> nat, before: Cache, after: Cache) {
    exists k | 0 <= k <= |before| ::
      after == before[k..] && !TooBig(size, after) && forall j | 0 <= j < k :: TooBig(size, before[j..])
  }

  /** An entry that fits by itself is never evicted while it is the newest. */
  lemma NewestStays(size: Node -> nat, before: Cache, after: Cache)
    requires Evicted(size, before, after) && before != [] && size(before[|before| - 1].1) <= CACHE_BYTES
    ensures after != [] && after[|after| - 1] == before[|before| - 1]
  {
    var n := |before| - 1;
    assert before[n..] == [before[n]];
    assert Bytes(size, [before[n]]) == Bytes(size, []) + size(before[n].1);
    assert !TooBig(size, before[n..]);
  }

  /** A cache entry is always a row of the table, and no digest is cached twice. */
  ghost predicate Mirrors(h: Hash, size: Node -> nat, s: Store, cache: Cache) {
    && (forall i | 0 <= i < |cache| ::
          cache[i].0 in s && s[cache[i].0] == cache[i].1 && h(cache[i].1) == cache[i].0
          && size(cache[i].1) <= CACHE_BYTES)
    && (forall i, j | 0 <= i < j < |cache| :: cache[i].0 != cache[j].0)
  }

  /** The connection a save writes through, with the cache of that save. */
  class RecordTable {
    const hash: Hash
    const size: Node -> nat
    var records: Store
    var caching: bool
    var cache: Cache
    var cacheBytes: int
    /** Moves whenever another connection commits. */
    var version: nat

    constructor (hash: Hash, size: Node -> nat, records: Store)
      ensures this.hash == hash && this.size == size && this.records == records && !caching
    {
      this.hash, this.size, this.records := hash, size, records;
      caching, cache, cacheBytes, version := false, [], 0, 0;
    }

    /** Another connection may leave any rows behind. */
    method CommitElsewhere(rows: Store)
      modifies this`records, this`version
      ensures records == rows && version == old(version) + 1
    {
      records, version := rows, version + 1;
    }

    ghost predicate CacheOk()
      reads this
    {
      && Mirrors(hash, size, records, cache)
      && cacheBytes == Bytes(size, cache)
      && cacheBytes <= CACHE_BYTES && |cache| <= CACHE_ENTRIES
    }

    /** Store one node; the cache changes nothing but the work done. */
    method Put(n: Node) returns (r: Attempt<Digest>)
      requires caching ==> CacheOk()
      modifies this`records, this`cache, this`cacheBytes
      ensures var row := PutRow(hash, old(records), n);
              && (row.None? ==> r == Bad(Collision) && records == old(records))
              && (row.Some? ==> r == Good(hash(n)) && records == row.value)
      ensures r.Bad? <==> hash(n) in old(records) && old(records)[hash(n)] != n
      ensures r.Good? ==> r.value == hash(n) && records == old(records)[hash(n) := n]
      ensures caching ==> Mirrors(hash, size, records, cache)
                          && cacheBytes <= CACHE_BYTES && |cache| <= CACHE_ENTRIES
                          && cacheBytes == Bytes(size, cache) + Stale(r, old(cache), n)
      ensures caching && r.Good? && size(n) <= CACHE_BYTES ==>
                cache != [] && cache[|cache| - 1] == (hash(n), n)
    {
      hide Bytes;
      var digest := hash(n);
      if caching {
        var hit := Find(cache, digest);
        if hit.Some? {
          var previous := cache[hit.value];
          MoveToEnd(hash, size, records, cache, hit.value);
          cache := cache[..hit.value] + cache[hit.value + 1..];
          if previous.1 != n { return Bad(Collision); }
          cache := cache + [previous];
          return Good(digest);
        }
      }
      if digest in records {
        if records[digest] != n { return Bad(Collision); }
      } else {
        records := records[digest := n];
      }
      if caching && size(n) <= CACHE_BYTES {
        AppendFresh(hash, size, records, cache, digest, n);
        cache := cache + [(digest, n)];
        cacheBytes := cacheBytes + size(n);
        ghost var before := cache;
        Evict();
        NewestStays(size, before, cache);
      }
      r := Good(digest);
    }

    /** What the byte counter is too high by: an entry of another payload under the same digest has
        been taken out of the cache, and the call has failed. */
    ghost function Stale(r: Attempt<Digest>, before: Cache, n: Node): nat {
      var hit := Find(before, hash(n));
      if r.Bad? && hit.Some? then size(before[hit.value].1) else 0
    }

    /** Drop the oldest entries, and no more of them than it takes until both bounds hold. */
    method Evict()
      requires Mirrors(hash, size, records, cache) && cacheBytes == Bytes(size, cache)
      modifies this`cache, this`cacheBytes
      ensures CacheOk() && Evicted(size, old(cache), cache)
    {
      ghost var k := 0;
      while cacheBytes > CACHE_BYTES || |cache| > CACHE_ENTRIES
        invariant Mirrors(hash, size, records, cache) && cacheBytes == Bytes(size, cache)
        invariant k <= |old(cache)| && cache == old(cache)[k..]
        invariant forall j | 0 <= j < k :: TooBig(size, old(cache)[j..])
        decreases |cache|
      {
        var removed := cache[0];
        k := k + 1;
        assert Bytes(size, cache) == Bytes(size, cache[1..]) + size(removed.1);
        cache := cache[1..];
        cacheBytes := cacheBytes - size(removed.1);
      }
    }

    /** Put the node of a document whose parts are stored already. */
    method PutDoc(n: Node, ghost d: Doc) returns (r: Attempt<Digest>)
      requires caching ==> CacheOk()
      requires n == NodeOf(hash, d) && AllHeld(hash, records, Parts(d))
      modifies this`records, this`cache, this`cacheBytes
      ensures Extends(hash, old(records), records)
              && (r.Bad? ==> r.error == Collision && Clashes(hash, old(records)))
      ensures r.Good? ==> Stored(r.value, d)
    {
      hide Tidy, Clashes;
      RefsAreHeld(hash, records, d);
      PutExtends(hash, records, n);
      r := Put(n);
      if r.Good? {
        AllHeldGrows(hash, old(records), records, Parts(d));
        HeldFromParts(hash, records, d);
      }
    }

    ghost predicate Stored(digest: Digest, d: Doc)
      reads this
    {
      digest == Root(hash, d) && Held(hash, records, d) && (caching ==> CacheOk())
    }

    // ---------- patching one slot ----------

    /** The references of the node to patch; none when the path does not exist yet. */
    method ChildrenOf(reference: Option<Digest>, ghost d: Doc) returns (children: seq<Digest>)
      requires reference.Some? ==> reference.value == Root(hash, d) && Held(hash, records, d)
      requires reference.None? ==> Parts(d) == []
      requires !d.Object?
      ensures children == Roots(hash, Parts(d)) && AllHeld(hash, records, Parts(d))
      ensures |children| == |Parts(d)| && forall i | 0 <= i < |children| :: children[i] == Root(hash, Parts(d)[i])
    {
      children := [];
      if reference.Some? {
        PartsHeld(hash, records, d);
        assert NodeAt(hash, records, reference.value) == Some(NodeOf(hash, d));
        children := RefsOf(NodeAt(hash, records, reference.value).value);
      }
    }

    /** The recursive patch of the tree of `items`, or a fresh path when there is no tree yet. */
    method Replace(reference: Option<Digest>, level: nat, offset: nat, digest: Digest,
                   ghost items: seq<Doc>, ghost x: Doc) returns (r: Attempt<Digest>)
      requires offset <= |items| && Stored(digest, x)
      requires reference.None? ==> items == []
      requires reference.Some? ==> reference.value == Root(hash, Build(items, level))
                                   && Held(hash, records, Build(items, level))
      modifies this`records, this`cache, this`cacheBytes
      ensures Extends(hash, old(records), records)
              && (r.Bad? ==> r.error == Collision && Clashes(hash, old(records)))
      ensures r.Good? ==> Stored(r.value, Build(SetOrAppend(items, offset, x), level))
      decreases level
    {
      hide Held, NodeOf, Root, Roots;
      ghost var kids := Parts(Build(items, level));
      if items == [] { NoParts(level); }
      var children := ChildrenOf(reference, Build(items, level));
      if level == 0 {
        LeafIs(items);
        ChildSet(hash, records, items, offset, x);
        children := SetOrAppend(children, offset, digest);
        r := PutDoc(ListNode(children), List(SetOrAppend(items, offset, x)));
      } else {
        hide Build;
        var index, rest := Quot(offset, Pow(level)), Rem(offset, Pow(level));
        ghost var run := RunAt(items, level, index);
        PatchedRun(items, level, offset, x);
        var child := Replace(if index < |children| then Some(children[index]) else None,
                             level - 1, rest, digest, run, x);
        if child.Bad? { return child; }
        AllHeldGrows(hash, old(records), records, kids);
        ChildSet(hash, records, kids, index, Build(SetOrAppend(run, rest, x), level - 1));
        children := SetOrAppend(children, index, child.value);
        r := PutDoc(ConcatNode(children),
                    Concat(SetOrAppend(kids, index, Build(SetOrAppend(run, rest, x), level - 1))));
      }
    }

    /** Replace or append one element of a saved list, growing the tree when it is full. */
    method SequenceSet(root: Digest, length: nat, position: nat, digest: Digest,
                       ghost items: seq<Doc>, ghost x: Doc) returns (r: Attempt<Digest>)
      requires position <= length == |items| && Stored(digest, x)
      requires Stored(root, CanonTree(items))
      modifies this`records, this`cache, this`cacheBytes
      ensures Extends(hash, old(records), records)
              && (r.Bad? ==> r.error == Collision && Clashes(hash, old(records)))
      ensures r.Good? ==> Stored(r.value, CanonTree(SetOrAppend(items, position, x)))
    {
      hide Tidy, Clashes, Build, Height;
      var height, capacity := 0, FANOUT;
      while length > capacity
        invariant capacity == Pow(height + 1) && (height > 0 ==> length > Pow(height))
        decreases length - capacity
      {
        height := height + 1;
        capacity := capacity * FANOUT;
      }
      HeightUnique(length, height);
      ghost var n := |SetOrAppend(items, position, x)|;
      if length == capacity && position == length {
        GrownTree(items, height);
        var wrapped := PutDoc(ConcatNode([root]), Concat([CanonTree(items)]));
        if wrapped.Bad? { return wrapped; }
        HeldGrows(hash, old(records), records, x);
        height := height + 1;
        HeightUnique(n, height);
        r := Replace(Some(wrapped.value), height, position, digest, items, x);
      } else {
        HeightUnique(n, height);
        r := Replace(Some(root), height, position, digest, items, x);
      }
    }

    // ---------- building a list from scratch ----------

    /** Concat nodes level by level until one chunk is left. */
    method GroupLevels(leaves: seq<Digest>, ghost docs: seq<Doc>) returns (r: Attempt<Digest>)
      requires caching ==> CacheOk()
      requires leaves == Roots(hash, LeafLevel(docs)) && AllHeld(hash, records, LeafLevel(docs))
      modifies this`records, this`cache, this`cacheBytes
      ensures Extends(hash, old(records), records)
              && (r.Bad? ==> r.error == Collision && Clashes(hash, old(records)))
      ensures r.Good? ==> Stored(r.value, CanonTree(docs))
    {
      hide Tidy, Clashes, Held, NodeOf, Root, GroupUp, Height;
      var chunks := leaves;
      ghost var k, level := 0, LeafLevel(docs);
      while |chunks| > 1
        invariant Extends(hash, old(records), records) && (caching ==> CacheOk())
        invariant chunks == Roots(hash, level) && AllHeld(hash, records, level)
        invariant if docs == [] then level == [List([])] else level == BuildAll(Chunks(docs, Pow(k + 1)), k)
        invariant k > 0 ==> |docs| > Pow(k)
        decreases |chunks|
      {
        ChunksCount(docs, Pow(k + 1), 1);
        GroupUpIsNextLevel(docs, k);
        var next := GroupLevel(chunks, level);
        if next.Bad? { return Bad(next.error); }
        assert |GroupUp(level)| < |level|;
        chunks, level, k := next.value, GroupUp(level), k + 1;
      }
      ChunksCount(docs, Pow(k + 1), 1);
      HeightUnique(|docs|, k);
      assert docs != [] ==> Chunks(docs, Pow(k + 1)) == [docs];
      assert level == [CanonTree(docs)];
      r := Good(chunks[0]);
    }

    method GroupLevel(chunks: seq<Digest>, ghost level: seq<Doc>) returns (r: Attempt<seq<Digest>>)
      requires caching ==> CacheOk()
      requires chunks == Roots(hash, level) && AllHeld(hash, records, level)
      modifies this`records, this`cache, this`cacheBytes
      ensures Extends(hash, old(records), records)
              && (r.Bad? ==> r.error == Collision && Clashes(hash, old(records)))
      ensures r.Good? ==> (caching ==> CacheOk()) && r.value == Roots(hash, GroupUp(level))
                          && AllHeld(hash, records, GroupUp(level))
    {
      hide Held, GroupUp;
      var next := [];
      var offset := 0;
      ghost var m := 0;
      NothingGrouped(hash, records);
      while offset < |chunks|
        invariant 0 <= offset <= |chunks| && offset <= m * FANOUT && (offset < |chunks| ==> offset == m * FANOUT)
        invariant Extends(hash, old(records), records) && (caching ==> CacheOk())
        invariant next == Roots(hash, GroupUp(level[..offset])) && AllHeld(hash, records, GroupUp(level[..offset]))
      {
        var end := if offset + FANOUT < |chunks| then offset + FANOUT else |chunks|;
        ghost var group := level[offset..end];
        ghost var before := records;
        AllHeldGrows(hash, old(records), records, level);
        GroupUpAppend(level[..offset], m, group);
        assert level[..offset] + group == level[..end];
        RootsSlice(hash, level, offset, end);
        var node := PutDoc(ConcatNode(chunks[offset..end]), Concat(group));
        if node.Bad? { return Bad(node.error); }
        AllHeldGrows(hash, before, records, GroupUp(level[..offset]));
        next := next + [node.value];
        offset, m := end, m + 1;
      }
      assert level[..offset] == level;
      r := Good(next);
    }

    /** The FANOUT-th child completes a leaf. */
    method CompleteLeaf(chunks: seq<Digest>, children: seq<Digest>, ghost docs: seq<Doc>)
        returns (r: Attempt<Digest>)
      requires Building(hash, records, chunks, children, docs) && |children| == FANOUT
      requires caching ==> CacheOk()
      modifies this`records, this`cache, this`cacheBytes
      ensures Extends(hash, old(records), records)
              && (r.Bad? ==> r.error == Collision && Clashes(hash, old(records)))
      ensures r.Good? ==> (caching ==> CacheOk()) && Building(hash, records, chunks + [r.value], [], docs)
    {
      ghost var cut := |chunks| * FANOUT;
      r := PutDoc(ListNode(children), List(docs[cut..]));
      if r.Good? { LeafCompleted(hash, old(records), records, chunks, children, docs, r.value); }
    }

    /** The last, partial leaf, and the levels above. */
    method FinishList(leaves: seq<Digest>, children: seq<Digest>, ghost docs: seq<Doc>)
        returns (r: Attempt<Digest>)
      requires Building(hash, records, leaves, children, docs) && |children| < FANOUT
      requires caching ==> CacheOk()
      modifies this`records, this`cache, this`cacheBytes
      ensures Extends(hash, old(records), records)
              && (r.Bad? ==> r.error == Collision && Clashes(hash, old(records)))
      ensures r.Good? ==> Stored(r.value, CanonTree(docs))
    {
      hide Tidy, Clashes;
      var chunks := leaves;
      ghost var cut := |leaves| * FANOUT;
      assert docs == docs[..cut] + docs[cut..];
      if children != [] || chunks == [] {
        var chunk := PutDoc(ListNode(children), List(docs[cut..]));
        if chunk.Bad? { return chunk; }
        AllHeldGrows(hash, old(records), records, Leaves(docs[..cut]));
        LastLeaf(docs, cut, |leaves|);
        chunks := chunks + [chunk.value];
      } else {
        assert docs == docs[..cut];
      }
      r := GroupLevels(chunks, docs);
    }
  }

  /** The chunks an encoding starts from: the leaves, or one empty leaf for an empty list. */
  function LeafLevel(docs: seq<Doc>): seq<Doc> {
    if docs == [] then [List([])] else Leaves(docs)
  }

  lemma LastLeaf(docs: seq<Doc>, cut: nat, m: nat)
    requires cut <= |docs| && cut == m * FANOUT && |docs| - cut < FANOUT
    requires docs[cut..] != [] || Leaves(docs[..cut]) == []
    ensures LeafLevel(docs) == Leaves(docs[..cut]) + [List(docs[cut..])]
  {
    assert docs == docs[..cut] + docs[cut..];
    if docs[cut..] == [] {
      assert Chunks(docs[..cut], FANOUT) == [];
      assert docs == [];
    } else {
      LeavesAppend(docs[..cut], m, docs[cut..]);
    }
  }

  /** Part of a list is encoded: full leaves are chunks, the last few elements still children. */
  ghost predicate Building(h: Hash, s: Store, chunks: seq<Digest>, children: seq<Digest>, docs: seq<Doc>) {
    var cut := |chunks| * FANOUT;
    && cut <= |docs| <= cut + FANOUT
    && children == Roots(h, docs[cut..]) && chunks == Roots(h, Leaves(docs[..cut]))
    && AllHeld(h, s, docs) && AllHeld(h, s, Leaves(docs[..cut]))
  }

  /** One more element is encoded, which may have added rows. */
  lemma ChildAdded(h: Hash, s: Store, s': Store, chunks: seq<Digest>, children: seq<Digest>,
                   docs: seq<Doc>, digest: Digest, d: Doc)
    requires Building(h, s, chunks, children, docs) && |children| < FANOUT && Grows(s, s')
    requires digest == Root(h, d) && Held(h, s', d)
    ensures Building(h, s', chunks, children + [digest], docs + [d])
  {
    var cut := |chunks| * FANOUT;
    AllHeldGrows(h, s, s', docs);
    AllHeldGrows(h, s, s', Leaves(docs[..cut]));
    assert (docs + [d])[..cut] == docs[..cut] && (docs + [d])[cut..] == docs[cut..] + [d];
  }

  lemma LeafCompleted(h: Hash, s: Store, s': Store, chunks: seq<Digest>, children: seq<Digest>,
                      docs: seq<Doc>, leaf: Digest)
    requires Building(h, s, chunks, children, docs) && |children| == FANOUT && Grows(s, s')
    requires leaf == Root(h, List(docs[|chunks| * FANOUT..])) && Held(h, s', List(docs[|chunks| * FANOUT..]))
    ensures Building(h, s', chunks + [leaf], [], docs)
  {
    var cut := |chunks| * FANOUT;
    AllHeldGrows(h, s, s', docs);
    AllHeldGrows(h, s, s', Leaves(docs[..cut]));
    LeavesAppend(docs[..cut], |chunks|, docs[cut..]);
    assert docs[..cut] + docs[cut..] == docs;
    assert docs[..cut + FANOUT] == docs;
  }

  function Leaves(docs: seq<Doc>): seq<Doc> {
    BuildAll(Chunks(docs, FANOUT), 0)
  }

  lemma LeavesAppend(docs: seq<Doc>, m: nat, more: seq<Doc>)
    requires |docs| == m * FANOUT && 0 < |more| <= FANOUT
    ensures Leaves(docs + more) == Leaves(docs) + [List(more)]
  {
    ChunksSplit(docs, more, FANOUT, m);
    assert Chunks(more, FANOUT) == [more];
  }

  lemma RootsSlice(h: Hash, ds: seq<Doc>, i: nat, j: nat)
    requires i <= j <= |ds|
    ensures Roots(h, ds[i..j]) == Roots(h, ds)[i..j]
    ensures forall s | AllHeld(h, s, ds) :: AllHeld(h, s, ds[i..j])
  {
    hide Root, Held;
  }

  lemma NothingGrouped(h: Hash, s: Store)
    ensures GroupUp([]) == [] && Roots(h, []) == [] && AllHeld(h, s, [])
  {}

  lemma GroupUpAppend(level: seq<Doc>, m: nat, group: seq<Doc>)
    requires |level| == m * FANOUT && 0 < |group| <= FANOUT
    ensures GroupUp(level + group) == GroupUp(level) + [Concat(group)]
  {
    ChunksSplit(level, group, FANOUT, m);
    assert Chunks(group, FANOUT) == [group];
  }

  /** The documents a node refers to, in order. */
  function Parts(d: Doc): seq<Doc> {
    match d
    case Value(_) => []
    case List(items) => items
    case Concat(chunks) => chunks
    case Object(members) => seq(|members|, i requires 0 <= i < |members| => members[i].doc)
  }

  /** The byte counter is too high after a failed call if and only if the entry found under the digest
      is another node: a collision of the hash. */
  lemma SurplusIffCollision(h: Hash, size: Node -> nat, s: Store, cache: Cache, n: Node)
    requires Mirrors(h, size, s, cache)
    ensures PutRow(h, s, n).None? && Find(cache, h(n)).Some?
            <==> exists i | 0 <= i < |cache| :: cache[i].1 != n && h(cache[i].1) == h(n)
  {
    if i :| 0 <= i < |cache| && cache[i].1 != n && h(cache[i].1) == h(n) {
      assert cache[i].0 == h(n) && s[h(n)] == cache[i].1;
    }
    if PutRow(h, s, n).None? && Find(cache, h(n)).Some? {
      var i := Find(cache, h(n)).value;
      assert cache[i].1 == s[h(n)] && cache[i].1 != n;
    }
  }

  lemma RefsAreHeld(h: Hash, s: Store, d: Doc)
    requires AllHeld(h, s, Parts(d))
    ensures !NodeOf(h, d).ForeignNode?
    ensures forall i | 0 <= i < |RefsOf(NodeOf(h, d))| :: RefsOf(NodeOf(h, d))[i] in s
  {
    forall i | 0 <= i < |RefsOf(NodeOf(h, d))| ensures RefsOf(NodeOf(h, d))[i] in s {
      assert Held(h, s, Parts(d)[i]);
    }
  }

  /** Writing a node whose parts are there keeps the table one that can be followed. */
  lemma PutExtends(h: Hash, s: Store, n: Node)
    requires !n.ForeignNode? && forall i | 0 <= i < |RefsOf(n)| :: RefsOf(n)[i] in s
    ensures PutRow(h, s, n).Some? ==> Extends(h, s, PutRow(h, s, n).value)
    ensures PutRow(h, s, n).None? ==> Clashes(h, s)
  {
    hide Tidy;
    if h(n) !in s { FreshRowExtends(h, s, n); }
  }

  lemma HeldFromParts(h: Hash, s: Store, d: Doc)
    requires Root(h, d) in s && s[Root(h, d)] == NodeOf(h, d) && AllHeld(h, s, Parts(d))
    ensures Held(h, s, d)
  {
    if d.Object? {
      assert forall i | 0 <= i < |d.members| :: Parts(d)[i] == d.members[i].doc;
    }
  }

  lemma PartsHeld(h: Hash, s: Store, d: Doc)
    requires Held(h, s, d)
    ensures AllHeld(h, s, Parts(d))
  {}

  lemma LeafIs(items: seq<Doc>)
    ensures Build(items, 0) == List(items)
  {}

  /** Writing one child reference is writing one child. */
  lemma ChildSet(h: Hash, s: Store, kids: seq<Doc>, i: nat, x: Doc)
    requires i <= |kids| && AllHeld(h, s, kids) && Held(h, s, x)
    ensures Roots(h, SetOrAppend(kids, i, x)) == SetOrAppend(Roots(h, kids), i, Root(h, x))
    ensures AllHeld(h, s, SetOrAppend(kids, i, x)) && |Roots(h, kids)| == |kids|
    ensures NodeOf(h, List(SetOrAppend(kids, i, x))) == ListNode(Roots(h, SetOrAppend(kids, i, x)))
    ensures NodeOf(h, Concat(SetOrAppend(kids, i, x))) == ConcatNode(Roots(h, SetOrAppend(kids, i, x)))
  {
    hide Held, Root;
  }

  /** The run of elements under one child of a tree; empty for a child that is not there yet. */
  function RunAt(items: seq<Doc>, level: nat, index: nat): seq<Doc>
    requires level > 0
  {
    var c := Chunks(items, Pow(level));
    if index < |c| then c[index] else []
  }

  /** Writing one slot patches exactly one child of the root. */
  lemma PatchedRun(items: seq<Doc>, level: nat, offset: nat, x: Doc)
    requires level > 0 && offset <= |items|
    ensures var kids, index, rest, run := Parts(Build(items, level)), Quot(offset, Pow(level)),
              Rem(offset, Pow(level)), RunAt(items, level, Quot(offset, Pow(level)));
            && |kids| == |Chunks(items, Pow(level))| && index <= |kids| && rest <= |run|
            && (index < |kids| ==> kids[index] == Build(run, level - 1))
            && (index == |kids| ==> run == [])
            && Build(SetOrAppend(items, offset, x), level)
               == Concat(SetOrAppend(kids, index, Build(SetOrAppend(run, rest, x), level - 1)))
  {
    var c, index, rest := Chunks(items, Pow(level)), Quot(offset, Pow(level)), Rem(offset, Pow(level));
    ChunksSetOrAppend(items, Pow(level), offset, x);
    var run := RunAt(items, level, index);
    assert index == |c| ==> SetOrAppend(run, rest, x) == [x];
    BuildAllSet(c, index, SetOrAppend(run, rest, x), level - 1);
  }

  lemma NoParts(level: nat)
    ensures Parts(Build([], level)) == []
  {}

  lemma MoveToEnd(h: Hash, size: Node -> nat, s: Store, cache: Cache, i: nat)
    requires i < |cache| && Mirrors(h, size, s, cache)
    ensures var rest := cache[..i] + cache[i + 1..];
            && Mirrors(h, size, s, rest) && Mirrors(h, size, s, rest + [cache[i]])
            && Bytes(size, rest) + size(cache[i].1) == Bytes(size, cache) == Bytes(size, rest + [cache[i]])
            && |rest| + 1 == |cache|
  {
    BytesAround(size, cache, i);
    BytesJoin(size, cache[..i] + cache[i + 1..], [cache[i]]);
    var moved := cache[..i] + cache[i + 1..] + [cache[i]];
    var n := |cache| - 1;
    forall j | 0 <= j < |moved| ensures moved[j] == cache[if j < i then j else if j < n then j + 1 else i] {}
  }

  lemma AppendFresh(h: Hash, size: Node -> nat, s: Store, cache: Cache, d: Digest, n: Node)
    requires Mirrors(h, size, s, cache) && forall i | 0 <= i < |cache| :: cache[i].0 != d
    requires d in s && s[d] == n && h(n) == d && size(n) <= CACHE_BYTES
    ensures Mirrors(h, size, s, cache + [(d, n)])
    ensures Bytes(size, cache + [(d, n)]) == Bytes(size, cache) + size(n)
  {
    BytesJoin(size, cache, [(d, n)]);
  }

  lemma BytesAround(size: Node -> nat, cache: Cache, i: nat)
    requires i < |cache|
    ensures Bytes(size, cache) == Bytes(size, cache[..i] + cache[i + 1..]) + size(cache[i].1)
  {
    var front, back := cache[..i], cache[i + 1..];
    assert cache == front + cache[i..];
    assert cache[i..][1..] == back;
    BytesJoin(size, front, cache[i..]);
    BytesJoin(size, front, back);
  }
}
