/** The incremental checkpoint store: documents are put node by node, and a list on disk is patched
    into the tree it was last saved as. */
module CheckpointDocuments {
  import opened ChunkTree
  import opened Spool
  import opened ListHistory
  import opened IncrementalRoot
  import opened DiskBackedList
  import opened Documents
  import opened Records
  import opened RecordReader
  import opened RecordTable

  /** What is remembered of the last save of one list with one encoder. */
  datatype SavedRoot = SavedRoot(generation: nat, revision: nat, length: nat, root: Digest)

  type CursorKey = (DiskBackedList, nat)

  /** The remembered roots, and the records each was taken from. */
  datatype Memory = Memory(cursors: map<CursorKey, SavedRoot>, taken: map<CursorKey, seq<Record>>)

  function CursorFor(cur: SavedRoot): Cursor {
    Cursor(cur.generation, cur.revision, cur.length)
  }

  /** A remembered root is the canonical tree of the records it was taken from. */
  ghost predicate CursorGood(h: Hash, enc: Encoders, s: Store, cur: SavedRoot, encoder: nat, prefix: seq<Record>)
    requires PlainEncoders(enc)
  {
    var docs := RecordDocs(enc, encoder, prefix);
    && docs.Some? && cur.length == |prefix|
    && cur.root == Root(h, CanonTree(docs.value)) && Held(h, s, CanonTree(docs.value))
  }

  ghost predicate CursorsGood(h: Hash, enc: Encoders, s: Store, m: Memory)
    requires PlainEncoders(enc)
  {
    forall k <- m.cursors :: k in m.taken && CursorGood(h, enc, s, m.cursors[k], k.1, m.taken[k])
  }

  /** Every cursor remembered for `source` fits its state. */
  ghost predicate FitsAt(source: DiskBackedList, c: Codec, s: State, m: Memory) {
    forall k <- m.cursors :: k.0 == source ==>
      k in m.taken && Fits(c, s, CursorFor(m.cursors[k]), m.taken[k])
  }

  /** Every remembered cursor still fits the list it was taken from. */
  ghost predicate InStep(lists: set<DiskBackedList>, m: Memory)
    reads lists
  {
    forall l <- lists :: l.Valid() && FitsAt(l, l.codec, l.Now(), m)
  }

  /** Writing back the live record keeps every cursor fitting. */
  lemma FitsAtAfterFlush(source: DiskBackedList, c: Codec, s: State, m: Memory)
    requires Inv(c, s) && FitsAt(source, c, s, m)
    ensures FitsAt(source, c, Flush(c, s), m)
  {
    forall k <- m.cursors | k.0 == source ensures Fits(c, Flush(c, s), CursorFor(m.cursors[k]), m.taken[k]) {
      FitsAfterFlush(c, s, CursorFor(m.cursors[k]), m.taken[k]);
    }
  }

  /** Whatever is done to a list between saves, every cursor keeps fitting it. */
  lemma FitsAtAfterStep(source: DiskBackedList, c: Codec, s: State, op: Op, m: Memory)
    requires Inv(c, s) && FitsAt(source, c, s, m)
    ensures FitsAt(source, c, Step(c, s, op), m)
  {
    forall k <- m.cursors | k.0 == source ensures Fits(c, Step(c, s, op), CursorFor(m.cursors[k]), m.taken[k]) {
      FitsAfterStep(c, s, op, CursorFor(m.cursors[k]), m.taken[k]);
    }
  }

  /** The lists still show what they showed. */
  ghost predicate Unchanged(lists: set<DiskBackedList>, views: Views)
    reads lists
  {
    views.Keys == lists && forall l <- lists :: l.Valid() && l.View() == views[l]
  }

  /** The documents of a run of records under one encoder. */
  ghost function RecordDocs(enc: Encoders, encoder: nat, records: seq<Record>): Option<seq<Doc>>
    requires PlainEncoders(enc)
  {
    AllSome(seq(|records|, i requires 0 <= i < |records| => DocOf(enc, map[], enc(encoder)(records[i]))))
  }

  function Document(checkpoint: Documents.Value, summary: Documents.Value): Documents.Value {
    Dict([Entry(StrKey("checkpoint"), checkpoint), Entry(StrKey("summary"), summary)])
  }

  lemma CursorsStayGood(h: Hash, enc: Encoders, s: Store, s': Store, m: Memory)
    requires PlainEncoders(enc) && CursorsGood(h, enc, s, m) && Grows(s, s')
    ensures CursorsGood(h, enc, s', m)
  {
    forall k <- m.cursors ensures k in m.taken && CursorGood(h, enc, s', m.cursors[k], k.1, m.taken[k]) {
      HeldGrows(h, s, s', CanonTree(RecordDocs(enc, k.1, m.taken[k]).value));
    }
  }

  class CheckpointDocuments {
    const encoders: Encoders
    const table: RecordTable
    var cursors: map<CursorKey, SavedRoot>
    ghost var taken: map<CursorKey, seq<Record>>
    var dataVersion: Option<nat>

    constructor (encoders: Encoders, table: RecordTable)
      requires PlainEncoders(encoders) && !table.caching
      ensures Valid() && this.encoders == encoders && this.table == table && cursors == map[]
    {
      this.encoders, this.table, cursors, taken := encoders, table, map[], map[];
      dataVersion := None;
    }

    /** Between saves: the remembered roots are good unless somebody else has committed, which the
        version of the database tells. */
    ghost predicate Valid()
      reads this, table
    {
      && PlainEncoders(encoders) && !table.caching
      && (dataVersion.Some? ==> dataVersion.value <= table.version)
      && (dataVersion == Some(table.version) ==>
            CursorsGood(table.hash, encoders, table.records, Remembered()))
    }

    /** Save one checkpoint as a transaction.  `views` is what the lists on disk show. */
    method Save(checkpoint: Documents.Value, summary: Documents.Value,
                ghost lists: set<DiskBackedList>, ghost views: Views) returns (r: Attempt<Digest>)
      requires Valid() && Within(Document(checkpoint, summary), lists)
      requires Unchanged(lists, views) && InStep(lists, Remembered())
      modifies this`cursors, this`taken, this`dataVersion, table`records, table`caching, table`cache,
               table`cacheBytes, lists
      ensures Valid() && Unchanged(lists, views) && InStep(lists, Remembered())
      ensures Extends(table.hash, old(table.records), table.records)
      ensures r.Bad? && r.error == Collision ==> Clashes(table.hash, old(table.records))
      ensures r.Good? ==> dataVersion == Some(table.version)
      ensures old(dataVersion) == Some(table.version) ==> old(cursors).Keys <= cursors.Keys
      ensures var d := DocOf(encoders, views, Document(checkpoint, summary));
              && (d.None? ==> r.Bad?) && (d.Some? && r.Bad? ==> r.error == Collision)
              && (r.Good? ==> r.value == Root(table.hash, d.value) && Held(table.hash, table.records, d.value))
      ensures r.Bad? ==> table.records == old(table.records) && cursors == old(cursors)
                         && dataVersion == old(dataVersion)
    {
      hide DocOf, CursorsGood, Fits, Ready, Unchanged, InStep, Held, NodeOf, Root, Within;
      var rows, remembered := table.records, cursors;
      ghost var back := Remembered();
      Begin(lists, views);
      r := Encode(Document(checkpoint, summary), lists, views, back);
      if r.Good? {
        Commit(lists, views, back);
      } else {
        Rollback(rows, remembered, lists, views, back);
      }
    }

    /** Another connection commits, whatever rows it leaves: the next save trusts no remembered root. */
    method OtherCommits(rows: Store)
      requires Valid()
      modifies table`records, table`version
      ensures Valid() && table.records == rows && cursors == old(cursors)
      ensures dataVersion != Some(table.version)
    {
      hide CursorsGood;
      table.CommitElsewhere(rows);
    }

    method Commit(ghost lists: set<DiskBackedList>, ghost views: Views, ghost back: Memory)
      requires Ready(lists, views, back)
      modifies this`dataVersion, table`caching, table`cache, table`cacheBytes
      ensures Valid() && Unchanged(lists, views) && InStep(lists, Remembered()) && dataVersion == Some(table.version)
    {
      hide CursorsGood, FitsAt, Inv, State.View;
      dataVersion := Some(table.version);
      table.caching, table.cache, table.cacheBytes := false, [], 0;
    }

    method Rollback(rows: Store, remembered: map<CursorKey, SavedRoot>, ghost lists: set<DiskBackedList>,
                    ghost views: Views, ghost back: Memory)
      requires PlainEncoders(encoders) && remembered == back.cursors
      requires dataVersion.Some? ==> dataVersion.value <= table.version
      requires dataVersion == Some(table.version) ==> CursorsGood(table.hash, encoders, rows, back)
      requires Unchanged(lists, views) && InStep(lists, back)
      modifies this`cursors, this`taken, table`records, table`caching, table`cache, table`cacheBytes
      ensures Valid() && Unchanged(lists, views) && InStep(lists, Remembered())
      ensures table.records == rows && Remembered() == back
    {
      hide CursorsGood, FitsAt, Inv, State.View;
      table.records, cursors, taken := rows, remembered, back.taken;
      table.caching, table.cache, table.cacheBytes := false, [], 0;
      assert Remembered() == back;
    }

    /** Open the transaction: an empty cache, and no remembered roots if somebody else committed. */
    method Begin(ghost lists: set<DiskBackedList>, ghost views: Views)
      requires Valid() && Unchanged(lists, views) && InStep(lists, Remembered())
      modifies this`cursors, table`caching, table`cache, table`cacheBytes
      ensures Ready(lists, views, old(Remembered()))
      ensures cursors == if dataVersion == Some(table.version) then old(cursors) else map[]
    {
      hide CursorsGood, InStep, Unchanged;
      NothingRemembered(table.hash, encoders, table.records, Memory(map[], taken), lists, Remembered());
      table.caching, table.cache, table.cacheBytes := true, [], 0;
      if dataVersion != Some(table.version) { cursors := map[]; }
    }

    ghost function Remembered(): Memory
      reads this
    {
      Memory(cursors, taken)
    }

    /** What every encoding step may rely on; `back` is what a failed save returns to. */
    ghost predicate Ready(lists: set<DiskBackedList>, views: Views, back: Memory)
      reads this, table, lists
    {
      && PlainEncoders(encoders) && (table.caching ==> table.CacheOk())
      && CursorsGood(table.hash, encoders, table.records, Remembered())
      && Unchanged(lists, views) && InStep(lists, Remembered()) && InStep(lists, back)
    }

    /** The result of encoding: refused, or the root of the document, stored whole. */
    ghost predicate Outcome(r: Attempt<Digest>, d: Option<Doc>)
      reads this, table
    {
      && (d.None? ==> r.Bad?)
      && (d.Some? && r.Bad? ==> r.error == Collision)
      && (d.Some? && r.Good? ==> table.Stored(r.value, d.value))
    }

    /** Encode the elements of a list and build its tree from scratch. */
    method EncodeList(values: seq<Documents.Value>, ghost lists: set<DiskBackedList>,
                      ghost views: Views, ghost back: Memory) returns (r: Attempt<Digest>)
      requires Ready(lists, views, back) && forall i | 0 <= i < |values| :: Within(values[i], lists)
      modifies table`records, table`cache, table`cacheBytes, this`cursors, this`taken, lists
      ensures Extends(table.hash, old(table.records), table.records) && Unchanged(lists, views) && InStep(lists, back)
      ensures r.Bad? && r.error == Collision ==> Clashes(table.hash, old(table.records))
      ensures old(cursors).Keys <= cursors.Keys
      ensures lists == {} ==> cursors == old(cursors) && taken == old(taken)
      ensures Outcome(r, ListDoc(encoders, views, values)) && (r.Good? ==> Ready(lists, views, back))
      decreases if PlainAll(values) then 0 else 4, values, 1
    {
      hide Ready, Building, DocsOf, DocOf, ListDoc, FitsAt, InStep, Unchanged, CursorsGood;
      NothingBuilt(values, lists, views, back);
      var chunks, children := [], [];
      ghost var docs := [];
      var i := 0;
      while i < |values|
        invariant 0 <= i <= |values| && Ready(lists, views, back)
        invariant Extends(table.hash, old(table.records), table.records)
        invariant lists == {} ==> cursors == old(cursors) && taken == old(taken)
        invariant old(cursors).Keys <= cursors.Keys
        invariant DocsOf(encoders, views, values[..i], docs)
        invariant Building(table.hash, table.records, chunks, children, docs) && |children| < FANOUT
      {
        var child := EncodeElement(values, i, chunks, children, docs, lists, views, back);
        if child.Bad? { return child; }
        children := children + [child.value];
        docs := docs + [DocOf(encoders, views, values[i]).value];
        if |children| == FANOUT {
          var leaf := CompleteLeaf(chunks, children, docs, lists, views, back);
          if leaf.Bad? { return leaf; }
          chunks, children := chunks + [leaf.value], [];
        }
        i := i + 1;
      }
      ListDocOf(encoders, views, values, docs);
      r := FinishList(chunks, children, docs, lists, views, back);
    }

    /** One element becomes one more child. */
    method EncodeElement(values: seq<Documents.Value>, i: nat, ghost chunks: seq<Digest>,
                         ghost children: seq<Digest>, ghost docs: seq<Doc>,
                         ghost lists: set<DiskBackedList>, ghost views: Views, ghost back: Memory)
        returns (r: Attempt<Digest>)
      requires Ready(lists, views, back) && i < |values| && Within(values[i], lists)
      requires DocsOf(encoders, views, values[..i], docs)
      requires Building(table.hash, table.records, chunks, children, docs) && |children| < FANOUT
      modifies table`records, table`cache, table`cacheBytes, this`cursors, this`taken, lists
      ensures Extends(table.hash, old(table.records), table.records) && Unchanged(lists, views) && InStep(lists, back)
      ensures r.Bad? && r.error == Collision ==> Clashes(table.hash, old(table.records))
      ensures old(cursors).Keys <= cursors.Keys
      ensures lists == {} ==> cursors == old(cursors) && taken == old(taken)
      ensures r.Bad? ==> Outcome(r, ListDoc(encoders, views, values))
      ensures r.Good? ==> Ready(lists, views, back) && DocOf(encoders, views, values[i]).Some?
      ensures r.Good? ==> var more := docs + [DocOf(encoders, views, values[i]).value];
                && DocsOf(encoders, views, values[..i + 1], more)
                && Building(table.hash, table.records, chunks, children + [r.value], more)
      decreases if PlainAll(values) then 0 else 4, values, 0
    {
      hide Ready, Building, DocsOf, DocOf, ListDoc, FitsAt, InStep, Unchanged, CursorsGood;
      NothingBuilt(values, lists, views, back);
      r := Encode(values[i], lists, views, back);
      if r.Bad? {
        ListDocNeeds(encoders, views, values, i);
      } else {
        ghost var d := DocOf(encoders, views, values[i]).value;
        ChildAdded(table.hash, old(table.records), table.records, chunks, children, docs, r.value, d);
        DocsOfStep(encoders, views, values, i, docs);
      }
    }

    lemma NothingBuilt(values: seq<Documents.Value>, lists: set<DiskBackedList>, views: Views, back: Memory)
      requires Ready(lists, views, back)
      ensures PlainEncoders(encoders)
      ensures DocsOf(encoders, views, values[..0], []) && MembersOf(encoders, views, [], [])
      ensures Building(table.hash, table.records, [], [], [])
    {}

    /** The FANOUT-th child completes a leaf. */
    method CompleteLeaf(chunks: seq<Digest>, children: seq<Digest>, ghost docs: seq<Doc>,
                        ghost lists: set<DiskBackedList>, ghost views: Views, ghost back: Memory)
        returns (r: Attempt<Digest>)
      requires Building(table.hash, table.records, chunks, children, docs) && |children| == FANOUT
      requires Ready(lists, views, back)
      modifies table`records, table`cache, table`cacheBytes
      ensures Extends(table.hash, old(table.records), table.records)
              && (r.Bad? ==> r.error == Collision && Clashes(table.hash, old(table.records)))
      ensures r.Good? ==> Building(table.hash, table.records, chunks + [r.value], [], docs)
      ensures Unchanged(lists, views) && InStep(lists, back)
      ensures r.Good? ==> Ready(lists, views, back)
    {
      hide CursorGood, CursorsGood, Fits, FitsAt, InStep, Unchanged;
      r := table.CompleteLeaf(chunks, children, docs);
      CursorsStayGood(table.hash, encoders, old(table.records), table.records, Remembered());
    }

    /** The last, partial leaf, and the levels above. */
    method FinishList(chunks: seq<Digest>, children: seq<Digest>, ghost docs: seq<Doc>,
                      ghost lists: set<DiskBackedList>, ghost views: Views, ghost back: Memory)
        returns (r: Attempt<Digest>)
      requires Building(table.hash, table.records, chunks, children, docs) && |children| < FANOUT
      requires Ready(lists, views, back)
      modifies table`records, table`cache, table`cacheBytes
      ensures Extends(table.hash, old(table.records), table.records)
              && (r.Bad? ==> r.error == Collision && Clashes(table.hash, old(table.records)))
      ensures Unchanged(lists, views) && InStep(lists, back)
      ensures r.Good? ==> table.Stored(r.value, CanonTree(docs)) && Ready(lists, views, back)
    {
      hide CursorGood, CursorsGood, Fits, FitsAt, InStep, Unchanged;
      r := table.FinishList(chunks, children, docs);
      CursorsStayGood(table.hash, encoders, old(table.records), table.records, Remembered());
    }

    /** Put one node whose parts are stored. */
    method PutNode(n: Node, ghost d: Doc, ghost lists: set<DiskBackedList>, ghost views: Views,
                   ghost back: Memory) returns (r: Attempt<Digest>)
      requires n == NodeOf(table.hash, d) && AllHeld(table.hash, table.records, Parts(d))
      requires Ready(lists, views, back)
      modifies table`records, table`cache, table`cacheBytes
      ensures Extends(table.hash, old(table.records), table.records)
              && (r.Bad? ==> r.error == Collision && Clashes(table.hash, old(table.records)))
      ensures Unchanged(lists, views) && InStep(lists, back)
      ensures r.Good? ==> table.Stored(r.value, d) && Ready(lists, views, back)
    {
      hide CursorGood, CursorsGood, Fits, FitsAt, InStep, Unchanged;
      r := table.PutDoc(n, d);
      CursorsStayGood(table.hash, encoders, old(table.records), table.records, Remembered());
    }

    method Encode(v: Documents.Value, ghost lists: set<DiskBackedList>, ghost views: Views,
                  ghost back: Memory) returns (r: Attempt<Digest>)
      requires Ready(lists, views, back) && Within(v, lists)
      modifies table`records, table`cache, table`cacheBytes, this`cursors, this`taken, lists
      ensures Extends(table.hash, old(table.records), table.records) && Unchanged(lists, views) && InStep(lists, back)
      ensures r.Bad? && r.error == Collision ==> Clashes(table.hash, old(table.records))
      ensures old(cursors).Keys <= cursors.Keys
      ensures lists == {} ==> cursors == old(cursors) && taken == old(taken)
      ensures Outcome(r, DocOf(encoders, views, v)) && (r.Good? ==> Ready(lists, views, back))
      decreases if Plain(v) then 0 else 4, v, 2
    {
      match v
      case Atom(scalar) => r := PutNode(ValueNode(scalar), ChunkTree.Value(scalar), lists, views, back);
      case Unsupported => r := Bad(NotJson);
      case Listing(_, elements) =>
        ListDocIsListing(encoders, views, v);
        r := EncodeList(elements, lists, views, back);
      case Dict(entries) => r := EncodeDict(v, lists, views, back);
      case Sequence(source, encoder, length) => r := EncodeSequence(v, lists, views, back);
    }

    method EncodeDict(v: Documents.Value, ghost lists: set<DiskBackedList>, ghost views: Views,
                      ghost back: Memory) returns (r: Attempt<Digest>)
      requires Ready(lists, views, back) && Within(v, lists) && v.Dict?
      modifies table`records, table`cache, table`cacheBytes, this`cursors, this`taken, lists
      ensures Extends(table.hash, old(table.records), table.records) && Unchanged(lists, views) && InStep(lists, back)
      ensures r.Bad? && r.error == Collision ==> Clashes(table.hash, old(table.records))
      ensures old(cursors).Keys <= cursors.Keys
      ensures lists == {} ==> cursors == old(cursors) && taken == old(taken)
      ensures Outcome(r, DocOf(encoders, views, v)) && (r.Good? ==> Ready(lists, views, back))
      decreases if Plain(v) then 0 else 4, v, 1
    {
      hide CursorGood, CursorsGood, Fits, FitsAt, InStep, Unchanged, DocOf;
      var entries := v.entries;
      var refs: seq<Ref> := [];
      ghost var members: seq<Member> := [];
      var i := 0;
      while i < |entries|
        invariant 0 <= i <= |entries| && Ready(lists, views, back)
        invariant Extends(table.hash, old(table.records), table.records)
        invariant lists == {} ==> cursors == old(cursors) && taken == old(taken)
        invariant old(cursors).Keys <= cursors.Keys
        invariant MembersOf(encoders, views, entries[..i], members)
        invariant refs == NodeOf(table.hash, Object(members)).members
        invariant AllHeld(table.hash, table.records, Parts(Object(members)))
      {
        var name := KeyName(entries[i].key);
        if name.None? {
          DictNeeds(encoders, views, v, i);
          return Bad(NotJson);
        }
        ghost var before := table.records;
        var child := Encode(entries[i].value, lists, views, back);
        if child.Bad? {
          DictNeeds(encoders, views, v, i);
          return child;
        }
        ghost var m := Member(name.value, DocOf(encoders, views, entries[i].value).value);
        MembersOfStep(encoders, views, entries, i, members);
        MemberAdded(table.hash, before, table.records, members, m);
        members, refs := members + [m], refs + [Ref(name.value, child.value)];
        i := i + 1;
      }
      DictDocOf(encoders, views, v, members);
      r := PutNode(ObjectNode(refs), Object(members), lists, views, back);
    }

    /** Encode the captured records of a list on disk: patch the tree saved last, or rebuild. */
    method EncodeSequence(v: Documents.Value, ghost lists: set<DiskBackedList>, ghost views: Views,
                          ghost back: Memory) returns (r: Attempt<Digest>)
      requires Ready(lists, views, back) && Within(v, lists) && v.Sequence?
      modifies table`records, table`cache, table`cacheBytes, this`cursors, this`taken, lists
      ensures Extends(table.hash, old(table.records), table.records) && Unchanged(lists, views) && InStep(lists, back)
      ensures r.Bad? && r.error == Collision ==> Clashes(table.hash, old(table.records))
      ensures old(cursors).Keys <= cursors.Keys
      ensures lists == {} ==> cursors == old(cursors) && taken == old(taken)
      ensures Outcome(r, DocOf(encoders, views, v)) && (r.Good? ==> Ready(lists, views, back))
      ensures r.Good? ==> (v.source, v.encoder) in cursors
                          && cursors[(v.source, v.encoder)]
                             == SavedRoot(v.source.generation, v.source.revision, v.length, r.value)
      decreases if Plain(v) then 0 else 4, v, 1
    {
      hide Ready, DocOf, CursorGood, CursorsGood, Fits, InStep, Unchanged, Held, Tidy, ApplyAll, Inv,
           State.View;
      var source, encoder, stop := v.source, v.encoder, v.length;
      var key := (source, encoder);
      var previous := if key in cursors then Some(cursors[key]) else None;
      SequenceDocIs(v, lists, views, back);
      var got := ReadChanges(source, encoder, previous, stop, lists, views, back);
      if got.IndexError? { return Bad(OutOfRange); }
      var (generation, revision, pairs) := got.value;
      if previous.Some? && previous.value.generation == generation && previous.value.length <= stop {
        r := PatchSequence(previous.value, encoder, pairs, taken[key], views[source][..stop], lists, views, back);
      } else {
        r := RebuildSequence(encoder, pairs, views[source][..stop], lists, views, back);
      }
      if r.Good? {
        ghost var docs := RecordDocs(encoders, encoder, views[source][..stop]);
        assert docs.Some? && table.Stored(r.value, CanonTree(docs.value));
        SavedIsGood(encoder, SavedRoot(generation, revision, stop, r.value), views[source][..stop]);
        Remember(key, SavedRoot(generation, revision, stop, r.value), views[source][..stop], lists, views, back);
      }
    }

    lemma SequenceDocIs(v: Documents.Value, lists: set<DiskBackedList>, views: Views, back: Memory)
      requires Ready(lists, views, back) && Within(v, lists) && v.Sequence?
      ensures PlainEncoders(encoders) && v.source in lists && v.source in views
      ensures v.length > |views[v.source]| ==> DocOf(encoders, views, v) == None
      ensures v.length <= |views[v.source]| ==>
                DocOf(encoders, views, v) == SequenceDoc(encoders, v.encoder, views[v.source][..v.length])
      ensures var key := (v.source, v.encoder);
              key in cursors ==> key in taken && CursorGood(table.hash, encoders, table.records,
                                                            cursors[key], v.encoder, taken[key])
    {
      if v.length <= |views[v.source]| {
        SequenceDocOf(encoders, views, v);
      }
    }

    /** Read the rows that changed since the last save; the list only writes back its live record. */
    method ReadChanges(source: DiskBackedList, ghost encoder: nat, previous: Option<SavedRoot>, stop: nat,
                       ghost lists: set<DiskBackedList>, ghost views: Views, ghost back: Memory)
        returns (r: Result<(nat, nat, seq<(nat, Record)>)>)
      requires Ready(lists, views, back) && source in lists
      requires previous == if (source, encoder) in cursors then Some(cursors[(source, encoder)]) else None
      modifies source
      ensures Ready(lists, views, back) && Unchanged(lists, views) && InStep(lists, back)
      ensures r.IndexError? <==> stop > |views[source]|
      ensures r.Ok? ==> Delivered(source, encoder, previous, stop, views[source], r.value.0, r.value.2)
      ensures r.Ok? ==> Fits(source.codec, source.Now(), Cursor(r.value.0, r.value.1, stop), views[source][..stop])
      ensures r.Ok? ==> r.value.0 == source.generation && r.value.1 == source.revision
    {
      hide DocOf, Flush, Changes, Fits, CursorGood, FitsAt, CursorsGood, Inv, ApplyAll, AllCurrent;
      var cursor := if previous.Some? then CursorFor(previous.value) else Cursor(-1, -1, 0);
      if stop <= source.length {
        if previous.Some? { RememberedFits(source, encoder, lists); }
        DeltaFor(source.codec, source.Now(), previous,
                 if previous.Some? then taken[(source, encoder)] else [], stop);
      }
      FitsAtAfterFlush(source, source.codec, source.Now(), Remembered());
      FitsAtAfterFlush(source, source.codec, source.Now(), back);
      r := source.ChangesSince(cursor, stop);
      assert Unchanged(lists, views);
      assert InStep(lists, back);
      assert InStep(lists, Remembered());
    }

    lemma RememberedFits(source: DiskBackedList, encoder: nat, lists: set<DiskBackedList>)
      requires InStep(lists, Remembered()) && source in lists && (source, encoder) in cursors
      ensures (source, encoder) in taken
      ensures Fits(source.codec, source.Now(), CursorFor(cursors[(source, encoder)]), taken[(source, encoder)])
    {}

    /** The pairs are current records, and enough of them. */
    ghost predicate Delivered(source: DiskBackedList, encoder: nat, previous: Option<SavedRoot>, stop: nat,
                              view: seq<Record>, generation: nat, pairs: seq<(nat, Record)>)
      reads this
      requires stop <= |view|
    {
      && AllCurrent(pairs, view, stop)
      && if previous.Some? && previous.value.generation == generation && previous.value.length <= stop then
           (source, encoder) in taken && ApplyAll(taken[(source, encoder)], pairs) == Some(view[..stop])
         else
           pairs == seq(stop, i requires 0 <= i < stop => (i, view[i]))
    }

    method EncodeRecord(encoder: nat, record: Record, ghost lists: set<DiskBackedList>,
                        ghost views: Views, ghost back: Memory) returns (r: Attempt<Digest>)
      requires Ready(lists, views, back)
      modifies table`records, table`cache, table`cacheBytes, this`cursors, this`taken
      ensures Extends(table.hash, old(table.records), table.records) && Unchanged(lists, views) && InStep(lists, back)
      ensures r.Bad? && r.error == Collision ==> Clashes(table.hash, old(table.records))
      ensures old(cursors).Keys <= cursors.Keys
      ensures cursors == old(cursors) && taken == old(taken)
      ensures Outcome(r, DocOf(encoders, map[], encoders(encoder)(record)))
      ensures r.Good? ==> Ready(lists, views, back)
      decreases 1
    {
      hide Ready, InStep, Unchanged, DocOf, CursorsGood, Held, Tidy;
      ReadyWithout(lists, views, back);
      PlainIsWithin(encoders(encoder)(record));
      r := Encode(encoders(encoder)(record), {}, map[], Remembered());
      assert Remembered() == old(Remembered());
      if r.Good? { ReadyAgain(lists, views, back, old(Remembered())); }
    }

    /** A value without lists on disk needs none of them. */
    lemma ReadyWithout(lists: set<DiskBackedList>, views: Views, back: Memory)
      requires Ready(lists, views, back)
      ensures PlainEncoders(encoders) && Ready({}, map[], Remembered())
      ensures Unchanged(lists, views) && InStep(lists, back) && InStep(lists, Remembered())
    {
      hide CursorsGood, FitsAt;
    }

    lemma ReadyAgain(lists: set<DiskBackedList>, views: Views, back: Memory, before: Memory)
      requires Ready({}, map[], before)
      requires Unchanged(lists, views) && InStep(lists, back) && InStep(lists, Remembered())
      ensures Ready(lists, views, back)
    {
      hide CursorsGood, FitsAt;
    }

    /** Encode one changed record and write it into its slot. */
    method PatchOne(root: Digest, length: nat, encoder: nat, position: nat, record: Record,
                    ghost docs: seq<Doc>, ghost lists: set<DiskBackedList>, ghost views: Views,
                    ghost back: Memory) returns (r: Attempt<Digest>)
      requires Ready(lists, views, back) && position <= length == |docs|
      requires table.Stored(root, CanonTree(docs))
      modifies table`records, table`cache, table`cacheBytes, this`cursors, this`taken
      ensures Extends(table.hash, old(table.records), table.records) && Unchanged(lists, views) && InStep(lists, back)
      ensures r.Bad? && r.error == Collision ==> Clashes(table.hash, old(table.records))
      ensures old(cursors).Keys <= cursors.Keys
      ensures cursors == old(cursors) && taken == old(taken)
      ensures var d := DocOf(encoders, map[], encoders(encoder)(record));
              && (d.None? ==> r.Bad?) && (d.Some? && r.Bad? ==> r.error == Collision)
              && (r.Good? ==> table.Stored(r.value, CanonTree(SetOrAppend(docs, position, d.value))))
      ensures r.Good? ==> Ready(lists, views, back)
      decreases 2
    {
      hide CursorGood, CursorsGood, Fits, FitsAt, InStep, Unchanged, DocOf;
      r := EncodeRecord(encoder, record, lists, views, back);
      if r.Bad? { return; }
      ghost var d := DocOf(encoders, map[], encoders(encoder)(record)).value;
      HeldGrows(table.hash, old(table.records), table.records, CanonTree(docs));
      ghost var before := table.records;
      r := table.SequenceSet(root, length, position, r.value, docs, d);
      CursorsStayGood(table.hash, encoders, before, table.records, Remembered());
    }

    /** Patch the tree saved last with every change in turn. */
    method PatchSequence(saved: SavedRoot, encoder: nat, pairs: seq<(nat, Record)>,
                         ghost base: seq<Record>, ghost result: seq<Record>,
                         ghost lists: set<DiskBackedList>, ghost views: Views, ghost back: Memory)
        returns (r: Attempt<Digest>)
      requires Ready(lists, views, back) && ApplyAll(base, pairs) == Some(result)
      requires AllCurrent(pairs, result, |result|)
      requires CursorGood(table.hash, encoders, table.records, saved, encoder, base)
      modifies table`records, table`cache, table`cacheBytes, this`cursors, this`taken
      ensures Extends(table.hash, old(table.records), table.records) && Unchanged(lists, views) && InStep(lists, back)
      ensures r.Bad? && r.error == Collision ==> Clashes(table.hash, old(table.records))
      ensures old(cursors).Keys <= cursors.Keys
      ensures cursors == old(cursors) && taken == old(taken)
      ensures Outcome(r, SequenceDoc(encoders, encoder, result)) && (r.Good? ==> Ready(lists, views, back))
      decreases 3
    {
      assert PlainEncoders(encoders) && Unchanged(lists, views) && InStep(lists, back);
      hide Ready, InStep, Unchanged, CursorsGood, DocOf, Held, Tidy;
      var root, length := saved.root, saved.length;
      ghost var now := base;
      var i := 0;
      while i < |pairs|
        invariant 0 <= i <= |pairs| && Ready(lists, views, back) && length == |now|
        invariant Unchanged(lists, views) && InStep(lists, back)
        invariant Extends(table.hash, old(table.records), table.records)
        invariant cursors == old(cursors) && taken == old(taken)
        invariant ApplyAll(now, pairs[i..]) == Some(result)
        invariant RecordDocs(encoders, encoder, now).Some?
        invariant table.Stored(root, CanonTree(RecordDocs(encoders, encoder, now).value))
      {
        var (position, record) := pairs[i];
        r := PatchOne(root, length, encoder, position, record,
                      RecordDocs(encoders, encoder, now).value, lists, views, back);
        if r.Bad? {
          RecordNeeds(encoders, encoder, result, position);
          return;
        }
        RecordDocsStep(encoders, encoder, now, position, record);
        root, now := r.value, SetOrAppend(now, position, record);
        length := if position + 1 > length then position + 1 else length;
        i := i + 1;
      }
      r := Good(root);
    }

    /** Build the tree of every captured record. */
    method RebuildSequence(encoder: nat, pairs: seq<(nat, Record)>, ghost result: seq<Record>,
                           ghost lists: set<DiskBackedList>, ghost views: Views, ghost back: Memory)
        returns (r: Attempt<Digest>)
      requires Ready(lists, views, back)
      requires pairs == seq(|result|, i requires 0 <= i < |result| => (i, result[i]))
      modifies table`records, table`cache, table`cacheBytes, this`cursors, this`taken
      ensures Extends(table.hash, old(table.records), table.records) && Unchanged(lists, views) && InStep(lists, back)
      ensures r.Bad? && r.error == Collision ==> Clashes(table.hash, old(table.records))
      ensures old(cursors).Keys <= cursors.Keys
      ensures cursors == old(cursors) && taken == old(taken)
      ensures Outcome(r, SequenceDoc(encoders, encoder, result)) && (r.Good? ==> Ready(lists, views, back))
      decreases 3
    {
      hide Ready, InStep, Unchanged, DocOf, CursorsGood, Held, Tidy;
      ReadyWithout(lists, views, back);
      var values := seq(|pairs|, i requires 0 <= i < |pairs| => encoders(encoder)(pairs[i].1));
      forall i | 0 <= i < |values| ensures Within(values[i], {}) { PlainIsWithin(values[i]); }
      ListDocOfRecords(encoders, encoder, result, values);
      r := EncodeList(values, {}, map[], Remembered());
      assert Remembered() == old(Remembered());
      if r.Good? { ReadyAgain(lists, views, back, old(Remembered())); }
    }

    lemma SavedIsGood(encoder: nat, saved: SavedRoot, prefix: seq<Record>)
      requires PlainEncoders(encoders) && saved.length == |prefix|
      requires RecordDocs(encoders, encoder, prefix).Some?
      requires table.Stored(saved.root, CanonTree(RecordDocs(encoders, encoder, prefix).value))
      ensures CursorGood(table.hash, encoders, table.records, saved, encoder, prefix)
    {}

    method Remember(key: CursorKey, saved: SavedRoot, ghost prefix: seq<Record>,
                    ghost lists: set<DiskBackedList>, ghost views: Views, ghost back: Memory)
      requires Ready(lists, views, back) && key.0 in lists
      requires CursorGood(table.hash, encoders, table.records, saved, key.1, prefix)
      requires Fits(key.0.codec, key.0.Now(), CursorFor(saved), prefix)
      modifies this`cursors, this`taken
      ensures Ready(lists, views, back) && Unchanged(lists, views) && InStep(lists, back)
      ensures cursors == old(cursors)[key := saved]
    {
      hide CursorGood, Fits, Inv, State.View, FitsAt, CursorsGood, Held, Tidy;
      OneMore(table.hash, encoders, table.records, Remembered(), key, saved, prefix, lists);
      cursors := cursors[key := saved];
      taken := taken[key := prefix];
    }
  }

  /** What a list hands out for the cursor of the last save, or for none. */
  lemma DeltaFor(c: Codec, s: State, previous: Option<SavedRoot>, prefix: seq<Record>, stop: nat)
    requires Inv(c, s) && stop <= |s.rows|
    requires previous.Some? ==> Fits(c, s, CursorFor(previous.value), prefix)
    ensures stop <= |s.View(c)| && |Flush(c, s).rows| == |s.rows|
    ensures var t, view := Flush(c, s), s.View(c);
            var pairs := Changes(c, t, if previous.Some? then CursorFor(previous.value) else Cursor(-1, -1, 0), stop);
            && AllCurrent(pairs, view, stop)
            && (if previous.Some? && previous.value.generation == t.generation && previous.value.length <= stop then
                  ApplyAll(prefix, pairs) == Some(view[..stop])
                else pairs == seq(stop, i requires 0 <= i < stop => (i, view[i])))
            && Fits(c, t, Cursor(t.generation, t.revision, stop), view[..stop])
  {
    var cursor := if previous.Some? then CursorFor(previous.value) else Cursor(-1, -1, 0);
    FlushKeeps(c, s);
    ChangesAreCurrent(c, s, cursor, stop);
    if previous.Some? && previous.value.generation == s.generation && previous.value.length <= stop {
      DeltaCompletes(c, s, cursor, prefix, stop);
    } else {
      ChangesFromNothing(c, s, cursor, stop);
    }
  }

  lemma NothingRemembered(h: Hash, enc: Encoders, s: Store, m: Memory, lists: set<DiskBackedList>, before: Memory)
    requires PlainEncoders(enc) && m.cursors == map[] && InStep(lists, before)
    ensures CursorsGood(h, enc, s, m) && InStep(lists, m)
  {}

  lemma OneMore(h: Hash, enc: Encoders, s: Store, m: Memory, key: CursorKey, saved: SavedRoot,
                prefix: seq<Record>, lists: set<DiskBackedList>)
    requires PlainEncoders(enc) && CursorsGood(h, enc, s, m) && InStep(lists, m) && key.0 in lists
    requires CursorGood(h, enc, s, saved, key.1, prefix)
    requires key.0.Valid() && Fits(key.0.codec, key.0.Now(), CursorFor(saved), prefix)
    ensures var more := Memory(m.cursors[key := saved], m.taken[key := prefix]);
            CursorsGood(h, enc, s, more) && InStep(lists, more)
  {
    hide CursorGood, Fits;
  }

  /** What a list of records is stored as. */
  ghost function SequenceDoc(enc: Encoders, encoder: nat, records: seq<Record>): Option<Doc>
    requires PlainEncoders(enc)
  {
    var docs := RecordDocs(enc, encoder, records);
    if docs.None? then None else Some(CanonTree(docs.value))
  }

  lemma SequenceDocOf(enc: Encoders, views: Views, v: Documents.Value)
    requires PlainEncoders(enc) && v.Sequence? && v.source in views && v.length <= |views[v.source]|
    ensures DocOf(enc, views, v) == SequenceDoc(enc, v.encoder, views[v.source][..v.length])
  {
    var records := views[v.source][..v.length];
    assert seq(|records|, i requires 0 <= i < |records| => DocOf(enc, map[], enc(v.encoder)(records[i])))
        == seq(v.length, i requires 0 <= i < v.length =>
             DocOf(enc, map[], enc(v.encoder)(views[v.source][i])));
  }

  lemma ListDocOfRecords(enc: Encoders, encoder: nat, records: seq<Record>, values: seq<Documents.Value>)
    requires PlainEncoders(enc) && |values| == |records|
    requires forall i | 0 <= i < |records| :: values[i] == enc(encoder)(records[i])
    ensures ListDoc(enc, map[], values) == SequenceDoc(enc, encoder, records)
  {
    assert seq(|records|, i requires 0 <= i < |records| => DocOf(enc, map[], enc(encoder)(records[i])))
        == seq(|values|, i requires 0 <= i < |values| => DocOf(enc, map[], values[i]));
  }

  lemma RecordNeeds(enc: Encoders, encoder: nat, records: seq<Record>, i: nat)
    requires PlainEncoders(enc) && i < |records|
    ensures DocOf(enc, map[], enc(encoder)(records[i])).None? ==> SequenceDoc(enc, encoder, records).None?
  {
    var options := seq(|records|, j requires 0 <= j < |records| => DocOf(enc, map[], enc(encoder)(records[j])));
    assert options[i] == DocOf(enc, map[], enc(encoder)(records[i]));
  }

  lemma RecordDocsStep(enc: Encoders, encoder: nat, records: seq<Record>, position: nat, record: Record)
    requires PlainEncoders(enc) && position <= |records| && RecordDocs(enc, encoder, records).Some?
    requires DocOf(enc, map[], enc(encoder)(record)).Some?
    ensures RecordDocs(enc, encoder, SetOrAppend(records, position, record))
            == Some(SetOrAppend(RecordDocs(enc, encoder, records).value, position,
                                DocOf(enc, map[], enc(encoder)(record)).value))
  {
    var next := SetOrAppend(records, position, record);
    var options := seq(|records|, i requires 0 <= i < |records| => DocOf(enc, map[], enc(encoder)(records[i])));
    AllSomeAt(options, RecordDocs(enc, encoder, records).value);
    forall i | 0 <= i < |records|
      ensures DocOf(enc, map[], enc(encoder)(records[i])) == Some(RecordDocs(enc, encoder, records).value[i])
    {
      assert options[i] == DocOf(enc, map[], enc(encoder)(records[i]));
    }
    AllSomeOf(seq(|next|, i requires 0 <= i < |next| => DocOf(enc, map[], enc(encoder)(next[i]))),
              SetOrAppend(RecordDocs(enc, encoder, records).value, position,
                          DocOf(enc, map[], enc(encoder)(record)).value));
  }

  ghost predicate AllCurrent(pairs: seq<(nat, Record)>, view: seq<Record>, stop: nat)
    requires stop <= |view|
  {
    forall i | 0 <= i < |pairs| :: pairs[i].0 < stop && pairs[i].1 == view[pairs[i].0]
  }

  lemma {:induction false} ChangedAreCurrent(c: Codec, rows: seq<Row>, revision: int, length: nat,
                                             k: nat, stop: nat, view: seq<Record>)
    requires stop <= |rows| == |view|
    requires forall i | 0 <= i < |rows| :: c.loads(rows[i].payload) == view[i]
    ensures AllCurrent(ChangedFrom(c, rows, revision, length, k, stop), view, stop)
    decreases stop - k
  {
    if k < stop {
      ChangedAreCurrent(c, rows, revision, length, k + 1, stop, view);
      var rest := ChangedFrom(c, rows, revision, length, k + 1, stop);
      assert AllCurrent([(k, c.loads(rows[k].payload))] + rest, view, stop);
    }
  }

  /** Every pair handed out is the record now standing at its position. */
  lemma ChangesAreCurrent(c: Codec, s: State, cur: Cursor, stop: nat)
    requires Inv(c, s) && stop <= |s.rows|
    ensures |Flush(c, s).rows| == |s.rows| == |s.View(c)|
    ensures AllCurrent(Changes(c, Flush(c, s), cur, stop), s.View(c), stop)
  {
    FlushKeeps(c, s);
    var rows := Flush(c, s).rows;
    assert forall i | 0 <= i < |rows| :: c.loads(rows[i].payload) == s.View(c)[i];
    if cur.generation != s.generation || stop < cur.length {
      ChangedAreCurrent(c, rows, -1, 0, 0, stop, s.View(c));
    } else {
      ChangedAreCurrent(c, rows, cur.revision, cur.length, 0, stop, s.View(c));
    }
  }

  ghost predicate DocsOf(enc: Encoders, views: Views, values: seq<Documents.Value>, docs: seq<Doc>)
    requires PlainEncoders(enc)
  {
    |docs| == |values| && forall j | 0 <= j < |values| :: DocOf(enc, views, values[j]) == Some(docs[j])
  }

  lemma DocsOfStep(enc: Encoders, views: Views, values: seq<Documents.Value>, i: nat, docs: seq<Doc>)
    requires PlainEncoders(enc) && i < |values| && DocsOf(enc, views, values[..i], docs)
    requires DocOf(enc, views, values[i]).Some?
    ensures DocsOf(enc, views, values[..i + 1], docs + [DocOf(enc, views, values[i]).value])
  {}

  ghost predicate MembersOf(enc: Encoders, views: Views, entries: seq<Entry>, members: seq<Member>)
    requires PlainEncoders(enc)
  {
    && |members| == |entries|
    && forall j | 0 <= j < |entries| ::
         MemberOf(entries[j].key, DocOf(enc, views, entries[j].value)) == Some(members[j])
  }

  lemma MembersOfStep(enc: Encoders, views: Views, entries: seq<Entry>, i: nat, members: seq<Member>)
    requires PlainEncoders(enc) && i < |entries| && MembersOf(enc, views, entries[..i], members)
    requires MemberOf(entries[i].key, DocOf(enc, views, entries[i].value)).Some?
    ensures MembersOf(enc, views, entries[..i + 1],
                      members + [MemberOf(entries[i].key, DocOf(enc, views, entries[i].value)).value])
  {}

  lemma MemberAdded(h: Hash, s: Store, s': Store, members: seq<Member>, m: Member)
    requires AllHeld(h, s, Parts(Object(members))) && Grows(s, s') && Held(h, s', m.doc)
    ensures AllHeld(h, s', Parts(Object(members + [m])))
    ensures NodeOf(h, Object(members + [m])).members
            == NodeOf(h, Object(members)).members + [Ref(m.name, Root(h, m.doc))]
  {
    AllHeldGrows(h, s, s', Parts(Object(members)));
    assert Parts(Object(members + [m])) == Parts(Object(members)) + [m.doc];
  }

  ghost function ListDoc(enc: Encoders, views: Views, values: seq<Documents.Value>): Option<Doc>
    requires PlainEncoders(enc)
  {
    var docs := AllSome(seq(|values|, i requires 0 <= i < |values| => DocOf(enc, views, values[i])));
    if docs.None? then None else Some(CanonTree(docs.value))
  }

  lemma ListDocNeeds(enc: Encoders, views: Views, values: seq<Documents.Value>, i: nat)
    requires PlainEncoders(enc) && i < |values|
    ensures DocOf(enc, views, values[i]).None? ==> ListDoc(enc, views, values).None?
  {
    var options := seq(|values|, j requires 0 <= j < |values| => DocOf(enc, views, values[j]));
    assert options[i] == DocOf(enc, views, values[i]);
  }

  predicate PlainAll(values: seq<Documents.Value>) {
    forall i | 0 <= i < |values| :: Plain(values[i])
  }

  lemma ListDocOf(enc: Encoders, views: Views, values: seq<Documents.Value>, docs: seq<Doc>)
    requires PlainEncoders(enc) && DocsOf(enc, views, values[..|values|], docs)
    ensures ListDoc(enc, views, values) == Some(CanonTree(docs))
  {
    AllSomeOf(seq(|values|, i requires 0 <= i < |values| => DocOf(enc, views, values[i])), docs);
  }

  lemma DictNeeds(enc: Encoders, views: Views, v: Documents.Value, i: nat)
    requires PlainEncoders(enc) && v.Dict? && i < |v.entries|
    ensures MemberOf(v.entries[i].key, DocOf(enc, views, v.entries[i].value)).None?
            ==> DocOf(enc, views, v).None?
  {
    var entries := v.entries;
    var options := seq(|entries|, j requires 0 <= j < |entries| =>
      MemberOf(entries[j].key, DocOf(enc, views, entries[j].value)));
    assert options[i] == MemberOf(entries[i].key, DocOf(enc, views, entries[i].value));
  }

  lemma DictDocOf(enc: Encoders, views: Views, v: Documents.Value, members: seq<Member>)
    requires PlainEncoders(enc) && v.Dict? && MembersOf(enc, views, v.entries[..|v.entries|], members)
    ensures DocOf(enc, views, v) == Some(Object(members))
  {
    var entries := v.entries;
    AllSomeOf(seq(|entries|, j requires 0 <= j < |entries| =>
      MemberOf(entries[j].key, DocOf(enc, views, entries[j].value))), members);
  }

  lemma ListDocIsListing(enc: Encoders, views: Views, v: Documents.Value)
    requires PlainEncoders(enc) && v.Listing?
    ensures DocOf(enc, views, v) == ListDoc(enc, views, v.elements)
    ensures Plain(v) == PlainAll(v.elements)
  {}
}
