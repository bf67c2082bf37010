/** Reading back: documents decode to their JSON, projections commute with decoding, and a shared
    verification pass over many roots is sound and complete. */
module RecordReader {
  import opened ChunkTree
  import opened Documents
  import opened Records

  lemma {:induction false} KeepsAll(names: seq<string>)
    ensures Kept(names, Everything) == seq(|names|, i requires 0 <= i < |names| => i)
  {
    if names != [] { KeepsAll(names[..|names| - 1]); }
  }

  function DecodeAll(h: Hash, s: Store, ghost rank: map<Digest, nat>, ds: seq<Digest>): (r: seq<Option<Json>>)
    requires Ranked(h, s, rank)
  {
    seq(|ds|, i requires 0 <= i < |ds| => Decode(h, s, rank, ds[i], Everything))
  }

  function DecodeKept(h: Hash, s: Store, ghost rank: map<Digest, nat>, members: seq<Ref>, fields: Fields)
      : seq<Option<Json>>
    requires Ranked(h, s, rank)
  {
    var kept := Kept(Names(members), fields);
    seq(|kept|, k requires 0 <= k < |kept| =>
      Decode(h, s, rank, members[kept[k]].digest, Below(fields, members[kept[k]].name)))
  }

  function KeptNames(names: seq<string>, fields: Fields): seq<string> {
    var kept := Kept(names, fields);
    seq(|kept|, k requires 0 <= k < |kept| => names[kept[k]])
  }

  function ArrayOf(js: Option<seq<Json>>): Option<Json> {
    if js.None? then None else Some(JArray(js.value))
  }

  function ObjectOf(names: seq<string>, js: Option<seq<Json>>): Option<Json>
    requires js.Some? ==> |js.value| == |names|
  {
    if js.None? then None else Some(JObject(Fold(names, js.value)))
  }

  /** What a record reads as, given how its references read. */
  function Read(h: Hash, s: Store, ghost rank: map<Digest, nat>, node: Node, fields: Fields): Option<Json>
    requires Ranked(h, s, rank)
  {
    match node
    case ValueNode(scalar) => Some(JAtom(scalar))
    case ListNode(items) => ArrayOf(AllSome(DecodeAll(h, s, rank, items)))
    case ConcatNode(chunks) => Joined(AllSome(DecodeAll(h, s, rank, chunks)))
    case ObjectNode(members) =>
      ObjectOf(KeptNames(Names(members), fields), AllSome(DecodeKept(h, s, rank, members, fields)))
    case ForeignNode(_) => None
  }

  /** One step of reading, by the kind of the record. */
  lemma DecodeNode(h: Hash, s: Store, rank: map<Digest, nat>, d: Digest, fields: Fields)
    requires Ranked(h, s, rank)
    ensures Decode(h, s, rank, d, fields)
            == if NodeAt(h, s, d).None? then None else Read(h, s, rank, NodeAt(h, s, d).value, fields)
  {
    if NodeAt(h, s, d).Some? {
      var node := NodeAt(h, s, d).value;
      if node.ListNode? {
        var items := node.items;
        assert DecodeAll(h, s, rank, items) == seq(|items|, i requires 0 <= i < |items| =>
          LevelFalls(h, s, rank, d, i); Decode(h, s, rank, items[i], Everything));
      } else if node.ConcatNode? {
        var chunks := node.chunks;
        assert DecodeAll(h, s, rank, chunks) == seq(|chunks|, i requires 0 <= i < |chunks| =>
          LevelFalls(h, s, rank, d, i); Decode(h, s, rank, chunks[i], Everything));
      } else if node.ObjectNode? {
        var members := node.members;
        var kept := Kept(Names(members), fields);
        assert DecodeKept(h, s, rank, members, fields) == seq(|kept|, k requires 0 <= k < |kept| =>
          var m := members[kept[k]];
          LevelFalls(h, s, rank, d, kept[k]); Decode(h, s, rank, m.digest, Below(fields, m.name)));
        assert KeptNames(Names(members), fields)
            == seq(|kept|, k requires 0 <= k < |kept| => members[kept[k]].name);
      }
    }
  }

  /** Reading every field of an object reads every member in order. */
  lemma DecodeWhole(h: Hash, s: Store, rank: map<Digest, nat>, members: seq<Ref>)
    requires Ranked(h, s, rank)
    ensures KeptNames(Names(members), Everything) == Names(members)
    ensures DecodeKept(h, s, rank, members, Everything)
            == DecodeAll(h, s, rank, RefsOf(ObjectNode(members)))
  {
    KeepsAll(Names(members));
  }

  function DocJsons(ds: seq<Doc>): seq<Option<Json>> {
    seq(|ds|, i requires 0 <= i < |ds| => DocJson(ds[i]))
  }

  lemma ObjectDecodes(h: Hash, s: Store, rank: map<Digest, nat>, members: seq<Member>)
    requires Ranked(h, s, rank)
    requires forall i | 0 <= i < |members| ::
               Decode(h, s, rank, Root(h, members[i].doc), Everything) == DocJson(members[i].doc)
    ensures Read(h, s, rank, NodeOf(h, Object(members)), Everything) == DocJson(Object(members))
  {
    var refs := NodeOf(h, Object(members)).members;
    DecodeWhole(h, s, rank, refs);
    assert DecodeAll(h, s, rank, RefsOf(ObjectNode(refs)))
        == seq(|members|, i requires 0 <= i < |members| => DocJson(members[i].doc));
    assert Names(refs) == seq(|members|, i requires 0 <= i < |members| => members[i].name);
  }

  /** A document whose nodes are in the table decodes to its JSON, whatever else is there. */
  lemma {:induction false} HeldDecodes(h: Hash, s: Store, rank: map<Digest, nat>, d: Doc)
    requires Ranked(h, s, rank) && Held(h, s, d)
    ensures Decode(h, s, rank, Root(h, d), Everything) == DocJson(d)
  {
    DecodeNode(h, s, rank, Root(h, d), Everything);
    match d
    case Value(_) =>
    case List(items) =>
      forall i | 0 <= i < |items| { HeldDecodes(h, s, rank, items[i]); }
      assert DecodeAll(h, s, rank, NodeOf(h, d).items) == DocJsons(items);
    case Concat(chunks) =>
      forall i | 0 <= i < |chunks| { HeldDecodes(h, s, rank, chunks[i]); }
      assert DecodeAll(h, s, rank, NodeOf(h, d).chunks) == DocJsons(chunks);
    case Object(members) =>
      forall i | 0 <= i < |members| { HeldDecodes(h, s, rank, members[i].doc); }
      ObjectDecodes(h, s, rank, members);
  }

  // ---------- later saves ----------

  lemma ReadStable(h: Hash, s: Store, s': Store, rank: map<Digest, nat>, rank': map<Digest, nat>,
                   n: Node, fields: Fields)
    requires Ranked(h, s, rank) && Ranked(h, s', rank') && Read(h, s, rank, n, fields).Some?
    requires forall i, f | 0 <= i < |RefsOf(n)| && Decode(h, s, rank, RefsOf(n)[i], f).Some? ::
               Decode(h, s', rank', RefsOf(n)[i], f) == Decode(h, s, rank, RefsOf(n)[i], f)
    ensures Read(h, s', rank', n, fields) == Read(h, s, rank, n, fields)
  {
    if n.ObjectNode? {
      var options := DecodeKept(h, s, rank, n.members, fields);
      forall k | 0 <= k < |options| ensures DecodeKept(h, s', rank', n.members, fields)[k] == options[k] {
        assert RefsOf(n)[Kept(Names(n.members), fields)[k]] == n.members[Kept(Names(n.members), fields)[k]].digest;
        assert options[k].Some?;
      }
      assert DecodeKept(h, s', rank', n.members, fields) == options;
    } else if n.ListNode? || n.ConcatNode? {
      var options := DecodeAll(h, s, rank, RefsOf(n));
      forall k | 0 <= k < |options| ensures DecodeAll(h, s', rank', RefsOf(n))[k] == options[k] {
        assert options[k].Some?;
      }
      assert DecodeAll(h, s', rank', RefsOf(n)) == options;
    }
  }

  /** What could be read once reads the same after any later save. */
  lemma {:induction false} DecodeStable(h: Hash, s: Store, s': Store, rank: map<Digest, nat>,
                                        rank': map<Digest, nat>, d: Digest, fields: Fields)
    requires Ranked(h, s, rank) && Ranked(h, s', rank') && Grows(s, s')
    requires Decode(h, s, rank, d, fields).Some?
    ensures Decode(h, s', rank', d, fields) == Decode(h, s, rank, d, fields)
    decreases Level(h, s, rank, d)
  {
    DecodeNode(h, s, rank, d, fields);
    DecodeNode(h, s', rank', d, fields);
    var node := NodeAt(h, s, d).value;
    forall i, f | 0 <= i < |RefsOf(node)| && Decode(h, s, rank, RefsOf(node)[i], f).Some?
      ensures Decode(h, s', rank', RefsOf(node)[i], f) == Decode(h, s, rank, RefsOf(node)[i], f)
    {
      LevelFalls(h, s, rank, d, i);
      DecodeStable(h, s, s', rank, rank', RefsOf(node)[i], f);
    }
    ReadStable(h, s, s', rank, rank', node, fields);
  }

  // ---------- projection ----------

  /** Keep only the wanted fields of an object; anything else is kept whole. */
  function Project(j: Json, fields: Fields): Json
    decreases fields
  {
    if j.JObject? && fields.Only? then
      JObject(map k | k in j.fields && k in fields.names :: Project(j.fields[k], fields.names[k]))
    else j
  }

  /** The wanted values, each cut down to its own wanted fields. */
  function Projected(names: seq<string>, values: seq<Json>, fields: Fields): seq<Json>
    requires |names| == |values|
  {
    var kept := Kept(names, fields);
    seq(|kept|, k requires 0 <= k < |kept| => Project(values[kept[k]], Below(fields, names[kept[k]])))
  }

  lemma KeptStep(names: seq<string>, values: seq<Json>, fields: Fields)
    requires |names| == |values| > 0
    ensures var n := |names| - 1;
            && KeptNames(names, fields)
               == KeptNames(names[..n], fields) + (if Wanted(fields, names[n]) then [names[n]] else [])
            && Projected(names, values, fields)
               == Projected(names[..n], values[..n], fields)
                  + (if Wanted(fields, names[n]) then [Project(values[n], Below(fields, names[n]))] else [])
  {}

  lemma FoldSnoc(names: seq<string>, values: seq<Json>, name: string, value: Json)
    requires |names| == |values|
    ensures Fold(names + [name], values + [value]) == Fold(names, values)[name := value]
  {
    assert (names + [name])[..|names|] == names && (values + [value])[..|values|] == values;
  }

  lemma ProjectUpdate(m: map<string, Json>, name: string, value: Json, fields: Fields)
    requires fields.Only?
    ensures var p := Project(JObject(m), fields);
            Project(JObject(m[name := value]), fields)
            == if Wanted(fields, name) then JObject(p.fields[name := Project(value, Below(fields, name))]) else p
  {}

  /** Keeping one more member, or dropping it, on both sides. */
  lemma FoldKeptJoin(names: seq<string>, values: seq<Json>, m: map<string, Json>,
                     name: string, value: Json, fields: Fields)
    requires |names| == |values| && fields.Only?
    requires JObject(Fold(names, values)) == Project(JObject(m), fields)
    ensures var w := Wanted(fields, name);
            JObject(Fold(names + (if w then [name] else []),
                         values + (if w then [Project(value, Below(fields, name))] else [])))
            == Project(JObject(m[name := value]), fields)
  {
    ProjectUpdate(m, name, value, fields);
    if Wanted(fields, name) {
      FoldSnoc(names, values, name, Project(value, Below(fields, name)));
    } else {
      assert names + [] == names && values + [] == values;
    }
  }

  lemma {:induction false} FoldKept(names: seq<string>, values: seq<Json>, fields: Fields)
    requires |names| == |values| && fields.Only?
    ensures JObject(Fold(KeptNames(names, fields), Projected(names, values, fields)))
            == Project(JObject(Fold(names, values)), fields)
  {
    if names == [] {
      assert Project(JObject(map[]), fields) == JObject(map[]);
    } else {
      var n := |names| - 1;
      FoldKept(names[..n], values[..n], fields);
      KeptStep(names, values, fields);
      FoldKeptJoin(KeptNames(names[..n], fields), Projected(names[..n], values[..n], fields),
                   Fold(names[..n], values[..n]), names[n], values[n], fields);
    }
  }

  /** Reading only some fields is reading everything and then keeping those fields. */
  lemma {:induction false} ProjectionCommutes(h: Hash, s: Store, rank: map<Digest, nat>, d: Digest,
                                              fields: Fields, j: Json)
    requires Ranked(h, s, rank) && Decode(h, s, rank, d, Everything) == Some(j)
    ensures Decode(h, s, rank, d, fields) == Some(Project(j, fields))
    decreases fields
  {
    DecodeNode(h, s, rank, d, Everything);
    DecodeNode(h, s, rank, d, fields);
    var node := NodeAt(h, s, d).value;
    if node.ObjectNode? && fields.Only? {
      var names := Names(node.members);
      DecodeWhole(h, s, rank, node.members);
      var options := DecodeAll(h, s, rank, RefsOf(node));
      var js := AllSome(options).value;
      AllSomeAt(options, js);
      var kept := Kept(names, fields);
      forall k | 0 <= k < |kept|
        ensures DecodeKept(h, s, rank, node.members, fields)[k] == Some(Projected(names, js, fields)[k])
      {
        KeptWanted(names, fields, k);
        assert options[kept[k]] == Some(js[kept[k]]);
        ProjectionCommutes(h, s, rank, node.members[kept[k]].digest, fields.names[names[kept[k]]], js[kept[k]]);
      }
      AllSomeOf(DecodeKept(h, s, rank, node.members, fields), Projected(names, js, fields));
      FoldKept(names, js, fields);
    }
  }

  lemma {:induction false} KeptWanted(names: seq<string>, fields: Fields, k: nat)
    requires k < |Kept(names, fields)|
    ensures Wanted(fields, names[Kept(names, fields)[k]])
    decreases |names|
  {
    var n := |names| - 1;
    if k < |Kept(names[..n], fields)| { KeptWanted(names[..n], fields, k); }
  }

  // ---------- verification ----------

  /** The whole closure under a digest is present and well formed. */
  ghost predicate SoundAt(h: Hash, s: Store, rank: map<Digest, nat>, d: Digest)
    requires Ranked(h, s, rank)
    decreases Level(h, s, rank, d)
  {
    var node := NodeAt(h, s, d);
    && node.Some?
    && (forall i | 0 <= i < |RefsOf(node.value)| ::
          && (LevelFalls(h, s, rank, d, i); SoundAt(h, s, rank, RefsOf(node.value)[i]))
          && (node.value.ConcatNode? ==> IsChunk(NodeAt(h, s, RefsOf(node.value)[i]))))
  }

  lemma SoundNode(h: Hash, s: Store, rank: map<Digest, nat>, d: Digest, refs: seq<Digest>)
    requires Ranked(h, s, rank) && NodeAt(h, s, d).Some? && refs == RefsOf(NodeAt(h, s, d).value)
    ensures SoundAt(h, s, rank, d) <==>
              && (forall i | 0 <= i < |refs| :: SoundAt(h, s, rank, refs[i]))
              && (NodeAt(h, s, d).value.ConcatNode? ==>
                    forall i | 0 <= i < |refs| :: IsChunk(NodeAt(h, s, refs[i])))
  {}

  lemma JoinedSome(options: seq<Option<Json>>)
    ensures Joined(AllSome(options)).Some?
            <==> forall i | 0 <= i < |options| :: options[i].Some? && options[i].value.JArray?
  {
    var parts := AllSome(options);
    if parts.Some? {
      assert forall i | 0 <= i < |options| :: options[i].value == parts.value[i];
    }
  }

  /** Verification accepts exactly what decoding can read. */
  lemma {:induction false} SoundIffDecodes(h: Hash, s: Store, rank: map<Digest, nat>, d: Digest)
    requires Ranked(h, s, rank)
    ensures SoundAt(h, s, rank, d) <==> Decode(h, s, rank, d, Everything).Some?
    ensures var r := Decode(h, s, rank, d, Everything);
            r.Some? ==> (r.value.JArray? <==> IsChunk(NodeAt(h, s, d)))
    decreases Level(h, s, rank, d)
  {
    DecodeNode(h, s, rank, d, Everything);
    var node := NodeAt(h, s, d);
    if node.Some? {
      var refs := RefsOf(node.value);
      var options := DecodeAll(h, s, rank, refs);
      forall i | 0 <= i < |refs|
        ensures SoundAt(h, s, rank, refs[i]) <==> options[i].Some?
        ensures options[i].Some? ==> (options[i].value.JArray? <==> IsChunk(NodeAt(h, s, refs[i])))
      {
        LevelFalls(h, s, rank, d, i);
        SoundIffDecodes(h, s, rank, refs[i]);
      }
      SoundNode(h, s, rank, d, refs);
      JoinedSome(options);
      if node.value.ObjectNode? { DecodeWhole(h, s, rank, node.value.members); }
    }
  }

  /** The set of digests verified so far, shared by the roots of one directory scan. */
  class VerifiedSet {
    var digests: set<Digest>

    constructor ()
      ensures digests == {}
    {
      digests := {};
    }

    ghost predicate Valid(h: Hash, s: Store, rank: map<Digest, nat>)
      reads this
      requires Ranked(h, s, rank)
    {
      forall d <- digests :: SoundAt(h, s, rank, d)
    }

    /** True when the closure is good, false where Looplet raises; partial progress stays. */
    method Visit(h: Hash, s: Store, ghost rank: map<Digest, nat>, d: Digest) returns (ok: bool)
      requires Ranked(h, s, rank) && Valid(h, s, rank)
      modifies this
      ensures Valid(h, s, rank) && old(digests) <= digests
      ensures ok <==> SoundAt(h, s, rank, d)
      ensures ok ==> d in digests
      decreases Level(h, s, rank, d)
    {
      if d in digests { return true; }
      var node := NodeAt(h, s, d);
      if node.None? { return false; }
      var refs := RefsOf(node.value);
      var i := 0;
      while i < |refs|
        invariant 0 <= i <= |refs| && Valid(h, s, rank) && old(digests) <= digests
        invariant forall j | 0 <= j < i :: SoundAt(h, s, rank, refs[j])
        invariant node.value.ConcatNode? ==> forall j | 0 <= j < i :: IsChunk(NodeAt(h, s, refs[j]))
      {
        if node.value.ConcatNode? && !IsChunk(NodeAt(h, s, refs[i])) { return false; }
        LevelFalls(h, s, rank, d, i);
        var good := Visit(h, s, rank, refs[i]);
        if !good { return false; }
        i := i + 1;
      }
      digests := digests + {d};
      ok := true;
    }
  }

  /** A digest accepted once, by whichever root came first, can always be decoded. */
  lemma VerifiedDecodes(h: Hash, s: Store, rank: map<Digest, nat>, verified: VerifiedSet, d: Digest)
    requires Ranked(h, s, rank) && verified.Valid(h, s, rank) && d in verified.digests
    ensures Decode(h, s, rank, d, Everything).Some?
  {
    hide Decode;
    SoundIffDecodes(h, s, rank, d);
  }

  // ---------- tables that were only ever written to ----------

  /** Every reference in a row leads to a checked row. */
  ghost predicate Closed(h: Hash, s: Store) {
    forall k | k in s :: NodeAt(h, s, k).Some? &&
      forall i | 0 <= i < |RefsOf(s[k])| :: NodeAt(h, s, RefsOf(s[k])[i]).Some?
  }

  ghost function MaxRank(rank: map<Digest, nat>, refs: seq<Digest>): nat {
    if refs == [] then 0
    else
      var rest, first := MaxRank(rank, refs[1..]), if refs[0] in rank then rank[refs[0]] + 1 else 0;
      if first > rest then first else rest
  }

  lemma {:induction false} MaxRankBounds(rank: map<Digest, nat>, refs: seq<Digest>, i: nat)
    requires i < |refs| && refs[i] in rank
    ensures rank[refs[i]] < MaxRank(rank, refs)
  {
    if i > 0 { MaxRankBounds(rank, refs[1..], i - 1); }
  }

  /** Writing a fresh row whose references are all there keeps a table closed and free of cycles,
      whatever the hash: an older row cannot refer to a key that was free when it was written. */
  lemma FreshRowKeepsRank(h: Hash, s: Store, rank: map<Digest, nat>, n: Node) returns (rank': map<Digest, nat>)
    requires Closed(h, s) && Ranked(h, s, rank) && h(n) !in s && !n.ForeignNode?
    requires forall i | 0 <= i < |RefsOf(n)| :: RefsOf(n)[i] in s
    ensures Closed(h, s[h(n) := n]) && Ranked(h, s[h(n) := n], rank')
  {
    var s' := s[h(n) := n];
    rank' := rank[h(n) := MaxRank(rank, RefsOf(n))];
    forall k | k in s ensures NodeAt(h, s', k) == NodeAt(h, s, k) {}
    forall i | 0 <= i < |RefsOf(n)| && RefsOf(n)[i] in rank
      ensures rank[RefsOf(n)[i]] < MaxRank(rank, RefsOf(n))
    {
      MaxRankBounds(rank, RefsOf(n), i);
    }
    forall k, i | k in s && 0 <= i < |RefsOf(s[k])| ensures RefsOf(s[k])[i] in s {
      assert NodeAt(h, s, RefsOf(s[k])[i]).Some?;
    }
  }

  /** A table every reference of which can be followed to the end. */
  ghost predicate Tidy(h: Hash, s: Store) {
    Closed(h, s) && exists rank: map<Digest, nat> :: Ranked(h, s, rank)
  }

  /** Some row does not match its key, or the hash takes two nodes for one. */
  ghost predicate Clashes(h: Hash, s: Store) {
    (exists k | k in s :: h(s[k]) != k) || exists a: Node, b: Node :: a != b && h(a) == h(b)
  }

  /** Rows were only added, a table that could be followed still can, and no row was added that does not
      match its key. */
  ghost predicate Extends(h: Hash, s: Store, s': Store) {
    Grows(s, s') && (Tidy(h, s) ==> Tidy(h, s')) && (Clashes(h, s') ==> Clashes(h, s))
  }

  lemma FreshRowExtends(h: Hash, s: Store, n: Node)
    requires h(n) !in s && !n.ForeignNode? && forall i | 0 <= i < |RefsOf(n)| :: RefsOf(n)[i] in s
    ensures Extends(h, s, s[h(n) := n])
  {
    FreshRowMatches(h, s, n);
    hide Clashes;
    if Tidy(h, s) {
      var rank :| Ranked(h, s, rank);
      var rank' := FreshRowKeepsRank(h, s, rank, n);
    }
  }

  lemma FreshRowMatches(h: Hash, s: Store, n: Node)
    ensures h(n) !in s && Clashes(h, s[h(n) := n]) ==> Clashes(h, s)
  {}
}
