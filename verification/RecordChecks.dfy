/** What a reader insists on, told from the rows themselves: every row that can be reached is there,
    matches its key and is a record, and a checkpoint has its two parts and nothing else. */
module RecordChecks {
  import opened ChunkTree
  import opened Documents
  import opened Records
  import opened RecordReader
  import opened CheckpointReader

  predicate IsList(n: Node) {
    n.ListNode? || n.ConcatNode?
  }

  /** The row is there, its payload hashes to its key, it is a record, and chunks are lists. */
  predicate GoodRow(h: Hash, s: Store, d: Digest) {
    && d in s && h(s[d]) == d && !s[d].ForeignNode?
    && (s[d].ConcatNode? ==> forall i | 0 <= i < |s[d].chunks| :: s[d].chunks[i] in s && IsList(s[s[d].chunks[i]]))
  }

  /** Each row of the path refers to the next. */
  ghost predicate Path(s: Store, path: seq<Digest>) {
    path != [] && forall i | 0 <= i < |path| - 1 :: path[i] in s && path[i + 1] in RefsOf(s[path[i]])
  }

  lemma RestIsPath(s: Store, path: seq<Digest>)
    requires Path(s, path) && |path| > 1
    ensures Path(s, path[1..])
  {
    var rest := path[1..];
    forall j | 0 <= j < |rest| - 1 ensures rest[j] in s && rest[j + 1] in RefsOf(s[rest[j]]) {
      assert rest[j] == path[j + 1];
    }
  }

  lemma {:induction false} SoundPath(h: Hash, s: Store, rank: map<Digest, nat>, path: seq<Digest>)
    requires Ranked(h, s, rank) && Path(s, path) && SoundAt(h, s, rank, path[0])
    ensures GoodRow(h, s, path[|path| - 1])
    decreases |path|
  {
    var d := path[0];
    SoundNode(h, s, rank, d, RefsOf(s[d]));
    if |path| == 1 {
      SoundIsGood(h, s, rank, d);
    } else {
      var i :| 0 <= i < |RefsOf(s[d])| && RefsOf(s[d])[i] == path[1];
      RestIsPath(s, path);
      SoundPath(h, s, rank, path[1..]);
    }
  }

  lemma SoundIsGood(h: Hash, s: Store, rank: map<Digest, nat>, d: Digest)
    requires Ranked(h, s, rank) && SoundAt(h, s, rank, d)
    ensures GoodRow(h, s, d)
  {
    SoundNode(h, s, rank, d, RefsOf(s[d]));
    hide SoundAt;
    if s[d].ConcatNode? {
      forall i | 0 <= i < |s[d].chunks| ensures s[d].chunks[i] in s && IsList(s[s[d].chunks[i]]) {
        assert IsChunk(NodeAt(h, s, RefsOf(s[d])[i]));
      }
    }
  }

  ghost predicate AllPathsGood(h: Hash, s: Store, d: Digest) {
    forall path | Path(s, path) && path[0] == d :: GoodRow(h, s, path[|path| - 1])
  }

  lemma PathsFromRef(h: Hash, s: Store, d: Digest, i: nat)
    requires AllPathsGood(h, s, d) && d in s && i < |RefsOf(s[d])|
    ensures AllPathsGood(h, s, RefsOf(s[d])[i])
  {
    hide GoodRow;
    forall path | Path(s, path) && path[0] == RefsOf(s[d])[i] ensures GoodRow(h, s, path[|path| - 1]) {
      var longer := [d] + path;
      assert forall j | 0 < j < |longer| :: longer[j] == path[j - 1];
      assert Path(s, longer) && longer[|longer| - 1] == path[|path| - 1];
    }
  }

  lemma {:induction false} GoodPathsAreSound(h: Hash, s: Store, rank: map<Digest, nat>, d: Digest)
    requires Ranked(h, s, rank) && AllPathsGood(h, s, d)
    ensures SoundAt(h, s, rank, d)
    decreases Level(h, s, rank, d)
  {
    assert Path(s, [d]) && GoodRow(h, s, [d][0]);
    var refs := RefsOf(s[d]);
    hide AllPathsGood, SoundAt;
    forall i | 0 <= i < |refs| ensures SoundAt(h, s, rank, refs[i]) {
      LevelFalls(h, s, rank, d, i);
      PathsFromRef(h, s, d, i);
      GoodPathsAreSound(h, s, rank, refs[i]);
    }
    if s[d].ConcatNode? {
      forall i | 0 <= i < |refs| ensures IsChunk(NodeAt(h, s, refs[i])) { SoundIsGood(h, s, rank, refs[i]); }
    }
    SoundNode(h, s, rank, d, refs);
  }

  /** A digest is verified, and can be decoded, if and only if every row that can be reached from it is there,
      matches its key, is a record, and has lists for chunks. */
  lemma ReadableIffRowsGood(h: Hash, s: Store, rank: map<Digest, nat>, d: Digest)
    requires Ranked(h, s, rank)
    ensures SoundAt(h, s, rank, d) <==> forall path | Path(s, path) && path[0] == d :: GoodRow(h, s, path[|path| - 1])
    ensures Decode(h, s, rank, d, Everything).Some? <==>
              forall path | Path(s, path) && path[0] == d :: GoodRow(h, s, path[|path| - 1])
  {
    SoundIffDecodes(h, s, rank, d);
    hide SoundAt, Decode, GoodRow, Path;
    if SoundAt(h, s, rank, d) {
      forall path | Path(s, path) && path[0] == d ensures GoodRow(h, s, path[|path| - 1]) {
        SoundPath(h, s, rank, path);
      }
    }
    if AllPathsGood(h, s, d) { GoodPathsAreSound(h, s, rank, d); }
  }

  // ---------- the two parts of a checkpoint ----------

  /** Member i is the last of its name. */
  predicate LastNamed(members: seq<Ref>, i: int, name: string) {
    0 <= i < |members| && members[i].name == name && forall j | i < j < |members| :: members[j].name != name
  }

  lemma {:induction false} LastOf(members: seq<Ref>, i: nat) returns (k: int)
    requires i < |members|
    ensures LastNamed(members, k, members[i].name)
    decreases |members| - i
  {
    if LastNamed(members, i, members[i].name) {
      k := i;
    } else {
      var j :| i < j < |members| && members[j].name == members[i].name;
      k := LastOf(members, j);
    }
  }

  lemma {:induction false} ReferencesAre(members: seq<Ref>)
    ensures forall i, name | LastNamed(members, i, name) ::
              name in References(members) && References(members)[name] == members[i].digest
    ensures forall name :: name in References(members) <==> exists i :: LastNamed(members, i, name)
  {
    if members != [] {
      var n := |members| - 1;
      ReferencesAre(members[..n]);
      forall i, name | LastNamed(members, i, name)
        ensures name in References(members) && References(members)[name] == members[i].digest
      {
        assert i == n || LastNamed(members[..n], i, name);
      }
      forall name | name in References(members) ensures exists i :: LastNamed(members, i, name) {
        if name == members[n].name {
          assert LastNamed(members, n, name);
        } else {
          var i :| LastNamed(members[..n], i, name);
          assert LastNamed(members, i, name);
        }
      }
    }
  }

  /** There is a member of each of the two names, and none of any other. */
  ghost predicate TwoParts(members: seq<Ref>) {
    && (forall m | m in members :: m.name in {"checkpoint", "summary"})
    && (exists m | m in members :: m.name == "checkpoint") && exists m | m in members :: m.name == "summary"
  }

  lemma NamesAre(members: seq<Ref>)
    ensures References(members).Keys == {"checkpoint", "summary"} <==> TwoParts(members)
  {
    ReferencesAre(members);
    hide References;
    forall m | m in members ensures m.name in References(members) {
      var i :| 0 <= i < |members| && members[i] == m;
      var k := LastOf(members, i);
    }
    forall name | name in References(members) ensures exists m | m in members :: m.name == name {
      var i :| LastNamed(members, i, name);
      assert members[i] in members;
    }
    hide LastNamed;
    if TwoParts(members) { assert References(members).Keys == {"checkpoint", "summary"}; }
  }

  /** The last member of the name decodes to an object. */
  ghost predicate PartReads(h: Hash, s: Store, rank: map<Digest, nat>, members: seq<Ref>, name: string, fields: Fields,
                            j: Json)
    requires Ranked(h, s, rank)
  {
    j.JObject? && exists i :: LastNamed(members, i, name) && Decode(h, s, rank, members[i].digest, fields) == Some(j)
  }

  /** A part of a checkpoint can be loaded if and only if the root's row is there, matches its key and is an
      object, its members are named exactly "checkpoint" and "summary", and the last of the part's name
      decodes to an object; and that is what is loaded. */
  lemma LoadsIff(h: Hash, s: Store, rank: map<Digest, nat>, root: Digest, summaryOnly: bool, fields: Fields, j: Json)
    requires Ranked(h, s, rank)
    ensures Load(h, s, rank, root, summaryOnly, fields) == Some(j) <==>
              && root in s && h(s[root]) == root && s[root].ObjectNode? && TwoParts(s[root].members)
              && PartReads(h, s, rank, s[root].members, if summaryOnly then "summary" else "checkpoint", fields, j)
  {
    hide Decode, References, TwoParts, LastNamed;
    if root in s && h(s[root]) == root && s[root].ObjectNode? {
      ReferencesAre(s[root].members);
      NamesAre(s[root].members);
    }
  }
}
