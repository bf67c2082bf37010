/** For every document there are a hash and a table without cycles that hold it: the premises under
    which saved documents are read back can be met by any of them. */
module SampleTables {
  import opened ChunkTree
  import opened Records
  import opened RecordTable

  /** Where a node is listed first, and the length of the list when it is not. */
  function First(nodes: seq<Node>, n: Node): (i: nat)
    ensures i <= |nodes| && (i < |nodes| <==> n in nodes) && (i < |nodes| ==> nodes[i] == n)
  {
    if nodes == [] then 0
    else
      var k := |nodes| - 1;
      var i := First(nodes[..k], n);
      if i < k then i else if nodes[k] == n then k else |nodes|
  }

  lemma {:induction false} FirstStays(nodes: seq<Node>, more: seq<Node>, n: Node)
    requires nodes <= more && n in nodes
    ensures First(more, n) == First(nodes, n)
    decreases |more|
  {
    if |nodes| < |more| {
      FirstStays(nodes, more[..|more| - 1], n);
    } else {
      assert nodes == more;
    }
  }

  /** The digest of place k. */
  function Name(k: nat): (name: string)
    ensures |name| == k
  {
    seq(k, i => '1')
  }

  /** A hash that tells apart the nodes of a list. */
  function HashOf(nodes: seq<Node>): Hash {
    n => Name(First(nodes, n))
  }

  ghost function NamesOf(nodes: seq<Node>): (names: set<string>)
    ensures forall name <- names :: |name| < |nodes| && name == Name(|name|)
  {
    set k | 0 <= k < |nodes| :: Name(k)
  }

  ghost function TableOf(nodes: seq<Node>): Store {
    map name | name in NamesOf(nodes) :: nodes[|name|]
  }

  lemma ListedIsRow(nodes: seq<Node>, n: Node)
    requires n in nodes
    ensures HashOf(nodes)(n) in TableOf(nodes) && TableOf(nodes)[HashOf(nodes)(n)] == n
  {
    var k := First(nodes, n);
    assert Name(k) in NamesOf(nodes);
  }

  /** References lead to earlier places only. */
  ghost predicate Backward(nodes: seq<Node>) {
    forall k, i | 0 <= k < |nodes| && 0 <= i < |RefsOf(nodes[k])| :: |RefsOf(nodes[k])[i]| < k
  }

  lemma BackwardIsRanked(nodes: seq<Node>)
    requires Backward(nodes)
    ensures exists rank: map<Digest, nat> :: Ranked(HashOf(nodes), TableOf(nodes), rank)
  {
    var s := TableOf(nodes);
    var rank: map<Digest, nat> := map name | name in NamesOf(nodes) :: |name|;
    forall k | NodeAt(HashOf(nodes), s, k).Some?
      ensures k in rank && forall i | 0 <= i < |RefsOf(s[k])| ::
                NodeAt(HashOf(nodes), s, RefsOf(s[k])[i]).Some? ==>
                  RefsOf(s[k])[i] in rank && rank[RefsOf(s[k])[i]] < rank[k]
    {}
    assert Ranked(HashOf(nodes), s, rank);
  }

  // ---------- the nodes of a document, parts first ----------

  function Listed(nodes: seq<Node>, d: Doc): (r: seq<Node>)
    ensures nodes <= r
    decreases d, |Parts(d)| + 1
  {
    var inner := ListedParts(nodes, d, |Parts(d)|);
    var n := NodeOf(HashOf(inner), d);
    if n in inner then inner else inner + [n]
  }

  function ListedParts(nodes: seq<Node>, d: Doc, k: nat): (r: seq<Node>)
    requires k <= |Parts(d)|
    ensures nodes <= r
    decreases d, k
  {
    if k == 0 then nodes else Listed(ListedParts(nodes, d, k - 1), Parts(d)[k - 1])
  }

  lemma NothingListed(nodes: seq<Node>, d: Doc)
    ensures ListedParts(nodes, d, 0) == nodes
  {
    hide Listed, Parts;
  }

  lemma PartsStep(nodes: seq<Node>, d: Doc, k: nat)
    requires k < |Parts(d)|
    ensures ListedParts(nodes, d, k + 1) == Listed(ListedParts(nodes, d, k), Parts(d)[k])
  {
    hide Listed, Parts;
  }

  lemma {:induction false} PartsPrefix(nodes: seq<Node>, d: Doc, j: nat, k: nat)
    requires j <= k <= |Parts(d)|
    ensures ListedParts(nodes, d, j) <= ListedParts(nodes, d, k)
    decreases k
  {
    hide Listed, ListedParts, Parts;
    if j < k {
      PartsPrefix(nodes, d, j, k - 1);
      PartsStep(nodes, d, k - 1);
      PrefixTwice(ListedParts(nodes, d, j), ListedParts(nodes, d, k - 1), ListedParts(nodes, d, k));
    }
  }

  lemma PrefixTwice(a: seq<Node>, b: seq<Node>, c: seq<Node>)
    requires a <= b <= c
    ensures a <= c
  {}

  /** The node of a document does not depend on what is listed after it. */
  lemma {:induction false} NodeStays(nodes: seq<Node>, more: seq<Node>, d: Doc)
    requires Listed(nodes, d) <= more
    ensures NodeOf(HashOf(more), d) in Listed(nodes, d)
    ensures NodeOf(HashOf(more), d) == NodeOf(HashOf(ListedParts(nodes, d, |Parts(d)|)), d)
    decreases d
  {
    var inner := ListedParts(nodes, d, |Parts(d)|);
    forall i | 0 <= i < |Parts(d)| ensures Root(HashOf(more), Parts(d)[i]) == Root(HashOf(inner), Parts(d)[i]) {
      PartStays(nodes, inner, more, d, i);
    }
    SameParts(HashOf(more), HashOf(inner), d);
  }

  lemma {:induction false} PartStays(nodes: seq<Node>, inner: seq<Node>, more: seq<Node>, d: Doc, i: nat)
    requires i < |Parts(d)| && inner == ListedParts(nodes, d, |Parts(d)|) && inner <= more
    ensures Root(HashOf(more), Parts(d)[i]) == Root(HashOf(inner), Parts(d)[i])
    ensures NodeOf(HashOf(more), Parts(d)[i]) in inner
    decreases d, 0
  {
    hide Listed, ListedParts, NodeOf, First;
    var before, part := ListedParts(nodes, d, i), Parts(d)[i];
    PartsPrefix(nodes, d, i + 1, |Parts(d)|);
    PartsStep(nodes, d, i);
    PrefixTwice(Listed(before, part), inner, more);
    NodeStays(before, inner, part);
    NodeStays(before, more, part);
    FirstStays(inner, more, NodeOf(HashOf(more), part));
  }

  lemma InnerPrefix(nodes: seq<Node>, d: Doc)
    ensures ListedParts(nodes, d, |Parts(d)|) <= Listed(nodes, d)
  {
    hide ListedParts, Parts, NodeOf;
  }

  lemma PartPrefix(nodes: seq<Node>, more: seq<Node>, d: Doc, i: nat)
    requires Listed(nodes, d) <= more && i < |Parts(d)|
    ensures Listed(ListedParts(nodes, d, i), Parts(d)[i]) <= more
  {
    var inner := ListedParts(nodes, d, |Parts(d)|);
    InnerPrefix(nodes, d);
    hide Listed, ListedParts, Parts;
    PartsStep(nodes, d, i);
    PartsPrefix(nodes, d, i + 1, |Parts(d)|);
    PrefixTwice(inner, Listed(nodes, d), more);
    PrefixTwice(ListedParts(nodes, d, i + 1), inner, more);
  }

  lemma SameParts(a: Hash, b: Hash, d: Doc)
    requires forall i | 0 <= i < |Parts(d)| :: Root(a, Parts(d)[i]) == Root(b, Parts(d)[i])
    ensures NodeOf(a, d) == NodeOf(b, d)
  {
    forall i | 0 <= i < |Parts(d)| ensures RefsOf(NodeOf(a, d))[i] == RefsOf(NodeOf(b, d))[i] {
      assert Root(a, Parts(d)[i]) == Root(b, Parts(d)[i]);
    }
    assert RefsOf(NodeOf(a, d)) == RefsOf(NodeOf(b, d));
    if d.Object? {
      assert forall i | 0 <= i < |d.members| :: Parts(d)[i] == d.members[i].doc;
      assert NodeOf(a, d).members == NodeOf(b, d).members;
    }
  }

  lemma {:induction false} ListedIsHeld(nodes: seq<Node>, more: seq<Node>, d: Doc)
    requires Listed(nodes, d) <= more
    ensures Held(HashOf(more), TableOf(more), d)
    decreases d
  {
    NodeStays(nodes, more, d);
    ListedIsRow(more, NodeOf(HashOf(more), d));
    hide HashOf, TableOf, NodeOf;
    forall i | 0 <= i < |Parts(d)| ensures Held(HashOf(more), TableOf(more), Parts(d)[i]) {
      PartPrefix(nodes, more, d, i);
      ListedIsHeld(ListedParts(nodes, d, i), more, Parts(d)[i]);
    }
    HeldFromParts(HashOf(more), TableOf(more), d);
  }

  lemma {:induction false} ListedIsBackward(nodes: seq<Node>, d: Doc)
    requires Backward(nodes)
    ensures Backward(Listed(nodes, d))
    decreases d, |Parts(d)| + 1
  {
    PartsAreBackward(nodes, d, |Parts(d)|);
    RefsAreListed(nodes, d);
    hide ListedParts, HashOf, NodeOf, Parts, RefsOf;
  }

  lemma RefsAreListed(nodes: seq<Node>, d: Doc)
    ensures var inner := ListedParts(nodes, d, |Parts(d)|);
            forall i | 0 <= i < |RefsOf(NodeOf(HashOf(inner), d))| :: |RefsOf(NodeOf(HashOf(inner), d))[i]| < |inner|
  {
    hide ListedParts, Listed;
    var inner := ListedParts(nodes, d, |Parts(d)|);
    var n := NodeOf(HashOf(inner), d);
    forall i | 0 <= i < |RefsOf(n)| ensures |RefsOf(n)[i]| < |inner| {
      assert RefsOf(n)[i] == Root(HashOf(inner), Parts(d)[i]);
      PartStays(nodes, inner, inner, d, i);
    }
  }

  lemma {:induction false} PartsAreBackward(nodes: seq<Node>, d: Doc, k: nat)
    requires Backward(nodes) && k <= |Parts(d)|
    ensures Backward(ListedParts(nodes, d, k))
    decreases d, k
  {
    hide Listed, Backward, HashOf, NodeOf, ListedParts;
    if k > 0 {
      PartsStep(nodes, d, k - 1);
      PartsAreBackward(nodes, d, k - 1);
      ListedIsBackward(ListedParts(nodes, d, k - 1), Parts(d)[k - 1]);
    } else {
      NothingListed(nodes, d);
    }
  }

  /** Every document is held by some table without cycles, under some hash. */
  lemma EveryDocIsHeld(d: Doc) returns (h: Hash, s: Store, rank: map<Digest, nat>)
    ensures Ranked(h, s, rank) && Held(h, s, d)
  {
    hide Listed, HashOf, TableOf, Held, Ranked;
    var nodes := Listed([], d);
    ListedIsBackward([], d);
    ListedIsHeld([], nodes, d);
    BackwardIsRanked(nodes);
    h, s := HashOf(nodes), TableOf(nodes);
    rank :| Ranked(h, s, rank);
  }
}
