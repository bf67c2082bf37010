/** The table of checkpoint records: immutable nodes keyed by the hash of their text.

  The hash is any function of the node.  Nothing here needs it to be injective: a row is only
  ever written when its key is free, and a write that would meet another payload under the same
  key is refused. */
module Records {
  import opened ChunkTree
  import opened Documents

  type Digest = string

  datatype Ref = Ref(name: string, digest: Digest)

  /** A stored payload.  `ForeignNode` is any payload that is not a well-formed record. */
  datatype Node =
    | ValueNode(scalar: Scalar)
    | ObjectNode(members: seq<Ref>)
    | ListNode(items: seq<Digest>)
    | ConcatNode(chunks: seq<Digest>)
    | ForeignNode(text: string)

  type Hash = Node -> Digest
  type Store = map<Digest, Node>

  function Root(h: Hash, d: Doc): Digest
    decreases d, 1
  {
    h(NodeOf(h, d))
  }

  function NodeOf(h: Hash, d: Doc): Node
    decreases d, 0
  {
    match d
    case Value(scalar) => ValueNode(scalar)
    case List(items) => ListNode(seq(|items|, i requires 0 <= i < |items| => Root(h, items[i])))
    case Concat(chunks) => ConcatNode(seq(|chunks|, i requires 0 <= i < |chunks| => Root(h, chunks[i])))
    case Object(members) =>
      ObjectNode(seq(|members|, i requires 0 <= i < |members| =>
        Ref(members[i].name, Root(h, members[i].doc))))
  }

  function Roots(h: Hash, ds: seq<Doc>): seq<Digest> {
    seq(|ds|, i requires 0 <= i < |ds| => Root(h, ds[i]))
  }

  /** Every node of the document is a row of the table. */
  ghost predicate Held(h: Hash, s: Store, d: Doc) {
    && Root(h, d) in s && s[Root(h, d)] == NodeOf(h, d)
    && match d
       case Value(_) => true
       case List(items) => forall i | 0 <= i < |items| :: Held(h, s, items[i])
       case Concat(chunks) => forall i | 0 <= i < |chunks| :: Held(h, s, chunks[i])
       case Object(members) => forall i | 0 <= i < |members| :: Held(h, s, members[i].doc)
  }

  ghost predicate AllHeld(h: Hash, s: Store, ds: seq<Doc>) {
    forall i | 0 <= i < |ds| :: Held(h, s, ds[i])
  }

  /** Rows are never changed or dropped. */
  ghost predicate Grows(s: Store, s': Store) {
    forall k | k in s :: k in s' && s'[k] == s[k]
  }

  lemma {:induction false} HeldGrows(h: Hash, s: Store, s': Store, d: Doc)
    requires Grows(s, s') && Held(h, s, d)
    ensures Held(h, s', d)
  {
    match d
    case Value(_) =>
    case List(items) => forall i | 0 <= i < |items| { HeldGrows(h, s, s', items[i]); }
    case Concat(chunks) => forall i | 0 <= i < |chunks| { HeldGrows(h, s, s', chunks[i]); }
    case Object(members) => forall i | 0 <= i < |members| { HeldGrows(h, s, s', members[i].doc); }
  }

  lemma AllHeldGrows(h: Hash, s: Store, s': Store, ds: seq<Doc>)
    requires Grows(s, s') && AllHeld(h, s, ds)
    ensures AllHeld(h, s', ds)
  {
    forall i | 0 <= i < |ds| { HeldGrows(h, s, s', ds[i]); }
  }

  // ---------- reading ----------

  /** One checked row: present, matching its key, and a well-formed record. */
  function NodeAt(h: Hash, s: Store, d: Digest): Option<Node> {
    if d in s && h(s[d]) == d && !s[d].ForeignNode? then Some(s[d]) else None
  }

  predicate IsChunk(n: Option<Node>) {
    n.Some? && (n.value.ListNode? || n.value.ConcatNode?)
  }

  function RefsOf(n: Node): seq<Digest> {
    match n
    case ObjectNode(members) => seq(|members|, i requires 0 <= i < |members| => members[i].digest)
    case ListNode(items) => items
    case ConcatNode(chunks) => chunks
    case _ => []
  }

  /** No cycle of references among the checked rows of this table. */
  ghost predicate Ranked(h: Hash, s: Store, rank: map<Digest, nat>) {
    forall k | NodeAt(h, s, k).Some? ::
      k in rank && forall i | 0 <= i < |RefsOf(s[k])| ::
        NodeAt(h, s, RefsOf(s[k])[i]).Some? ==>
          RefsOf(s[k])[i] in rank && rank[RefsOf(s[k])[i]] < rank[k]
  }

  ghost function Level(h: Hash, s: Store, rank: map<Digest, nat>, d: Digest): nat {
    if NodeAt(h, s, d).Some? && d in rank then rank[d] + 1 else 0
  }

  lemma LevelFalls(h: Hash, s: Store, rank: map<Digest, nat>, d: Digest, i: nat)
    requires Ranked(h, s, rank) && NodeAt(h, s, d).Some? && i < |RefsOf(s[d])|
    ensures Level(h, s, rank, RefsOf(s[d])[i]) < Level(h, s, rank, d)
  {}

  /** The fields a reader asks for: everything, or only the named members, each with its own. */
  datatype Fields = Everything | Only(names: map<string, Fields>)

  predicate Wanted(fields: Fields, name: string) {
    fields.Everything? || name in fields.names
  }

  function Below(fields: Fields, name: string): Fields {
    if fields.Only? && name in fields.names then fields.names[name] else Everything
  }

  /** The positions of the members a reader keeps. */
  function Kept(names: seq<string>, fields: Fields): (r: seq<nat>)
    ensures forall k | 0 <= k < |r| :: r[k] < |names|
  {
    if names == [] then []
    else
      var n := |names| - 1;
      Kept(names[..n], fields) + if Wanted(fields, names[n]) then [n] else []
  }

  function Names(members: seq<Ref>): seq<string> {
    seq(|members|, i requires 0 <= i < |members| => members[i].name)
  }

  /** Read the JSON under a digest; None when a record is missing, damaged or out of place. */
  function Decode(h: Hash, s: Store, ghost rank: map<Digest, nat>, d: Digest, fields: Fields): Option<Json>
    requires Ranked(h, s, rank)
    decreases Level(h, s, rank, d)
  {
    var node := NodeAt(h, s, d);
    if node.None? then None
    else match node.value
      case ValueNode(scalar) => Some(JAtom(scalar))
      case ListNode(items) =>
        var js := AllSome(seq(|items|, i requires 0 <= i < |items| =>
          LevelFalls(h, s, rank, d, i); Decode(h, s, rank, items[i], Everything)));
        if js.None? then None else Some(JArray(js.value))
      case ConcatNode(chunks) =>
        Joined(AllSome(seq(|chunks|, i requires 0 <= i < |chunks| =>
          LevelFalls(h, s, rank, d, i); Decode(h, s, rank, chunks[i], Everything))))
      case ObjectNode(members) =>
        var kept := Kept(Names(members), fields);
        var js := AllSome(seq(|kept|, k requires 0 <= k < |kept| =>
          var m := members[kept[k]];
          LevelFalls(h, s, rank, d, kept[k]); Decode(h, s, rank, m.digest, Below(fields, m.name))));
        if js.None? then None
        else Some(JObject(Fold(seq(|kept|, k requires 0 <= k < |kept| => members[kept[k]].name), js.value)))
      case ForeignNode(_) => None
  }
}
