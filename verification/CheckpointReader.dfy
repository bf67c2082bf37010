/** Loading a saved checkpoint, whole or cut down to the fields a reader asks for. */
module CheckpointReader {
  import opened ChunkTree
  import opened Documents
  import opened Records
  import opened RecordReader
  import opened CheckpointDocuments

  /** The references of an object record as a dict: the last of equal names wins. */
  function References(members: seq<Ref>): map<string, Digest> {
    if members == [] then map[]
    else
      var last := members[|members| - 1];
      References(members[..|members| - 1])[last.name := last.digest]
  }

  /** A checkpoint document has exactly a checkpoint and a summary, and each must be an object. */
  function Load(h: Hash, s: Store, ghost rank: map<Digest, nat>, root: Digest,
                summaryOnly: bool, fields: Fields): Option<Json>
    requires Ranked(h, s, rank)
  {
    var node := NodeAt(h, s, root);
    if node.None? || !node.value.ObjectNode? then None
    else
      var references := References(node.value.members);
      if references.Keys != {"checkpoint", "summary"} then None
      else
        var result := Decode(h, s, rank, references[if summaryOnly then "summary" else "checkpoint"], fields);
        if result.None? || !result.value.JObject? then None else result
  }

  lemma TwoReferences(a: Ref, b: Ref)
    ensures References([a, b]) == map[a.name := a.digest, b.name := b.digest]
  {
    assert References([a]) == References([])[a.name := a.digest];
    assert [a, b][..1] == [a];
  }

  /** A document has its two parts as members, in this order. */
  lemma DocumentParts(enc: Encoders, views: Views, checkpoint: Documents.Value, summary: Documents.Value, d: Doc)
    requires PlainEncoders(enc) && DocOf(enc, views, Document(checkpoint, summary)) == Some(d)
    ensures d.Object? && |d.members| == 2
    ensures d.members[0].name == "checkpoint" && DocOf(enc, views, checkpoint) == Some(d.members[0].doc)
    ensures d.members[1].name == "summary" && DocOf(enc, views, summary) == Some(d.members[1].doc)
  {
    var whole := Document(checkpoint, summary);
    var options := seq(|whole.entries|, i requires 0 <= i < |whole.entries| =>
      MemberOf(whole.entries[i].key, DocOf(enc, views, whole.entries[i].value)));
    AllSomeAt(options, d.members);
    assert options[0] == Some(d.members[0]) && options[1] == Some(d.members[1]);
  }

  lemma DocumentReferences(h: Hash, s: Store, d: Doc)
    requires d.Object? && |d.members| == 2 && Held(h, s, d)
    ensures NodeAt(h, s, Root(h, d)) == Some(NodeOf(h, d)) && NodeOf(h, d).ObjectNode?
    ensures References(NodeOf(h, d).members)
            == map[d.members[0].name := Root(h, d.members[0].doc), d.members[1].name := Root(h, d.members[1].doc)]
  {
    var refs := NodeOf(h, d).members;
    assert refs == [refs[0], refs[1]];
    TwoReferences(refs[0], refs[1]);
  }

  /** Loading a saved document gives the JSON normal form of the part asked for, cut down to the
      fields asked for, however much was saved after it. */
  lemma SavedLoads(h: Hash, enc: Encoders, views: Views, s: Store, rank: map<Digest, nat>,
                   checkpoint: Documents.Value, summary: Documents.Value, d: Doc,
                   summaryOnly: bool, fields: Fields)
    requires PlainEncoders(enc) && DocOf(enc, views, Document(checkpoint, summary)) == Some(d)
    requires Ranked(h, s, rank) && Held(h, s, d)
    ensures var part := Normal(enc, views, if summaryOnly then summary else checkpoint);
            Load(h, s, rank, Root(h, d), summaryOnly, fields)
            == if part.JObject? then Some(Project(part, fields)) else None
  {
    hide Decode, Normal, DocOf, DocJson, Project, References, Document;
    DocumentParts(enc, views, checkpoint, summary, d);
    DocumentReferences(h, s, d);
    var value, part := if summaryOnly then summary else checkpoint, d.members[if summaryOnly then 1 else 0].doc;
    DocReadsAsNormal(enc, views, value, part);
    HeldDecodes(h, s, rank, part);
    ProjectionCommutes(h, s, rank, Root(h, part), fields, Normal(enc, views, value));
    ProjectKeepsKind(Normal(enc, views, value), fields);
  }

  lemma ProjectKeepsKind(j: Json, fields: Fields)
    ensures Project(j, fields).JObject? == j.JObject?
  {}

  // ---------- however much is saved afterwards ----------

  lemma EmptyIsTidy(h: Hash)
    ensures Tidy(h, map[])
  {
    assert Ranked(h, map[], map[]);
  }

  lemma ExtendsTwice(h: Hash, a: Store, b: Store, c: Store)
    requires Extends(h, a, b) && Extends(h, b, c)
    ensures Extends(h, a, c)
  {
    hide Ranked;
  }

  /** A table that started empty, after each of the saves that have written to it. */
  ghost predicate Saves(h: Hash, stores: seq<Store>) {
    && stores != [] && stores[0] == map[]
    && forall i | 0 < i < |stores| :: Extends(h, stores[i - 1], stores[i])
  }

  lemma {:induction false} SavesStayTidy(h: Hash, stores: seq<Store>, i: nat)
    requires Saves(h, stores) && i < |stores|
    ensures Tidy(h, stores[i])
  {
    hide Ranked;
    if i == 0 {
      EmptyIsTidy(h);
    } else {
      SavesStayTidy(h, stores, i - 1);
      assert Extends(h, stores[i - 1], stores[i]);
    }
  }

  lemma {:induction false} SavesExtend(h: Hash, stores: seq<Store>, i: nat, j: nat)
    requires Saves(h, stores) && i <= j < |stores|
    ensures Extends(h, stores[i], stores[j])
    decreases j
  {
    hide Tidy;
    if i < j {
      SavesExtend(h, stores, i, j - 1);
      ExtendsTwice(h, stores[i], stores[j - 1], stores[j]);
    }
  }

  /** A saved checkpoint stays readable: whatever was saved into the table before it and after it,
      each of its two parts loads as what was saved. */
  lemma SavedStaysReadable(h: Hash, enc: Encoders, views: Views, stores: seq<Store>, i: nat, j: nat,
                           checkpoint: Documents.Value, summary: Documents.Value, d: Doc, summaryOnly: bool,
                           fields: Fields) returns (rank: map<Digest, nat>)
    requires PlainEncoders(enc) && DocOf(enc, views, Document(checkpoint, summary)) == Some(d)
    requires Saves(h, stores) && i <= j < |stores| && Held(h, stores[i], d)
    ensures Ranked(h, stores[j], rank)
    ensures var part := Normal(enc, views, if summaryOnly then summary else checkpoint);
            Load(h, stores[j], rank, Root(h, d), summaryOnly, fields)
            == if part.JObject? then Some(Project(part, fields)) else None
  {
    SavesStayTidy(h, stores, j);
    rank :| Ranked(h, stores[j], rank);
    SavesExtend(h, stores, i, j);
    hide DocOf, Normal, Load, Project, Ranked, Held, Document, PlainEncoders, Tidy;
    HeldGrows(h, stores[i], stores[j], d);
    SavedLoads(h, enc, views, stores[j], rank, checkpoint, summary, d, summaryOnly, fields);
  }
}
