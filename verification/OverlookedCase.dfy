/** A corrupt file that blocks nothing: the record of one value under its domain state is lost. */
module OverlookedCase {
  import opened ChunkTree
  import opened Documents
  import opened Records
  import opened RecordReader
  import opened CheckpointDocuments
  import opened CheckpointReader
  import opened CheckpointFiles
  import opened ResumeSelection
  import opened SavedCheckpoints
  import opened SampleTables
  import opened ScanDamage
  import opened SavedCases

  // ---------- losing the row of a leaf ----------

  const LEAF := ChunkTree.Value(LOST)

  const LOST_STATE := Object([Member("x", LEAF)])

  /** No leaf of the document holds the lost value. */
  predicate Lacks(d: Doc) {
    match d
    case Value(scalar) => scalar != LOST
    case List(items) => forall i | 0 <= i < |items| :: Lacks(items[i])
    case Concat(chunks) => forall i | 0 <= i < |chunks| :: Lacks(chunks[i])
    case Object(members) => forall i | 0 <= i < |members| :: Lacks(members[i].doc)
  }

  /** The table without the row of the lost value. */
  function Losing(h: Hash, s: Store): Store {
    s - {Root(h, LEAF)}
  }

  lemma {:induction false} LackingIsHeld(h: Hash, s: Store, d: Doc)
    requires Held(h, s, d) && Lacks(d) && Held(h, s, LEAF)
    ensures Held(h, Losing(h, s), d)
  {
    match d
    case Value(_) =>
    case List(items) => forall i | 0 <= i < |items| { LackingIsHeld(h, s, items[i]); }
    case Concat(chunks) => forall i | 0 <= i < |chunks| { LackingIsHeld(h, s, chunks[i]); }
    case Object(members) => forall i | 0 <= i < |members| { LackingIsHeld(h, s, members[i].doc); }
  }

  lemma LosingIsRanked(h: Hash, s: Store, rank: map<Digest, nat>)
    requires Ranked(h, s, rank)
    ensures Ranked(h, Losing(h, s), rank)
  {
    assert forall k | NodeAt(h, Losing(h, s), k).Some? :: NodeAt(h, s, k) == NodeAt(h, Losing(h, s), k);
  }

  lemma ObjectIsLeft(h: Hash, s: Store, d: Doc)
    requires Held(h, s, d) && Held(h, s, LEAF) && d.Object?
    ensures NodeAt(h, s, Root(h, d)) == NodeAt(h, Losing(h, s), Root(h, d)) == Some(NodeOf(h, d))
  {}

  // ---------- what is read of the payload then ----------

  /** The member is whole, or it is the domain state with the lost value. */
  predicate WholeOrLost(m: Member) {
    (Lacks(m.doc) && DocJson(m.doc).Some?) || (m.name == "domain_state" && m.doc == LOST_STATE)
  }

  lemma MemberRead(h: Hash, s: Store, rank: map<Digest, nat>, m: Member)
    requires Ranked(h, s, rank) && Held(h, s, m.doc) && Held(h, s, LEAF) && WholeOrLost(m)
    ensures Ranked(h, Losing(h, s), rank)
    ensures Decode(h, Losing(h, s), rank, Root(h, m.doc), Below(RESUME_FIELDS, m.name))
            == Decode(h, s, rank, Root(h, m.doc), Below(RESUME_FIELDS, m.name))
  {
    LosingIsRanked(h, s, rank);
    var s', fields, root := Losing(h, s), Below(RESUME_FIELDS, m.name), Root(h, m.doc);
    if Lacks(m.doc) && DocJson(m.doc).Some? {
      LackingIsHeld(h, s, m.doc);
      hide Losing, Lacks;
      HeldDecodes(h, s, rank, m.doc);
      HeldDecodes(h, s', rank, m.doc);
      ProjectionCommutes(h, s, rank, root, fields, DocJson(m.doc).value);
      ProjectionCommutes(h, s', rank, root, fields, DocJson(m.doc).value);
    } else {
      assert fields == Only(map[]);
      ObjectIsLeft(h, s, m.doc);
      NothingRead(h, s, rank, m.doc);
      NothingRead(h, s', rank, m.doc);
    }
  }

  /** Asked for none of its members, an object reads as empty, whatever became of them. */
  lemma NothingRead(h: Hash, s: Store, rank: map<Digest, nat>, d: Doc)
    requires Ranked(h, s, rank) && d.Object? && NodeAt(h, s, Root(h, d)) == Some(NodeOf(h, d))
    ensures Decode(h, s, rank, Root(h, d), Only(map[])) == Some(JObject(map[]))
  {
    DecodeNode(h, s, rank, Root(h, d), Only(map[]));
    var refs := NodeOf(h, d).members;
    KeptNone(Names(refs));
    hide Decode;
    assert DecodeKept(h, s, rank, refs, Only(map[])) == [] && KeptNames(Names(refs), Only(map[])) == [];
  }

  lemma {:induction false} KeptNone(names: seq<string>)
    ensures Kept(names, Only(map[])) == []
  {
    if names != [] { KeptNone(names[..|names| - 1]); }
  }

  /** The scan reads of the payload what it read before the loss. */
  lemma PayloadReadAlike(h: Hash, s: Store, rank: map<Digest, nat>, d: Doc)
    requires Ranked(h, s, rank) && Held(h, s, d) && Held(h, s, LEAF) && d.Object?
    requires forall i | 0 <= i < |d.members| :: WholeOrLost(d.members[i])
    ensures Ranked(h, Losing(h, s), rank)
    ensures Decode(h, Losing(h, s), rank, Root(h, d), RESUME_FIELDS)
            == Decode(h, s, rank, Root(h, d), RESUME_FIELDS)
  {
    LosingIsRanked(h, s, rank);
    ObjectIsLeft(h, s, d);
    assert forall i | 0 <= i < |d.members| :: Held(h, s, d.members[i].doc);
    hide Decode, Losing, WholeOrLost, Held, Ranked, NodeOf, Root;
    forall i | 0 <= i < |d.members|
      ensures Decode(h, Losing(h, s), rank, Root(h, d.members[i].doc), Below(RESUME_FIELDS, d.members[i].name))
              == Decode(h, s, rank, Root(h, d.members[i].doc), Below(RESUME_FIELDS, d.members[i].name))
    {
      MemberRead(h, s, rank, d.members[i]);
    }
    MembersReadAlike(h, s, Losing(h, s), rank, d, RESUME_FIELDS);
  }

  /** An object whose members read alike reads alike. */
  lemma MembersReadAlike(h: Hash, s: Store, s': Store, rank: map<Digest, nat>, d: Doc, fields: Fields)
    requires Ranked(h, s, rank) && Ranked(h, s', rank) && d.Object?
    requires NodeAt(h, s, Root(h, d)) == NodeAt(h, s', Root(h, d)) == Some(NodeOf(h, d))
    requires forall i | 0 <= i < |d.members| ::
               Decode(h, s', rank, Root(h, d.members[i].doc), Below(fields, d.members[i].name))
               == Decode(h, s, rank, Root(h, d.members[i].doc), Below(fields, d.members[i].name))
    ensures Decode(h, s', rank, Root(h, d), fields) == Decode(h, s, rank, Root(h, d), fields)
  {
    DecodeNode(h, s, rank, Root(h, d), fields);
    DecodeNode(h, s', rank, Root(h, d), fields);
    var refs := NodeOf(h, d).members;
    hide Decode, NodeAt, Ranked;
    assert DecodeKept(h, s', rank, refs, fields) == DecodeKept(h, s, rank, refs, fields);
  }

  /** A reader of everything meets the loss. */
  lemma PayloadUnreadable(h: Hash, s: Store, rank: map<Digest, nat>, d: Doc, i: nat)
    requires Ranked(h, s, rank) && d.Object? && i < |d.members| && Held(h, s, d) && d.members[i].doc == LOST_STATE
    ensures Ranked(h, Losing(h, s), rank)
    ensures Decode(h, Losing(h, s), rank, Root(h, d), Everything).None?
  {
    LosingIsRanked(h, s, rank);
    assert Held(h, s, LOST_STATE) && Held(h, s, LOST_STATE.members[0].doc);
    ObjectIsLeft(h, s, LOST_STATE);
    ObjectIsLeft(h, s, d);
    MemberUnreadable(h, Losing(h, s), rank, LOST_STATE, 0);
    MemberUnreadable(h, Losing(h, s), rank, d, i);
  }

  lemma MemberUnreadable(h: Hash, s: Store, rank: map<Digest, nat>, d: Doc, i: nat)
    requires Ranked(h, s, rank) && d.Object? && i < |d.members|
    requires NodeAt(h, s, Root(h, d)) == Some(NodeOf(h, d))
    requires Decode(h, s, rank, Root(h, d.members[i].doc), Everything).None?
    ensures Decode(h, s, rank, Root(h, d), Everything).None?
  {
    DecodeNode(h, s, rank, Root(h, d), Everything);
    DecodeWhole(h, s, rank, NodeOf(h, d).members);
    hide Decode;
    assert DecodeAll(h, s, rank, RefsOf(NodeOf(h, d)))[i].None?;
  }

  // ---------- what the two readers make of the file ----------

  /** The document of a checkpoint, its summary and all of its payload whole but for one record under
      the domain state. */
  ghost predicate LosesState(d: Doc, i: nat) {
    && d.Object? && |d.members| == 2 && d.members[0].name == "checkpoint" && d.members[1].name == "summary"
    && Lacks(d.members[1].doc) && DocJson(d.members[1].doc).Some?
    && var payload := d.members[0].doc;
       && payload.Object? && i < |payload.members| && payload.members[i].doc == LOST_STATE
       && forall k | 0 <= k < |payload.members| :: WholeOrLost(payload.members[k])
  }

  lemma LeafIsHeld(h: Hash, s: Store, d: Doc, i: nat)
    requires LosesState(d, i) && Held(h, s, d)
    ensures Held(h, s, d.members[0].doc) && Held(h, s, d.members[1].doc) && Held(h, s, LEAF)
  {
    assert Held(h, s, d.members[0].doc) && Held(h, s, LOST_STATE) && Held(h, s, LOST_STATE.members[0].doc);
  }

  /** What loading comes to when the document's own node and the part asked for are given. */
  lemma LoadIs(h: Hash, s: Store, rank: map<Digest, nat>, d: Doc, summaryOnly: bool, fields: Fields)
    requires Ranked(h, s, rank) && NodeAt(h, s, Root(h, d)) == Some(NodeOf(h, d)) && NodeOf(h, d).ObjectNode?
    requires d.Object? && |d.members| == 2
    requires References(NodeOf(h, d).members)
             == map["checkpoint" := Root(h, d.members[0].doc), "summary" := Root(h, d.members[1].doc)]
    ensures var part := Decode(h, s, rank, Root(h, d.members[if summaryOnly then 1 else 0].doc), fields);
            Load(h, s, rank, Root(h, d), summaryOnly, fields)
            == if part.None? || !part.value.JObject? then None else part
  {
    hide Decode, References, NodeOf, Root;
  }

  /** Its parts after the loss: the resume fields and the summary read as before, the whole does not. */
  lemma LoadsAfterLoss(h: Hash, s: Store, rank: map<Digest, nat>, d: Doc, i: nat)
    requires Ranked(h, s, rank) && LosesState(d, i) && Held(h, s, d)
    ensures Ranked(h, Losing(h, s), rank)
    ensures Load(h, Losing(h, s), rank, Root(h, d), false, RESUME_FIELDS)
            == Load(h, s, rank, Root(h, d), false, RESUME_FIELDS)
    ensures Load(h, Losing(h, s), rank, Root(h, d), true, Everything)
            == Load(h, s, rank, Root(h, d), true, Everything)
    ensures Load(h, Losing(h, s), rank, Root(h, d), false, Everything).None?
  {
    LosingIsRanked(h, s, rank);
    LeafIsHeld(h, s, d, i);
    ObjectIsLeft(h, s, d);
    DocumentReferences(h, s, d);
    LackingIsHeld(h, s, d.members[1].doc);
    hide Decode, Held, Losing, Lacks, References, NodeOf, Root, NodeAt, Load, WholeOrLost, Ranked, DocJson;
    PayloadReadAlike(h, s, rank, d.members[0].doc);
    PayloadUnreadable(h, s, rank, d.members[0].doc, i);
    HeldDecodes(h, s, rank, d.members[1].doc);
    HeldDecodes(h, Losing(h, s), rank, d.members[1].doc);
    LoadIs(h, s, rank, d, false, RESUME_FIELDS);
    LoadIs(h, Losing(h, s), rank, d, false, RESUME_FIELDS);
    LoadIs(h, s, rank, d, true, Everything);
    LoadIs(h, Losing(h, s), rank, d, true, Everything);
    LoadIs(h, Losing(h, s), rank, d, false, Everything);
  }

  /** A file whose resume fields and summary load alike reads alike to a scan. */
  lemma ReadsAlike(src: Source, left: Source, rank: map<Digest, nat>, root: Digest)
    requires Good(src, rank) && Good(left, rank) && src.hash == left.hash && src.host == left.host
    requires Load(src.hash, src.store, rank, root, false, RESUME_FIELDS)
             == Load(left.hash, left.store, rank, root, false, RESUME_FIELDS)
    requires Load(src.hash, src.store, rank, root, true, Everything)
             == Load(left.hash, left.store, rank, root, true, Everything)
    requires Load(left.hash, left.store, rank, root, false, Everything).None?
    ensures ReadFile(left, rank, Manifest(root), true) == ReadFile(src, rank, Manifest(root), true)
    ensures ReadFile(left, rank, Manifest(root), false).None?
  {
    hide Load, FromDict, Summary;
  }

  /** The file of any other run's checkpoint that loses such a record is overlooked. */
  lemma LossIsOverlooked(src: Source, rank: map<Digest, nat>, runId: Option<string>, stem: string, d: Doc, i: nat,
                         c: Checkpoint)
    requires Good(src, rank) && LosesState(d, i) && Held(src.hash, src.store, d)
    requires Saved(src, rank, Manifest(Root(src.hash, d)), c) && RunId(src.host, c) != runId && !Foreign(runId, stem)
    ensures var left := src.(store := Losing(src.hash, src.store));
            Good(left, rank) && Overlooked(left, rank, runId, File(stem, Manifest(Root(src.hash, d))))
  {
    hide Load, Losing, Held, LosesState, FromDict, Summary, SoundAt, OrderOf, IsTerminal, HasTurnState, Foreign, RunId,
         ReadFile, Root, NodeOf, Intact;
    LoadsAfterLoss(src.hash, src.store, rank, d, i);
    ScanSeesWhole(src, rank, Manifest(Root(src.hash, d)));
    ReadsAlike(src, src.(store := Losing(src.hash, src.store)), rank, Root(src.hash, d));
  }

  // ---------- such a checkpoint ----------

  lemma {:induction false} SparedLacks(enc: Encoders, views: Views, v: Documents.Value, d: Doc)
    requires PlainEncoders(enc) && Spared(v) && DocOf(enc, views, v) == Some(d)
    ensures Lacks(d)
  {
    match v
    case Atom(_) =>
    case Dict(entries) =>
      forall i | 0 <= i < |entries| ensures Lacks(d.members[i].doc) {
        EntryDoc(enc, views, entries, d, i);
        SparedLacks(enc, views, entries[i].value, d.members[i].doc);
      }
  }

  lemma EntryDoc(enc: Encoders, views: Views, entries: seq<Entry>, d: Doc, i: nat)
    requires PlainEncoders(enc) && i < |entries| && DocOf(enc, views, Dict(entries)) == Some(d)
    ensures d.Object? && |d.members| == |entries|
    ensures DocOf(enc, views, entries[i].value) == Some(d.members[i].doc)
    ensures KeyName(entries[i].key) == Some(d.members[i].name)
  {
    var options := seq(|entries|, k requires 0 <= k < |entries| =>
      MemberOf(entries[k].key, DocOf(enc, views, entries[k].value)));
    AllSomeAt(options, d.members);
    assert options[i] == Some(d.members[i]);
  }

  lemma LosesOneDoc(enc: Encoders, views: Views, v: Documents.Value, d: Doc)
    requires PlainEncoders(enc) && LosesOne(v) && DocOf(enc, views, v) == Some(d)
    ensures d == LOST_STATE
  {
    EntryDoc(enc, views, v.entries, d, 0);
    assert d.members == [d.members[0]];
  }

  lemma EntryIsWholeOrLost(enc: Encoders, views: Views, v: Documents.Value, d: Doc, i: nat)
    requires PlainEncoders(enc) && SparedButState(v) && DocOf(enc, views, v) == Some(d) && i < |v.entries|
    ensures d.Object? && |d.members| == |v.entries| && WholeOrLost(d.members[i])
    ensures LosesOne(v.entries[i].value) ==> d.members[i].doc == LOST_STATE
  {
    EntryDoc(enc, views, v.entries, d, i);
    var x, doc := v.entries[i].value, d.members[i].doc;
    hide DocOf;
    if Spared(x) {
      SparedLacks(enc, views, x, doc);
      DocReadsAsNormal(enc, views, x, doc);
    }
    if LosesOne(x) { LosesOneDoc(enc, views, x, doc); }
  }

  lemma WithEntries(v: Documents.Value, name: string, x: Documents.Value)
    requires v.Dict?
    ensures With(v, name, x).entries == v.entries + [Entry(StrKey(name), x)]
  {}

  lemma LastOfBodies(domain: Documents.Value)
    ensures var entries := BodiesValue(domain).entries;
            entries != [] && entries[|entries| - 1].value == domain
  {
    var step := With(NOTHING, "step_number", Atom(Number("0")));
    var config := With(With(With(step, "session_log_data", NOTHING), "conversation_data", Atom(Null)),
                       "config_snapshot", NOTHING);
    var results := With(config, "tool_results_store", NOTHING);
    WithEntries(results, "domain_state", domain);
    assert BodiesValue(domain) == With(results, "domain_state", domain);
    hide With;
  }

  predicate HasAt(v: Documents.Value, i: nat, x: Documents.Value) {
    v.Dict? && i < |v.entries| && v.entries[i].value == x
  }

  lemma WithKeeps(v: Documents.Value, name: string, y: Documents.Value, i: nat, x: Documents.Value)
    requires HasAt(v, i, x)
    ensures HasAt(With(v, name, y), i, x)
  {}

  /** The place of the domain state among the entries of a payload. */
  lemma StateEntry(identity: Documents.Value, domain: Documents.Value) returns (i: nat)
    ensures HasAt(PayloadValue(identity, domain), i, domain)
  {
    var bodies := BodiesValue(domain);
    LastOfBodies(domain);
    i := |bodies.entries| - 1;
    assert HasAt(bodies, i, domain);
    hide With, BodiesValue, HasAt;
    var envelope := With(bodies, "run_envelope", With(NOTHING, "run_id", identity));
    var metadata := With(envelope, "metadata", NOTHING);
    var created := With(metadata, "created_at", Atom(Number("0")));
    var status := With(created, "run_status", Text("running"));
    var phase := With(status, "run_phase", Text("running"));
    WithKeeps(bodies, "run_envelope", With(NOTHING, "run_id", identity), i, domain);
    WithKeeps(envelope, "metadata", NOTHING, i, domain);
    WithKeeps(metadata, "created_at", Atom(Number("0")), i, domain);
    WithKeeps(created, "run_status", Text("running"), i, domain);
    WithKeeps(status, "run_phase", Text("running"), i, domain);
    WithKeeps(phase, "termination_reason", Atom(Null), i, domain);
  }

  lemma WitnessLosesState(enc: Encoders, d: Doc, domain: Documents.Value) returns (i: nat)
    requires PlainEncoders(enc) && LosesOne(domain)
    requires DocOf(enc, map[], Document(PayloadValue(Text("b"), domain), SummaryValue("b"))) == Some(d)
    ensures LosesState(d, i)
  {
    var payload, summary := PayloadValue(Text("b"), domain), SummaryValue("b");
    DocumentParts(enc, map[], payload, summary, d);
    i := StateEntry(Text("b"), domain);
    hide PayloadValue, SummaryValue, DocOf, Document, Lacks, WholeOrLost, Spared, DocJson;
    SparedLacks(enc, map[], summary, d.members[1].doc);
    DocReadsAsNormal(enc, map[], summary, d.members[1].doc);
    EntryIsWholeOrLost(enc, map[], payload, d.members[0].doc, i);
    forall k | 0 <= k < |payload.entries| ensures WholeOrLost(d.members[0].doc.members[k]) {
      EntryIsWholeOrLost(enc, map[], payload, d.members[0].doc, k);
    }
  }

  /** A checkpoint of a run with the identity "b", saved and then damaged. */
  lemma DamagedElsewhere(host: Host, enc: Encoders) returns (src: Source, rank: map<Digest, nat>, root: Digest)
    requires PlainEncoders(enc) && host.isInt("0") && host.str(JAtom(Str("b"))) == "b"
    ensures src.host == host && Good(src, rank)
    ensures Overlooked(src, rank, None, File("b__step_0", Manifest(root)))
  {
    hide PayloadValue, SummaryValue, DocOf, Held, Document, Normal, Payload, SummaryWith, Supported, ReadFile, Losing,
         LosesState, Overlooked;
    var domain := Dict([Entry(StrKey("x"), Atom(LOST))]);
    var payload, summary := PayloadValue(Text("b"), domain), SummaryValue("b");
    var c := Plainly(JAtom(Str("b")), map["x" := JAtom(LOST)]);
    DomainIs(enc);
    ValuesSupported(Text("b"), domain, "b");
    SupportedIsSaved(enc, map[], Document(payload, summary));
    PayloadIsNormal(enc, map[], Text("b"), domain);
    SummaryIsNormal(enc, map[], JAtom(Str("b")), map["x" := JAtom(LOST)], "b");
    var d := DocOf(enc, map[], Document(payload, summary)).value;
    var h, s, r := EveryDocIsHeld(d);
    var i := WitnessLosesState(enc, d, domain);
    assert RunId(host, c) == Some("b");
    hide RunId;
    DocumentReadsBack(Source(host, h, s), r, enc, map[], payload, summary, d, c, Some("b"));
    LossIsOverlooked(Source(host, h, s), r, None, "b__step_0", d, i, c);
    src, rank, root := Source(host, h, Losing(h, s)), r, Root(h, d);
  }

  lemma DomainIs(enc: Encoders)
    requires PlainEncoders(enc)
    ensures var domain := Dict([Entry(StrKey("x"), Atom(LOST))]);
            && Supported(domain) && Normal(enc, map[], domain) == JObject(map["x" := JAtom(LOST)])
            && Normal(enc, map[], Text("b")) == JAtom(Str("b"))
  {
    NothingIs(enc, map[]);
    WithIs(enc, map[], NOTHING, "x", Atom(LOST));
    assert NOTHING.entries + [Entry(StrKey("x"), Atom(LOST))] == [Entry(StrKey("x"), Atom(LOST))];
  }

  /** A checkpoint of a run without identity. */
  function Healthy(): Checkpoint {
    Checkpoint("0", Bodies(map[], map[], map[], map[], None), map[], "0", "running", "running", None, None)
  }

  lemma HealthyIsSeen(src: Source, rank: map<Digest, nat>)
    requires Good(src, rank) && src.host.isInt("0")
    ensures ReadFile(src, rank, Plain(Payload(Healthy())), false) == Some(Healthy())
    ensures Look(src, rank, None, File("step_0", Plain(Payload(Healthy()))), true) == Seen(Healthy())
    ensures !IsTerminal(Healthy())
  {
    hide Payload, FromDict, Load, Summary, OrderOf;
    PlainReadsBack(src, rank, Healthy());
    assert RunId(src.host, Healthy()) == None;
  }

  /** No identity is selected and a file is corrupt; yet recovery goes on beside it, while a reader of
      everything refuses. */
  lemma CorruptFileBlocksNothing(host: Host, enc: Encoders) returns (src: Source, rank: map<Digest, nat>, root: Digest)
    requires PlainEncoders(enc) && host.isInt("0") && host.str(JAtom(Str("b"))) == "b"
    ensures Good(src, rank) && Corrupt(src, rank, Manifest(root))
    ensures var files := [File("b__step_0", Manifest(root)), File("step_0", Plain(Payload(Healthy())))];
            var full := Looks(src, rank, None, files, false);
            && Resumed(src, rank, None, files) == Resume(Healthy())
            && Conclude(src, rank, files, ScanAll(host, None, files, full, 2)) == Refused
  {
    hide Payload, OrderOf, IsTerminal, ReadFile, Look, Healthy, PassedOver, Foreign;
    src, rank, root := DamagedElsewhere(host, enc);
    assert Corrupt(src, rank, Manifest(root));
    hide Corrupt, Overlooked;
    var files := [File("b__step_0", Manifest(root)), File("step_0", Plain(Payload(Healthy())))];
    LooksCompare(src, rank, None, files[0]);
    HealthyIsSeen(src, rank);
    var part, full := Looks(src, rank, None, files, true), Looks(src, rank, None, files, false);
    assert part[0].Skip? && part[1] == Seen(Healthy()) && full[0].Broken?;
    assert ScanAll(host, None, files, part, 0) == Scanned(None, None);
    assert ScanAll(host, None, files, part, 1) == Scanned(None, None);
    BrokenFails(host, None, files, full, 0, 2);
  }
}
