/** Two saved checkpoints that show what can go wrong: one that is never read back, and one whose
    damage a scan passes over. */
module SavedCases {
  import opened ChunkTree
  import opened Documents
  import opened Records
  import opened RecordReader
  import opened CheckpointDocuments
  import opened CheckpointFiles
  import opened ResumeSelection
  import opened SavedCheckpoints
  import opened SampleTables

  // ---------- values as they are in memory ----------

  /** Values without lists on disk, unsupported parts or improper keys. */
  predicate Supported(v: Documents.Value) {
    match v
    case Atom(_) => true
    case Unsupported => false
    case Listing(_, elements) => forall i | 0 <= i < |elements| :: Supported(elements[i])
    case Dict(entries) =>
      forall i | 0 <= i < |entries| :: KeyName(entries[i].key).Some? && Supported(entries[i].value)
    case Sequence(_, _, _) => false
  }

  lemma {:induction false} SupportedIsSaved(enc: Encoders, views: Views, v: Documents.Value)
    requires PlainEncoders(enc) && Supported(v)
    ensures DocOf(enc, views, v).Some?
  {
    match v
    case Listing(_, elements) =>
      forall i | 0 <= i < |elements| ensures DocOf(enc, views, elements[i]).Some? {
        SupportedIsSaved(enc, views, elements[i]);
      }
    case Dict(entries) =>
      forall i | 0 <= i < |entries| ensures MemberOf(entries[i].key, DocOf(enc, views, entries[i].value)).Some? {
        SupportedIsSaved(enc, views, entries[i].value);
      }
    case _ =>
  }

  const NOTHING: Documents.Value := Dict([])

  const LOST := Str("lost")

  /** A dict of dicts and values, the lost one not among them. */
  predicate Spared(v: Documents.Value) {
    match v
    case Atom(scalar) => scalar != LOST
    case Dict(entries) =>
      forall i | 0 <= i < |entries| :: KeyName(entries[i].key).Some? && Spared(entries[i].value)
    case _ => false
  }

  /** A dict in which the lost value may be the domain state's. */
  predicate SparedButState(v: Documents.Value) {
    v.Dict? && forall i | 0 <= i < |v.entries| ::
      KeyName(v.entries[i].key).Some?
      && (Spared(v.entries[i].value) || (v.entries[i].key == StrKey("domain_state") && LosesOne(v.entries[i].value)))
  }

  predicate LosesOne(v: Documents.Value) {
    v == Dict([Entry(StrKey("x"), Atom(LOST))])
  }

  function Text(s: string): (r: Documents.Value)
    ensures Supported(r) && (|s| != |"lost"| ==> Spared(r))
  {
    Atom(Str(s))
  }

  /** A dict with one more entry. */
  function With(v: Documents.Value, name: string, x: Documents.Value): (r: Documents.Value)
    requires v.Dict?
    ensures r.Dict? && (Supported(v) && Supported(x) ==> Supported(r))
    ensures Spared(v) && Spared(x) ==> Spared(r)
    ensures SparedButState(v) && (Spared(x) || (name == "domain_state" && LosesOne(x))) ==> SparedButState(r)
  {
    var r := Dict(v.entries + [Entry(StrKey(name), x)]);
    assert forall i | 0 <= i < |v.entries| :: r.entries[i] == v.entries[i];
    r
  }

  /** The bodies of a payload in memory. */
  function BodiesValue(domain: Documents.Value): (r: Documents.Value)
    ensures r.Dict? && (Supported(domain) ==> Supported(r)) && (LosesOne(domain) ==> SparedButState(r))
  {
    var step := With(NOTHING, "step_number", Atom(Number("0")));
    var log := With(step, "session_log_data", NOTHING);
    var talk := With(log, "conversation_data", Atom(Null));
    var config := With(talk, "config_snapshot", NOTHING);
    var results := With(config, "tool_results_store", NOTHING);
    With(results, "domain_state", domain)
  }

  /** A payload in memory, given the host's identity and the domain state. */
  function PayloadValue(identity: Documents.Value, domain: Documents.Value): (r: Documents.Value)
    ensures r.Dict? && (Supported(identity) && Supported(domain) ==> Supported(r))
    ensures Spared(identity) && LosesOne(domain) ==> SparedButState(r)
  {
    var envelope := With(BodiesValue(domain), "run_envelope", With(NOTHING, "run_id", identity));
    var metadata := With(envelope, "metadata", NOTHING);
    var created := With(metadata, "created_at", Atom(Number("0")));
    var status := With(created, "run_status", Text("running"));
    var phase := With(status, "run_phase", Text("running"));
    With(phase, "termination_reason", Atom(Null))
  }

  /** What a summary says of the bodies: nothing. */
  function NoBodiesValue(): (r: Documents.Value)
    ensures r.Dict? && Supported(r) && Spared(r)
  {
    var step := With(NOTHING, "step_number", Atom(Number("0")));
    var log := With(step, "session_log_data", NOTHING);
    var config := With(log, "config_snapshot", NOTHING);
    With(config, "tool_results_store", NOTHING)
  }

  function SummaryValue(id: string): (r: Documents.Value)
    ensures r.Dict? && Supported(r) && (|id| != |"lost"| ==> Spared(r))
  {
    var metadata := With(NoBodiesValue(), "metadata", NOTHING);
    var created := With(metadata, "created_at", Atom(Number("0")));
    var status := With(created, "run_status", Text("running"));
    var phase := With(status, "run_phase", Text("running"));
    var reason := With(phase, "termination_reason", Atom(Null));
    With(reason, "run_envelope", With(NOTHING, "run_id", Text(id)))
  }

  /** The checkpoint this is read back as. */
  function Plainly(identity: Json, domain: map<string, Json>): Checkpoint {
    Checkpoint("0", Bodies(map[], map[], map[], domain, None), map[], "0", "running", "running", None,
               Some(map["run_id" := identity]))
  }

  // ---------- their normal forms ----------

  lemma NothingIs(enc: Encoders, views: Views)
    requires PlainEncoders(enc)
    ensures Normal(enc, views, NOTHING) == JObject(map[])
    ensures forall scalar :: Normal(enc, views, Atom(scalar)) == JAtom(scalar)
  {}

  /** One more entry is one more update of the dict that is read back. */
  lemma WithIs(enc: Encoders, views: Views, v: Documents.Value, name: string, x: Documents.Value)
    requires PlainEncoders(enc) && v.Dict?
    ensures Normal(enc, views, v).JObject?
    ensures Normal(enc, views, With(v, name, x)) == JObject(Normal(enc, views, v).fields[name := Normal(enc, views, x)])
  {
    var names := seq(|v.entries|, i requires 0 <= i < |v.entries| => KeyName(v.entries[i].key).GetOr(""));
    var values := seq(|v.entries|, i requires 0 <= i < |v.entries| => Normal(enc, views, v.entries[i].value));
    var more := v.entries + [Entry(StrKey(name), x)];
    FoldSnoc(names, values, name, Normal(enc, views, x));
    assert names + [name] == seq(|more|, i requires 0 <= i < |more| => KeyName(more[i].key).GetOr(""));
    assert values + [Normal(enc, views, x)]
        == seq(|more|, i requires 0 <= i < |more| => Normal(enc, views, more[i].value));
  }

  lemma BodiesAreNormal(enc: Encoders, views: Views, domain: Documents.Value)
    requires PlainEncoders(enc)
    ensures Normal(enc, views, BodiesValue(domain)) == JObject(map[
              "step_number" := JAtom(Number("0")), "session_log_data" := JObject(map[]),
              "conversation_data" := JAtom(Null), "config_snapshot" := JObject(map[]),
              "tool_results_store" := JObject(map[]), "domain_state" := Normal(enc, views, domain)])
  {
    NothingIs(enc, views);
    var step := With(NOTHING, "step_number", Atom(Number("0")));
    var log := With(step, "session_log_data", NOTHING);
    var talk := With(log, "conversation_data", Atom(Null));
    var config := With(talk, "config_snapshot", NOTHING);
    var results := With(config, "tool_results_store", NOTHING);
    hide With, Normal, PlainEncoders;
    WithIs(enc, views, NOTHING, "step_number", Atom(Number("0")));
    WithIs(enc, views, step, "session_log_data", NOTHING);
    WithIs(enc, views, log, "conversation_data", Atom(Null));
    WithIs(enc, views, talk, "config_snapshot", NOTHING);
    WithIs(enc, views, config, "tool_results_store", NOTHING);
    WithIs(enc, views, results, "domain_state", domain);
  }

  lemma PlainlyWritten(identity: Json, domain: map<string, Json>)
    ensures Payload(Plainly(identity, domain)) == JObject(map[
              "step_number" := JAtom(Number("0")), "session_log_data" := JObject(map[]),
              "conversation_data" := JAtom(Null), "config_snapshot" := JObject(map[]),
              "tool_results_store" := JObject(map[]), "domain_state" := JObject(domain),
              "run_envelope" := JObject(map["run_id" := identity]), "metadata" := JObject(map[]),
              "created_at" := JAtom(Number("0")), "run_status" := JAtom(Str("running")),
              "run_phase" := JAtom(Str("running")), "termination_reason" := JAtom(Null)])
  {
    assert !HasTurnState(Plainly(identity, domain));
    hide HasTurnState;
  }

  lemma PayloadIsNormal(enc: Encoders, views: Views, identity: Documents.Value, domain: Documents.Value)
    requires PlainEncoders(enc) && Normal(enc, views, domain).JObject?
    ensures Normal(enc, views, PayloadValue(identity, domain))
            == Payload(Plainly(Normal(enc, views, identity), Normal(enc, views, domain).fields))
  {
    NothingIs(enc, views);
    PlainlyWritten(Normal(enc, views, identity), Normal(enc, views, domain).fields);
    BodiesAreNormal(enc, views, domain);
    var bodies := BodiesValue(domain);
    var envelope := With(bodies, "run_envelope", With(NOTHING, "run_id", identity));
    var metadata := With(envelope, "metadata", NOTHING);
    var created := With(metadata, "created_at", Atom(Number("0")));
    var status := With(created, "run_status", Text("running"));
    var phase := With(status, "run_phase", Text("running"));
    hide With, Normal, HasTurnState, PlainEncoders, BodiesValue, Payload, Plainly;
    WithIs(enc, views, NOTHING, "run_id", identity);
    WithIs(enc, views, bodies, "run_envelope", With(NOTHING, "run_id", identity));
    WithIs(enc, views, envelope, "metadata", NOTHING);
    WithIs(enc, views, metadata, "created_at", Atom(Number("0")));
    WithIs(enc, views, created, "run_status", Text("running"));
    WithIs(enc, views, status, "run_phase", Text("running"));
    WithIs(enc, views, phase, "termination_reason", Atom(Null));
  }

  lemma NoBodiesAreNormal(enc: Encoders, views: Views)
    requires PlainEncoders(enc)
    ensures Normal(enc, views, NoBodiesValue()) == JObject(map[
              "step_number" := JAtom(Number("0")), "session_log_data" := JObject(map[]),
              "config_snapshot" := JObject(map[]), "tool_results_store" := JObject(map[])])
  {
    NothingIs(enc, views);
    var step := With(NOTHING, "step_number", Atom(Number("0")));
    var log := With(step, "session_log_data", NOTHING);
    var config := With(log, "config_snapshot", NOTHING);
    hide With, Normal, PlainEncoders;
    WithIs(enc, views, NOTHING, "step_number", Atom(Number("0")));
    WithIs(enc, views, step, "session_log_data", NOTHING);
    WithIs(enc, views, log, "config_snapshot", NOTHING);
    WithIs(enc, views, config, "tool_results_store", NOTHING);
  }

  lemma PlainlySummarized(identity: Json, domain: map<string, Json>, id: string)
    ensures SummaryWith(Plainly(identity, domain), Some(id)) == JObject(map[
              "step_number" := JAtom(Number("0")), "session_log_data" := JObject(map[]),
              "config_snapshot" := JObject(map[]), "tool_results_store" := JObject(map[]),
              "metadata" := JObject(map[]), "created_at" := JAtom(Number("0")),
              "run_status" := JAtom(Str("running")), "run_phase" := JAtom(Str("running")),
              "termination_reason" := JAtom(Null), "run_envelope" := JObject(map["run_id" := JAtom(Str(id))])])
  {
    assert !HasTurnState(Plainly(identity, domain));
    hide HasTurnState;
  }

  lemma SummaryIsNormal(enc: Encoders, views: Views, identity: Json, domain: map<string, Json>, id: string)
    requires PlainEncoders(enc)
    ensures Normal(enc, views, SummaryValue(id)) == SummaryWith(Plainly(identity, domain), Some(id))
  {
    NothingIs(enc, views);
    PlainlySummarized(identity, domain, id);
    NoBodiesAreNormal(enc, views);
    var metadata := With(NoBodiesValue(), "metadata", NOTHING);
    var created := With(metadata, "created_at", Atom(Number("0")));
    var status := With(created, "run_status", Text("running"));
    var phase := With(status, "run_phase", Text("running"));
    var reason := With(phase, "termination_reason", Atom(Null));
    hide With, Normal, PlainEncoders, NoBodiesValue, SummaryWith, Plainly;
    WithIs(enc, views, NOTHING, "run_id", Text(id));
    WithIs(enc, views, NoBodiesValue(), "metadata", NOTHING);
    WithIs(enc, views, metadata, "created_at", Atom(Number("0")));
    WithIs(enc, views, created, "run_status", Text("running"));
    WithIs(enc, views, status, "run_phase", Text("running"));
    WithIs(enc, views, phase, "termination_reason", Atom(Null));
    WithIs(enc, views, reason, "run_envelope", With(NOTHING, "run_id", Text(id)));
  }

  lemma DocumentSupported(payload: Documents.Value, summary: Documents.Value)
    requires Supported(payload) && Supported(summary)
    ensures Supported(Document(payload, summary))
  {}

  lemma ValuesSupported(identity: Documents.Value, domain: Documents.Value, id: string)
    requires Supported(identity) && Supported(domain)
    ensures Supported(Document(PayloadValue(identity, domain), SummaryValue(id)))
  {
    DocumentSupported(PayloadValue(identity, domain), SummaryValue(id));
    hide Supported, PayloadValue, SummaryValue, Document;
  }

  // ---------- an identity that reads differently ----------

  /** A host's identity as Looplet writes it into the summary: its text, if it is not null. */
  function IdText(text: Documents.Value -> string, identity: Documents.Value): Option<string> {
    if identity == Atom(Null) then None else Some(text(identity))
  }

  /** Whatever the identity in memory: the checkpoint saved with it reads back if and only if its text
      is the text of what it is stored as. */
  lemma IdentityReadsBack(src: Source, rank: map<Digest, nat>, enc: Encoders, views: Views,
                          payload: Documents.Value, summary: Documents.Value, d: Doc, c: Checkpoint,
                          identity: Documents.Value, text: Documents.Value -> string)
    requires Good(src, rank) && PlainEncoders(enc) && identity != Unsupported && !identity.Sequence?
    requires DocOf(enc, views, Document(payload, summary)) == Some(d) && Held(src.hash, src.store, d)
    requires c.envelope.Some? && Has(c.envelope.value, "run_id", Normal(enc, views, identity))
    requires Normal(enc, views, payload) == Payload(c)
    requires Normal(enc, views, summary) == SummaryWith(c, IdText(text, identity)) && src.host.isInt(c.step)
    ensures Saved(src, rank, Manifest(Root(src.hash, d)), c) <==>
              identity == Atom(Null) || text(identity) == src.host.str(Normal(enc, views, identity))
  {
    hide Normal, DocOf, Held, Document, Payload, SummaryWith, Saved;
    NullIsNull(enc, views, identity);
    assert RunId(src.host, c) == if identity == Atom(Null) then None
                                 else Some(src.host.str(Normal(enc, views, identity)));
    hide RunId;
    DocumentReadsBack(src, rank, enc, views, payload, summary, d, c, IdText(text, identity));
  }

  lemma NullIsNull(enc: Encoders, views: Views, v: Documents.Value)
    requires PlainEncoders(enc) && v != Unsupported && !v.Sequence?
    ensures Normal(enc, views, v) == JAtom(Null) <==> v == Atom(Null)
  {}

  const TUPLE: Documents.Value := Listing(true, [Atom(Number("1")), Atom(Number("2"))])
  const ARRAY: Json := JArray([JAtom(Number("1")), JAtom(Number("2"))])

  lemma TupleIs(enc: Encoders, views: Views)
    requires PlainEncoders(enc)
    ensures Supported(TUPLE) && Supported(NOTHING) && Normal(enc, views, TUPLE) == ARRAY
  {
    var elements := TUPLE.elements;
    assert Normal(enc, views, TUPLE).elements == [Normal(enc, views, elements[0]), Normal(enc, views, elements[1])];
  }

  /** A run whose identity is a tuple: its checkpoint can be saved, into some table under some hash, and
      then its file reads as nothing, because "(1, 2)" was stored and "[1, 2]" is read. */
  lemma TupleIdentityLost(host: Host, enc: Encoders) returns (src: Source, rank: map<Digest, nat>, d: Doc)
    requires PlainEncoders(enc) && host.isInt("0") && host.str(ARRAY) == "[1, 2]"
    ensures src.host == host && Good(src, rank) && Held(src.hash, src.store, d)
    ensures DocOf(enc, map[], Document(PayloadValue(TUPLE, NOTHING), SummaryValue("(1, 2)"))) == Some(d)
    ensures ReadFile(src, rank, Manifest(Root(src.hash, d)), false).None?
  {
    hide PayloadValue, SummaryValue, Supported, Normal, DocOf, Held, Document, Payload, SummaryWith, ReadFile;
    var payload, summary := PayloadValue(TUPLE, NOTHING), SummaryValue("(1, 2)");
    var c := Plainly(ARRAY, map[]);
    TupleIs(enc, map[]);
    ValuesSupported(TUPLE, NOTHING, "(1, 2)");
    SupportedIsSaved(enc, map[], Document(payload, summary));
    NothingIs(enc, map[]);
    PayloadIsNormal(enc, map[], TUPLE, NOTHING);
    SummaryIsNormal(enc, map[], ARRAY, map[], "(1, 2)");
    d := DocOf(enc, map[], Document(payload, summary)).value;
    var h, s, r := EveryDocIsHeld(d);
    src, rank := Source(host, h, s), r;
    assert RunId(host, c) == Some("[1, 2]") && "[1, 2]"[0] != "(1, 2)"[0];
    hide RunId;
    DocumentReadsBack(src, rank, enc, map[], payload, summary, d, c, Some("(1, 2)"));
  }

}
