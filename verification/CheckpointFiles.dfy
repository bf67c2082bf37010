/** Checkpoint files: what a reader of the resume fields sees of a saved checkpoint.

  Number texts, `str` of a JSON value and the clock come from the host.  A scan of a directory
  reads only the fields it needs; it sees the same order key, run identity, terminal flag and
  summary as a reader of the whole payload. */
module CheckpointFiles {
  import opened ChunkTree
  import opened Documents
  import opened Records
  import opened RecordReader

  const TURN_STATE_KEY := "looplet_assistant_turns"
  const TURN_STATE_SCHEMA := "looplet.assistant-turns.v1"

  datatype Host = Host(isInt: string -> bool, value: string -> real, str: Json -> string, now: string)

  /** The decimal numeral of an integer, as Looplet writes it. */
  function Digits(n: nat): (s: string)
    ensures s != "" && forall i | 0 <= i < |s| :: '0' <= s[i] <= '9'
  {
    if n < 10 then ["0123456789"[n]] else Digits(n / 10) + ["0123456789"[n % 10]]
  }

  /** The parts of a checkpoint that selection never looks into. */
  datatype Bodies = Bodies(
    sessionLog: map<string, Json>,
    config: map<string, Json>,
    results: map<string, Json>,
    domain: map<string, Json>,
    conversation: Option<map<string, Json>>)

  datatype Checkpoint = Checkpoint(
    step: string,
    bodies: Bodies,
    metadata: map<string, Json>,
    createdAt: string,
    status: string,
    phase: string,
    reason: Option<string>,
    envelope: Option<map<string, Json>>)

  // ---------- reading one payload ----------

  function GetField(m: map<string, Json>, name: string, default: Json): Json {
    if name in m then m[name] else default
  }

  /** An object field; a missing one is empty, any other value is refused. */
  function ObjectField(m: map<string, Json>, name: string): Option<map<string, Json>> {
    var v := GetField(m, name, JObject(map[]));
    if v.JObject? then Some(v.fields) else None
  }

  /** An object or null. */
  function NullableField(m: map<string, Json>, name: string): Option<Option<map<string, Json>>> {
    var v := GetField(m, name, JAtom(Null));
    if v == JAtom(Null) then Some(None) else if v.JObject? then Some(Some(v.fields)) else None
  }

  function TextField(m: map<string, Json>, name: string, default: string): Option<string> {
    var v := GetField(m, name, JAtom(Str(default)));
    if v.JAtom? && v.scalar.Str? then Some(v.scalar.s) else None
  }

  function NullableText(m: map<string, Json>, name: string): Option<Option<string>> {
    var v := GetField(m, name, JAtom(Null));
    if v == JAtom(Null) then Some(None)
    else if v.JAtom? && v.scalar.Str? then Some(Some(v.scalar.s)) else None
  }

  function NumberText(v: Json): Option<string> {
    if v.JAtom? && v.scalar.Number? then Some(v.scalar.text) else None
  }

  /** The tool step; a marked one needs the turn state it speaks of. */
  function StepField(host: Host, m: map<string, Json>, metadata: map<string, Json>): Option<string> {
    var v := GetField(m, "step_number", JAtom(Null));
    var marked := v.JObject?;
    if marked && !(GetField(v.fields, "required_semantics", JAtom(Null)) == JAtom(Str(TURN_STATE_SCHEMA))
                   && TURN_STATE_KEY in metadata) then None
    else
      var text := NumberText(if marked then GetField(v.fields, "tool_step", JAtom(Null)) else v);
      if text.Some? && host.isInt(text.value) then text else None
  }

  function BodiesOf(m: map<string, Json>): Option<Bodies> {
    var sessionLog, config := ObjectField(m, "session_log_data"), ObjectField(m, "config_snapshot");
    var results, domain := ObjectField(m, "tool_results_store"), ObjectField(m, "domain_state");
    var conversation := NullableField(m, "conversation_data");
    if sessionLog.None? || config.None? || results.None? || domain.None? || conversation.None? then None
    else Some(Bodies(sessionLog.value, config.value, results.value, domain.value, conversation.value))
  }

  function FromDict(host: Host, j: Json): Option<Checkpoint> {
    if !j.JObject? then None
    else
      var m := j.fields;
      var bodies, metadata, envelope := BodiesOf(m), ObjectField(m, "metadata"), NullableField(m, "run_envelope");
      var createdAt := NumberText(GetField(m, "created_at", JAtom(Number(host.now))));
      var status, phase := TextField(m, "run_status", "created"), TextField(m, "run_phase", "starting");
      var reason := NullableText(m, "termination_reason");
      if bodies.None? || metadata.None? || envelope.None? || createdAt.None? || status.None?
         || phase.None? || reason.None? then None
      else
        var step := StepField(host, m, metadata.value);
        if step.None? then None
        else Some(Checkpoint(step.value, bodies.value, metadata.value, createdAt.value, status.value,
                             phase.value, reason.value, envelope.value))
  }

  // ---------- what selection looks at ----------

  function RunId(host: Host, c: Checkpoint): Option<string> {
    if c.envelope.None? then None
    else
      var v := GetField(c.envelope.value, "run_id", JAtom(Null));
      if v == JAtom(Null) then None else Some(host.str(v))
  }

  predicate IsTerminal(c: Checkpoint) {
    c.status in {"completed", "failed", "cancelled"} || c.phase == "terminal" || c.reason.Some?
  }

  predicate HasTurnState(c: Checkpoint) {
    TURN_STATE_KEY in c.metadata
  }

  datatype Order = Order(turns: nat, calls: nat, step: real, createdAt: real)

  /** A counter of the turn state, zero when missing; None unless it is a non-negative integer. */
  function Counter(host: Host, turns: map<string, Json>, name: string): Option<nat> {
    var text := NumberText(GetField(turns, name, JAtom(Number("0"))));
    if text.None? || !host.isInt(text.value) || host.value(text.value) < 0.0 then None
    else Some(host.value(text.value).Floor)
  }

  /** The resume order of a checkpoint; None where Looplet raises. */
  function OrderOf(host: Host, c: Checkpoint): Option<Order> {
    var turns := ObjectField(c.metadata, TURN_STATE_KEY);
    if turns.None? then None
    else
      var turn, calls := Counter(host, turns.value, "turn_count"), Counter(host, turns.value, "model_calls");
      if turn.None? || calls.None? then None
      else Some(Order(turn.value, calls.value, host.value(c.step), host.value(c.createdAt)))
  }

  /** Only these parts of the turn state go into a summary; anything but an object goes in whole. */
  function TurnSummary(turns: Json): Json {
    if !turns.JObject? then turns
    else JObject(map["turn_count" := GetField(turns.fields, "turn_count", JAtom(Number("0"))),
                     "model_calls" := GetField(turns.fields, "model_calls", JAtom(Number("0")))])
  }

  /** The summary stored beside a payload, given the run identity as text. */
  function SummaryWith(c: Checkpoint, id: Option<string>): Json {
    JObject(map[
      "step_number" := JAtom(Number(c.step)),
      "session_log_data" := JObject(map[]),
      "config_snapshot" := JObject(map[]),
      "tool_results_store" := JObject(map[]),
      "metadata" := JObject(if HasTurnState(c) then map[TURN_STATE_KEY := TurnSummary(c.metadata[TURN_STATE_KEY])]
                            else map[]),
      "created_at" := JAtom(Number(c.createdAt)),
      "run_status" := JAtom(Str(c.status)),
      "run_phase" := JAtom(Str(c.phase)),
      "termination_reason" := if c.reason.Some? then JAtom(Str(c.reason.value)) else JAtom(Null),
      "run_envelope" := if id.Some? then JObject(map["run_id" := JAtom(Str(id.value))]) else JAtom(Null)])
  }

  function Summary(host: Host, c: Checkpoint): Json {
    SummaryWith(c, RunId(host, c))
  }

  // ---------- what is written ----------

  function NullOr(m: Option<map<string, Json>>): Json {
    if m.Some? then JObject(m.value) else JAtom(Null)
  }

  /** The payload of a checkpoint.  With a turn state the step is wrapped, so that a reader that does
      not know turn states refuses it. */
  function Payload(c: Checkpoint): Json {
    var step := JAtom(Number(c.step));
    JObject(map[
      "step_number" := if HasTurnState(c)
                       then JObject(map["tool_step" := step, "required_semantics" := JAtom(Str(TURN_STATE_SCHEMA))])
                       else step,
      "session_log_data" := JObject(c.bodies.sessionLog),
      "conversation_data" := NullOr(c.bodies.conversation),
      "config_snapshot" := JObject(c.bodies.config),
      "tool_results_store" := JObject(c.bodies.results),
      "domain_state" := JObject(c.bodies.domain),
      "run_envelope" := NullOr(c.envelope),
      "metadata" := JObject(c.metadata),
      "created_at" := JAtom(Number(c.createdAt)),
      "run_status" := JAtom(Str(c.status)),
      "run_phase" := JAtom(Str(c.phase)),
      "termination_reason" := if c.reason.Some? then JAtom(Str(c.reason.value)) else JAtom(Null)])
  }

  /** Parsing undoes writing, exactly when the step is an integer. */
  lemma PayloadParses(host: Host, c: Checkpoint)
    ensures FromDict(host, Payload(c)) == if host.isInt(c.step) then Some(c) else None
  {
    var m := Payload(c).fields;
    PayloadFields(host, c);
    hide Payload, ObjectField, NullableField, TextField, NullableText, StepField, GetField;
  }

  predicate Has(m: map<string, Json>, name: string, v: Json) {
    name in m && m[name] == v
  }

  lemma LogsWritten(c: Checkpoint)
    ensures var m := Payload(c).fields;
            && Has(m, "session_log_data", JObject(c.bodies.sessionLog))
            && Has(m, "conversation_data", NullOr(c.bodies.conversation))
            && Has(m, "tool_results_store", JObject(c.bodies.results))
  {
    hide HasTurnState, NullOr;
  }

  lemma SettingsWritten(c: Checkpoint)
    ensures var m := Payload(c).fields;
            && Has(m, "config_snapshot", JObject(c.bodies.config))
            && Has(m, "domain_state", JObject(c.bodies.domain))
  {
    hide HasTurnState, NullOr;
  }

  lemma RestWritten(c: Checkpoint)
    ensures var m := Payload(c).fields;
            && Has(m, "run_envelope", NullOr(c.envelope)) && Has(m, "metadata", JObject(c.metadata))
            && Has(m, "created_at", JAtom(Number(c.createdAt)))
            && Has(m, "run_status", JAtom(Str(c.status))) && Has(m, "run_phase", JAtom(Str(c.phase)))
            && Has(m, "termination_reason", if c.reason.Some? then JAtom(Str(c.reason.value)) else JAtom(Null))
            && Has(m, "step_number",
                   if HasTurnState(c)
                   then JObject(map["tool_step" := JAtom(Number(c.step)),
                                    "required_semantics" := JAtom(Str(TURN_STATE_SCHEMA))])
                   else JAtom(Number(c.step)))
  {
    hide HasTurnState, NullOr;
  }

  lemma StepWritten(host: Host, c: Checkpoint)
    ensures StepField(host, Payload(c).fields, c.metadata) == if host.isInt(c.step) then Some(c.step) else None
  {
    RestWritten(c);
    hide Payload;
  }

  lemma PayloadFields(host: Host, c: Checkpoint)
    ensures var m := Payload(c).fields;
            && BodiesOf(m) == Some(c.bodies) && ObjectField(m, "metadata") == Some(c.metadata)
            && NullableField(m, "run_envelope") == Some(c.envelope)
            && NumberText(GetField(m, "created_at", JAtom(Number(host.now)))) == Some(c.createdAt)
            && TextField(m, "run_status", "created") == Some(c.status)
            && TextField(m, "run_phase", "starting") == Some(c.phase)
            && NullableText(m, "termination_reason") == Some(c.reason)
            && StepField(host, m, c.metadata) == if host.isInt(c.step) then Some(c.step) else None
  {
    LogsWritten(c);
    SettingsWritten(c);
    RestWritten(c);
    StepWritten(host, c);
    hide Payload, StepField;
  }

  /** Two summaries of one checkpoint differ only in the run identity. */
  lemma SummariesDiffer(c: Checkpoint, a: Option<string>, b: Option<string>)
    ensures SummaryWith(c, a) == SummaryWith(c, b) <==> a == b
  {
    var x, y := SummaryWith(c, a).fields["run_envelope"], SummaryWith(c, b).fields["run_envelope"];
    if a.Some? && b.Some? && x == y { assert x.fields["run_id"] == y.fields["run_id"]; }
  }

  // ---------- whether a chosen checkpoint may be resumed ----------

  predicate Truthy(host: Host, j: Json) {
    match j
    case JArray(elements) => elements != []
    case JObject(fields) => fields != map[]
    case JAtom(scalar) =>
      match scalar
      case Null => false
      case Bool(b) => b
      case Number(text) => host.value(text) != 0.0
      case Str(s) => s != ""
  }

  datatype Verdict = UncertainToolEffect | UncertainModelCall | Resumable

  /** Unknown tool effects are reported before an unacknowledged model request. */
  function VerdictOf(host: Host, c: Checkpoint): Verdict {
    var turns := GetField(c.metadata, TURN_STATE_KEY, JObject(map[]));
    if Truthy(host, GetField(c.metadata, "pending_calls", JAtom(Null))) then UncertainToolEffect
    else if turns.JObject? && Truthy(host, GetField(turns.fields, "pending_model_call", JAtom(Null)))
    then UncertainModelCall
    else Resumable
  }

  // ---------- the projection of a directory scan ----------

  const TURN_FIELDS := Only(map["turn_count" := Everything, "model_calls" := Everything])
  const METADATA_FIELDS := Only(map[TURN_STATE_KEY := TURN_FIELDS])
  const ENVELOPE_FIELDS := Only(map["run_id" := Everything])

  const RESUME_FIELDS := Only(map[
    "step_number" := Everything,
    "session_log_data" := Only(map[]),
    "conversation_data" := Only(map[]),
    "config_snapshot" := Only(map[]),
    "tool_results_store" := Only(map[]),
    "domain_state" := Only(map[]),
    "run_envelope" := ENVELOPE_FIELDS,
    "metadata" := METADATA_FIELDS,
    "created_at" := Everything,
    "run_status" := Everything,
    "run_phase" := Everything,
    "termination_reason" := Everything])

  function ProjectFields(m: map<string, Json>, fields: Fields): map<string, Json> {
    if fields.Everything? then m else Project(JObject(m), fields).fields
  }

  function NoBodies(b: Bodies): Bodies {
    Bodies(map[], map[], map[], map[], if b.conversation.Some? then Some(map[]) else None)
  }

  /** The checkpoint a scan sees in place of c. */
  function Trim(c: Checkpoint): Checkpoint {
    c.(bodies := NoBodies(c.bodies),
       metadata := ProjectFields(c.metadata, METADATA_FIELDS),
       envelope := if c.envelope.Some? then Some(ProjectFields(c.envelope.value, ENVELOPE_FIELDS)) else None)
  }

  lemma FieldProjected(m: map<string, Json>, fields: Fields, name: string, default: Json)
    requires fields.Only? && name in fields.names && Project(default, fields.names[name]) == default
    ensures GetField(ProjectFields(m, fields), name, default)
            == Project(GetField(m, name, default), fields.names[name])
  {}

  lemma NothingKept(m: map<string, Json>)
    ensures Project(JObject(m), Only(map[])) == JObject(map[])
  {}

  lemma ProjectObject(m: map<string, Json>, fields: Fields)
    ensures Project(JObject(m), fields) == JObject(ProjectFields(m, fields))
  {}

  /** Projection and parsing commute. */
  lemma ProjectedParse(host: Host, j: Json)
    ensures FromDict(host, Project(j, RESUME_FIELDS))
            == if FromDict(host, j).Some? then Some(Trim(FromDict(host, j).value)) else None
  {
    if j.JObject? {
      var m := j.fields;
      ProjectObject(m, RESUME_FIELDS);
      hide ProjectFields, Project, GetField, ObjectField, NullableField, TextField, NullableText, StepField, BodiesOf;
      BodiesProjected(m);
      DictsProjected(m);
      AtomsProjected(host, m);
      StepProjected(host, m);
    }
  }

  lemma BodyProjected(m: map<string, Json>, name: string)
    requires name in {"session_log_data", "config_snapshot", "tool_results_store", "domain_state"}
    ensures ObjectField(ProjectFields(m, RESUME_FIELDS), name)
            == if ObjectField(m, name).Some? then Some(map[]) else None
  {
    NothingKept(map[]);
    FieldProjected(m, RESUME_FIELDS, name, JObject(map[]));
    var v := GetField(m, name, JObject(map[]));
    if v.JObject? { NothingKept(v.fields); }
  }

  lemma BodiesProjected(m: map<string, Json>)
    ensures BodiesOf(ProjectFields(m, RESUME_FIELDS))
            == if BodiesOf(m).Some? then Some(NoBodies(BodiesOf(m).value)) else None
  {
    BodyProjected(m, "session_log_data");
    BodyProjected(m, "config_snapshot");
    BodyProjected(m, "tool_results_store");
    BodyProjected(m, "domain_state");
    ConversationProjected(m);
    hide ProjectFields, ObjectField, GetField, NullableField;
  }

  lemma ConversationProjected(m: map<string, Json>)
    ensures var conversation := NullableField(m, "conversation_data");
            NullableField(ProjectFields(m, RESUME_FIELDS), "conversation_data")
            == if conversation.Some? && conversation.value.Some? then Some(Some(map[])) else conversation
  {
    FieldProjected(m, RESUME_FIELDS, "conversation_data", JAtom(Null));
    var v := GetField(m, "conversation_data", JAtom(Null));
    if v.JObject? { NothingKept(v.fields); }
    hide ProjectFields, GetField;
  }

  lemma DictsProjected(m: map<string, Json>)
    ensures var p, envelope, metadata := ProjectFields(m, RESUME_FIELDS), NullableField(m, "run_envelope"),
              ObjectField(m, "metadata");
            && NullableField(p, "run_envelope")
               == (if envelope.Some? && envelope.value.Some?
                   then Some(Some(ProjectFields(envelope.value.value, ENVELOPE_FIELDS))) else envelope)
            && ObjectField(p, "metadata")
               == (if metadata.Some? then Some(ProjectFields(metadata.value, METADATA_FIELDS)) else None)
  {
    assert Project(JObject(map[]), METADATA_FIELDS) == JObject(map[]);
    FieldProjected(m, RESUME_FIELDS, "metadata", JObject(map[]));
    FieldProjected(m, RESUME_FIELDS, "run_envelope", JAtom(Null));
  }

  lemma AtomsProjected(host: Host, m: map<string, Json>)
    ensures var p := ProjectFields(m, RESUME_FIELDS);
            && TextField(p, "run_status", "created") == TextField(m, "run_status", "created")
            && TextField(p, "run_phase", "starting") == TextField(m, "run_phase", "starting")
            && NullableText(p, "termination_reason") == NullableText(m, "termination_reason")
            && GetField(p, "created_at", JAtom(Number(host.now))) == GetField(m, "created_at", JAtom(Number(host.now)))
            && GetField(p, "step_number", JAtom(Null)) == GetField(m, "step_number", JAtom(Null))
  {
    FieldProjected(m, RESUME_FIELDS, "run_status", JAtom(Str("created")));
    FieldProjected(m, RESUME_FIELDS, "run_phase", JAtom(Str("starting")));
    FieldProjected(m, RESUME_FIELDS, "termination_reason", JAtom(Null));
    FieldProjected(m, RESUME_FIELDS, "created_at", JAtom(Number(host.now)));
    FieldProjected(m, RESUME_FIELDS, "step_number", JAtom(Null));
  }

  lemma StepProjected(host: Host, m: map<string, Json>)
    ensures forall metadata ::
              StepField(host, ProjectFields(m, RESUME_FIELDS), ProjectFields(metadata, METADATA_FIELDS))
              == StepField(host, m, metadata)
  {
    AtomsProjected(host, m);
  }

  lemma TurnsTrimmed(host: Host, m: map<string, Json>)
    ensures var t := ProjectFields(m, METADATA_FIELDS);
            && (TURN_STATE_KEY in t <==> TURN_STATE_KEY in m)
            && (TURN_STATE_KEY in m ==> TurnSummary(t[TURN_STATE_KEY]) == TurnSummary(m[TURN_STATE_KEY]))
            && ObjectField(t, TURN_STATE_KEY).Some? == ObjectField(m, TURN_STATE_KEY).Some?
            && (ObjectField(m, TURN_STATE_KEY).Some? ==>
                  forall name | name in {"turn_count", "model_calls"} ::
                    Counter(host, ObjectField(t, TURN_STATE_KEY).value, name)
                    == Counter(host, ObjectField(m, TURN_STATE_KEY).value, name))
  {
    if TURN_STATE_KEY in m {
      var turns := m[TURN_STATE_KEY];
      assert ProjectFields(m, METADATA_FIELDS)[TURN_STATE_KEY] == Project(turns, TURN_FIELDS);
      if turns.JObject? {
        FieldProjected(turns.fields, TURN_FIELDS, "turn_count", JAtom(Number("0")));
        FieldProjected(turns.fields, TURN_FIELDS, "model_calls", JAtom(Number("0")));
        ProjectObject(turns.fields, TURN_FIELDS);
      }
    }
  }

  lemma TrimKeepsRunId(host: Host, c: Checkpoint)
    ensures RunId(host, Trim(c)) == RunId(host, c)
  {
    if c.envelope.Some? { FieldProjected(c.envelope.value, ENVELOPE_FIELDS, "run_id", JAtom(Null)); }
  }

  lemma TrimKeepsSummary(host: Host, c: Checkpoint)
    ensures Summary(host, Trim(c)) == Summary(host, c)
  {
    TurnsTrimmed(host, c.metadata);
    TrimKeepsRunId(host, c);
    hide ProjectFields, TurnSummary, RunId;
  }

  /** Trimming changes nothing that selection or the stored summary depends on. */
  lemma TrimKeeps(host: Host, c: Checkpoint)
    ensures RunId(host, Trim(c)) == RunId(host, c) && IsTerminal(Trim(c)) == IsTerminal(c)
    ensures HasTurnState(Trim(c)) == HasTurnState(c)
    ensures OrderOf(host, Trim(c)) == OrderOf(host, c)
    ensures Summary(host, Trim(c)) == Summary(host, c)
  {
    TrimKeepsRunId(host, c);
    TrimKeepsSummary(host, c);
    TurnsTrimmed(host, c.metadata);
    hide ProjectFields, Counter, Summary, RunId, ObjectField;
  }
}
