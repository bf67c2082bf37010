/** What a payload must look like to be read as a checkpoint, what it is read as, and when the
    checkpoint that was read may be gone on from: told from the fields alone. */
module CheckpointFields {
  import opened ChunkTree
  import opened Documents
  import opened CheckpointFiles

  // ---------- numerals ----------

  /** The number a numeral stands for, read from the left. */
  function ReadNumeral(s: string): nat
    requires forall i | 0 <= i < |s| :: '0' <= s[i] <= '9'
  {
    if s == "" then 0 else 10 * ReadNumeral(s[..|s| - 1]) + (s[|s| - 1] - '0') as nat
  }

  /** Numerals read back, so no two numbers have the same. */
  lemma {:induction false} DigitsRead(n: nat)
    ensures ReadNumeral(Digits(n)) == n
  {
    if n >= 10 {
      DigitsRead(n / 10);
      assert Digits(n)[..|Digits(n)| - 1] == Digits(n / 10);
    } else {
      assert Digits(n)[..0] == "";
    }
  }

  lemma DigitsDiffer(m: nat, n: nat)
    ensures Digits(m) == Digits(n) ==> m == n
  {
    DigitsRead(m);
    DigitsRead(n);
  }

  // ---------- what a payload must look like ----------

  predicate IsText(v: Json) {
    v.JAtom? && v.scalar.Str?
  }

  predicate IsInteger(host: Host, v: Json) {
    v.JAtom? && v.scalar.Number? && host.isInt(v.scalar.text)
  }

  /** A step that is marked speaks of a turn state, which must be there. */
  predicate Marked(m: map<string, Json>) {
    && "step_number" in m && m["step_number"].JObject?
    && Has(m["step_number"].fields, "required_semantics", JAtom(Str("looplet.assistant-turns.v1")))
    && "metadata" in m && m["metadata"].JObject? && "looplet_assistant_turns" in m["metadata"].fields
  }

  predicate StepGiven(host: Host, m: map<string, Json>) {
    && "step_number" in m
    && (IsInteger(host, m["step_number"])
        || (Marked(m) && "tool_step" in m["step_number"].fields
            && IsInteger(host, m["step_number"].fields["tool_step"])))
  }

  /** Every field but the step may be missing; those that are there are of their kinds. */
  predicate WellFormed(host: Host, j: Json) {
    && j.JObject?
    && var m := j.fields;
       && (forall name | name in {"session_log_data", "config_snapshot", "tool_results_store", "domain_state",
                                  "metadata"} :: name in m ==> m[name].JObject?)
       && (forall name | name in {"conversation_data", "run_envelope"} ::
             name in m ==> m[name].JObject? || m[name] == JAtom(Null))
       && (forall name | name in {"run_status", "run_phase"} :: name in m ==> IsText(m[name]))
       && ("termination_reason" in m ==> IsText(m["termination_reason"]) || m["termination_reason"] == JAtom(Null))
       && ("created_at" in m ==> m["created_at"].JAtom? && m["created_at"].scalar.Number?)
       && StepGiven(host, m)
  }

  lemma BodiesIff(m: map<string, Json>)
    ensures BodiesOf(m).Some? <==>
              && (forall name | name in {"session_log_data", "config_snapshot", "tool_results_store", "domain_state"} ::
                    name in m ==> m[name].JObject?)
              && ("conversation_data" in m ==>
                    m["conversation_data"].JObject? || m["conversation_data"] == JAtom(Null))
  {}

  lemma StepIff(host: Host, m: map<string, Json>)
    requires "metadata" in m ==> m["metadata"].JObject?
    ensures StepField(host, m, ObjectField(m, "metadata").GetOr(map[])).Some? <==> StepGiven(host, m)
  {}

  /** A payload is read exactly when it is well formed. */
  lemma ParsesIff(host: Host, j: Json)
    ensures FromDict(host, j).Some? <==> WellFormed(host, j)
  {
    if j.JObject? {
      BodiesIff(j.fields);
      if "metadata" in j.fields ==> j.fields["metadata"].JObject? { StepIff(host, j.fields); }
      hide BodiesOf, StepField, StepGiven;
    }
  }

  /** The field is the value, or missing and the value is what stands for it. */
  predicate Shows(m: map<string, Json>, name: string, v: Json, missing: Json) {
    if name in m then m[name] == v else v == missing
  }

  predicate ShowsStep(m: map<string, Json>, step: string) {
    || Has(m, "step_number", JAtom(Number(step)))
    || (Marked(m) && Has(m["step_number"].fields, "tool_step", JAtom(Number(step))))
  }

  /** Every part of the checkpoint that is read is its field, or what stands for a missing one. */
  lemma ParsedShows(host: Host, j: Json)
    requires FromDict(host, j).Some?
    ensures j.JObject?
    ensures var m, c := j.fields, FromDict(host, j).value;
            && Shows(m, "session_log_data", JObject(c.bodies.sessionLog), JObject(map[]))
            && Shows(m, "config_snapshot", JObject(c.bodies.config), JObject(map[]))
            && Shows(m, "tool_results_store", JObject(c.bodies.results), JObject(map[]))
            && Shows(m, "domain_state", JObject(c.bodies.domain), JObject(map[]))
            && Shows(m, "conversation_data", NullOr(c.bodies.conversation), JAtom(Null))
    ensures var m, c := j.fields, FromDict(host, j).value;
            && Shows(m, "metadata", JObject(c.metadata), JObject(map[]))
            && Shows(m, "run_envelope", NullOr(c.envelope), JAtom(Null))
            && Shows(m, "run_status", JAtom(Str(c.status)), JAtom(Str("created")))
            && Shows(m, "run_phase", JAtom(Str(c.phase)), JAtom(Str("starting")))
            && Shows(m, "termination_reason", if c.reason.Some? then JAtom(Str(c.reason.value)) else JAtom(Null),
                     JAtom(Null))
            && Shows(m, "created_at", JAtom(Number(c.createdAt)), JAtom(Number(host.now)))
            && ShowsStep(m, c.step)
  {
    StepShown(host, j.fields, FromDict(host, j).value.metadata);
    hide StepField, ShowsStep;
  }

  lemma StepShown(host: Host, m: map<string, Json>, metadata: map<string, Json>)
    requires ObjectField(m, "metadata") == Some(metadata) && StepField(host, m, metadata).Some?
    ensures ShowsStep(m, StepField(host, m, metadata).value)
  {}

  // ---------- the order key ----------

  /** A counter of the turn state is missing, or a whole number that is not negative. */
  predicate Countable(host: Host, m: map<string, Json>, name: string) {
    name in m ==> IsInteger(host, m[name]) && host.value(m[name].scalar.text) >= 0.0
  }

  function Count(host: Host, m: map<string, Json>, name: string): int {
    if name in m && m[name].JAtom? && m[name].scalar.Number? then host.value(m[name].scalar.text).Floor else 0
  }

  /** A checkpoint can be ordered exactly when its turn state, if it has one, is an object with proper
      counters; a missing turn state or counter counts as zero. */
  lemma OrderIff(host: Host, c: Checkpoint)
    requires host.isInt("0") && host.value("0") == 0.0
    ensures OrderOf(host, c).Some? <==>
              ("looplet_assistant_turns" in c.metadata ==>
                 && c.metadata["looplet_assistant_turns"].JObject?
                 && Countable(host, c.metadata["looplet_assistant_turns"].fields, "turn_count")
                 && Countable(host, c.metadata["looplet_assistant_turns"].fields, "model_calls"))
    ensures OrderOf(host, c).Some? ==>
              var o := OrderOf(host, c).value;
              var m := if "looplet_assistant_turns" in c.metadata && c.metadata["looplet_assistant_turns"].JObject?
                       then c.metadata["looplet_assistant_turns"].fields else map[];
              && o.turns == Count(host, m, "turn_count") && o.calls == Count(host, m, "model_calls")
              && o.step == host.value(c.step) && o.createdAt == host.value(c.createdAt)
  {}

  // ---------- what a stored summary says ----------

  lemma SummaryShows(host: Host, c: Checkpoint)
    ensures var m := Summary(host, c).fields;
            && Has(m, "step_number", JAtom(Number(c.step))) && Has(m, "created_at", JAtom(Number(c.createdAt)))
            && Has(m, "run_status", JAtom(Str(c.status))) && Has(m, "run_phase", JAtom(Str(c.phase)))
            && Has(m, "termination_reason", if c.reason.Some? then JAtom(Str(c.reason.value)) else JAtom(Null))
            && Has(m, "metadata", JObject(if TURN_STATE_KEY in c.metadata
                                          then map[TURN_STATE_KEY := TurnSummary(c.metadata[TURN_STATE_KEY])]
                                          else map[]))
            && Has(m, "run_envelope", var id := RunId(host, c);
                                      if id.Some? then JObject(map["run_id" := JAtom(Str(id.value))]) else JAtom(Null))
  {
    hide TurnSummary, RunId;
  }

  lemma SameTurns(host: Host, a: Checkpoint, b: Checkpoint)
    requires TURN_STATE_KEY in a.metadata && TURN_STATE_KEY in b.metadata
    requires TurnSummary(a.metadata[TURN_STATE_KEY]) == TurnSummary(b.metadata[TURN_STATE_KEY])
    ensures var s, t := ObjectField(a.metadata, TURN_STATE_KEY), ObjectField(b.metadata, TURN_STATE_KEY);
            && s.Some? == t.Some?
            && (s.Some? ==> forall name | name in {"turn_count", "model_calls"} ::
                              Counter(host, s.value, name) == Counter(host, t.value, name))
  {
    var s, t := a.metadata[TURN_STATE_KEY], b.metadata[TURN_STATE_KEY];
    assert |"turn_count"| == 10 && |"model_calls"| == 11;
    if s.JObject? && t.JObject? {
      var x, y := TurnSummary(s).fields, TurnSummary(t).fields;
      assert x["turn_count"] == y["turn_count"] && x["model_calls"] == y["model_calls"];
    } else {
      TurnsMismatch(s, t);
    }
  }

  /** A turn state that is no object is summarized whole, so it cannot pass for one that is. */
  lemma TurnsMismatch(s: Json, t: Json)
    requires TurnSummary(s) == TurnSummary(t)
    ensures s.JObject? == t.JObject?
  {}

  lemma SingleEntry(a: Json, b: Json)
    ensures map[TURN_STATE_KEY := a] == map[TURN_STATE_KEY := b] ==> a == b
    ensures map[TURN_STATE_KEY := a] != map[]
  {
    if map[TURN_STATE_KEY := a] == map[TURN_STATE_KEY := b] {
      assert map[TURN_STATE_KEY := a][TURN_STATE_KEY] == map[TURN_STATE_KEY := b][TURN_STATE_KEY];
    }
    assert TURN_STATE_KEY in map[TURN_STATE_KEY := a];
  }

  /** Whatever the choice of a checkpoint looks at is in its summary: two checkpoints with the same summary
      have the same identity and order, have both ended or neither, and have both a turn state or
      neither. */
  lemma SameSummarySameChoice(host: Host, a: Checkpoint, b: Checkpoint)
    requires Summary(host, a) == Summary(host, b)
    ensures RunId(host, a) == RunId(host, b) && HasTurnState(a) == HasTurnState(b)
    ensures OrderOf(host, a) == OrderOf(host, b) && IsTerminal(a) == IsTerminal(b)
  {
    hide Summary, TurnSummary, RunId, OrderOf, IsTerminal;
    SummaryShows(host, a);
    SummaryShows(host, b);
    SameIdentity(RunId(host, a), RunId(host, b));
    SameEnd(a, b);
    if TURN_STATE_KEY in a.metadata && TURN_STATE_KEY in b.metadata {
      SingleEntry(TurnSummary(a.metadata[TURN_STATE_KEY]), TurnSummary(b.metadata[TURN_STATE_KEY]));
    } else if TURN_STATE_KEY in a.metadata {
      SingleEntry(TurnSummary(a.metadata[TURN_STATE_KEY]), JAtom(Null));
    } else if TURN_STATE_KEY in b.metadata {
      SingleEntry(TurnSummary(b.metadata[TURN_STATE_KEY]), JAtom(Null));
    }
    SameOrder(host, a, b);
  }

  lemma SameOrder(host: Host, a: Checkpoint, b: Checkpoint)
    requires a.step == b.step && a.createdAt == b.createdAt
    requires TURN_STATE_KEY in a.metadata <==> TURN_STATE_KEY in b.metadata
    requires TURN_STATE_KEY in a.metadata ==>
               TurnSummary(a.metadata[TURN_STATE_KEY]) == TurnSummary(b.metadata[TURN_STATE_KEY])
    ensures OrderOf(host, a) == OrderOf(host, b)
  {
    if TURN_STATE_KEY in a.metadata { SameTurns(host, a, b); }
    hide TurnSummary, Counter;
  }

  lemma SameEnd(a: Checkpoint, b: Checkpoint)
    ensures a.status == b.status && a.phase == b.phase && a.reason == b.reason ==> IsTerminal(a) == IsTerminal(b)
  {}

  lemma SameIdentity(a: Option<string>, b: Option<string>)
    requires (if a.Some? then JObject(map["run_id" := JAtom(Str(a.value))]) else JAtom(Null))
             == (if b.Some? then JObject(map["run_id" := JAtom(Str(b.value))]) else JAtom(Null))
    ensures a == b
  {
    if a.Some? && b.Some? {
      assert map["run_id" := JAtom(Str(a.value))]["run_id"] == map["run_id" := JAtom(Str(b.value))]["run_id"];
    }
  }

  // ---------- going on from it ----------

  /** The values that count as nothing. */
  lemma TruthyIff(host: Host, j: Json)
    ensures !Truthy(host, j) <==>
              || j in {JAtom(Null), JAtom(Bool(false)), JAtom(Str("")), JArray([]), JObject(map[])}
              || (j.JAtom? && j.scalar.Number? && host.value(j.scalar.text) == 0.0)
  {}

  predicate Present(host: Host, m: map<string, Json>, name: string) {
    name in m && Truthy(host, m[name])
  }

  /** Tool effects are unknown exactly when calls are recorded as pending; otherwise a model request is
      unacknowledged exactly when the turn state records one; otherwise the run may be gone on with. */
  lemma VerdictIff(host: Host, c: Checkpoint)
    ensures var tools := Present(host, c.metadata, "pending_calls");
            var request := "looplet_assistant_turns" in c.metadata && c.metadata["looplet_assistant_turns"].JObject?
                           && Present(host, c.metadata["looplet_assistant_turns"].fields, "pending_model_call");
            && (VerdictOf(host, c) == UncertainToolEffect <==> tools)
            && (VerdictOf(host, c) == UncertainModelCall <==> !tools && request)
            && (VerdictOf(host, c) == Resumable <==> !tools && !request)
  {}
}
