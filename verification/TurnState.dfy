/** What a process saves of its turns, and what a resume reads of it.

  The counters, the ceiling and the pending marker go into the turn state of whatever checkpoint is
  saved; the rest of the checkpoint is as the host has it. */
module TurnState {
  import opened ChunkTree
  import opened Documents
  import opened CheckpointFiles
  import opened CheckpointFields
  import opened Admission

  const MARKER_KEY := "pending_model_call"
  const CAP_KEY := "max_model_calls"

  /** The host reads numerals as the numbers they stand for. */
  ghost predicate ReadsDigits(host: Host) {
    forall n: nat :: host.isInt(Digits(n)) && host.value(Digits(n)) == n as real
  }

  function Num(n: nat): Json {
    JAtom(Number(Digits(n)))
  }

  function CallJson(run: string, c: Call): Json {
    JObject(map["model_turn_id" := JAtom(Str(run + ":turn-" + Digits(c.turn))), "model_call_number" := Num(c.number)])
  }

  /** A single call is saved by itself, several as the first with the list of all.  A marker that was
      found when the process started stays as it was found. */
  function MarkerJson(run: string, m: Marker, found: Json): Json {
    match m
    case Inherited => found
    case Calls(first, all) =>
      if all == [] then CallJson(run, first)
      else JObject(CallJson(run, first).fields[
             "calls" := JArray(seq(|all|, i requires 0 <= i < |all| => CallJson(run, all[i])))])
  }

  /** The turn state of a process; `others` are its entries that do not concern admission. */
  function TurnFields(run: string, others: map<string, Json>, turn: nat, t: Turns, found: Json): map<string, Json> {
    var counted := others[
      "turn_count" := Num(turn)]["model_calls" := Num(t.modelCalls)][
      CAP_KEY := if t.cap.Some? then Num(t.cap.value) else JAtom(Null)];
    match t.marker
    case None => counted - {MARKER_KEY}
    case Some(m) => counted[MARKER_KEY := MarkerJson(run, m, found)]
  }

  /** The checkpoint saved: `base` with the turn state of the process in it. */
  function Captured(run: string, base: Checkpoint, turn: nat, t: Turns, found: Json): Checkpoint {
    var others := ObjectField(base.metadata, TURN_STATE_KEY).GetOr(map[]);
    base.(metadata := base.metadata[TURN_STATE_KEY := JObject(TurnFields(run, others, turn, t, found))])
  }

  /** The ceiling a resume finds; None when there is none it could go by. */
  function SavedCap(host: Host, c: Checkpoint): Option<nat> {
    var turns := ObjectField(c.metadata, TURN_STATE_KEY);
    if turns.None? || CAP_KEY !in turns.value then None else Counter(host, turns.value, CAP_KEY)
  }

  lemma FieldsSaved(run: string, others: map<string, Json>, turn: nat, t: Turns, found: Json)
    ensures var fields := TurnFields(run, others, turn, t, found);
            && Has(fields, "turn_count", Num(turn)) && Has(fields, "model_calls", Num(t.modelCalls))
            && Has(fields, CAP_KEY, if t.cap.Some? then Num(t.cap.value) else JAtom(Null))
            && (t.marker.None? ==> MARKER_KEY !in fields)
            && (t.marker.Some? ==> Has(fields, MARKER_KEY, MarkerJson(run, t.marker.value, found)))
  {
    assert |CAP_KEY| == 15 && |"model_calls"| == 11 && |"turn_count"| == 10 && |MARKER_KEY| == 18;
    hide MarkerJson, Num;
  }

  lemma MetadataSaved(run: string, base: Checkpoint, turn: nat, t: Turns, found: Json)
    ensures var c := Captured(run, base, turn, t, found);
            && ObjectField(c.metadata, TURN_STATE_KEY)
               == Some(TurnFields(run, ObjectField(base.metadata, TURN_STATE_KEY).GetOr(map[]), turn, t, found))
            && ("pending_calls" in c.metadata <==> "pending_calls" in base.metadata)
            && ("pending_calls" in c.metadata ==> c.metadata["pending_calls"] == base.metadata["pending_calls"])
  {
    assert |TURN_STATE_KEY| == 23 && |"pending_calls"| == 13;
    hide TurnFields;
  }

  /** Nothing else of the checkpoint is touched, nor of the turn state that was there. */
  lemma RestStays(run: string, base: Checkpoint, turn: nat, t: Turns, found: Json)
    ensures var c := Captured(run, base, turn, t, found);
            && c.(metadata := base.metadata) == base
            && (forall name | name != TURN_STATE_KEY ::
                  (name in c.metadata <==> name in base.metadata)
                  && (name in c.metadata ==> c.metadata[name] == base.metadata[name]))
            && Has(c.metadata, TURN_STATE_KEY, JObject(TurnFields(
                 run, ObjectField(base.metadata, TURN_STATE_KEY).GetOr(map[]), turn, t, found)))
    ensures var others := ObjectField(base.metadata, TURN_STATE_KEY).GetOr(map[]);
            var fields := TurnFields(run, others, turn, t, found);
            forall name | name !in {"turn_count", "model_calls", CAP_KEY, MARKER_KEY} ::
              (name in fields <==> name in others) && (name in fields ==> fields[name] == others[name])
  {
    hide MarkerJson, Num;
  }

  lemma CallMarkerCounts(host: Host, run: string, m: Marker, found: Json)
    requires m.Calls?
    ensures Truthy(host, MarkerJson(run, m, found))
  {
    var j := MarkerJson(run, m, found);
    assert |"model_turn_id"| == 13 && |"model_call_number"| == 17 && "model_turn_id" in CallJson(run, m.first).fields;
    assert j.JObject? && "model_turn_id" in j.fields;
    assert j.fields != map[];
  }

  /** The saved marker names every pending call, in order, by turn and number. */
  lemma MarkerNamesAll(run: string, pending: seq<Call>, found: Json)
    requires pending != []
    ensures var j := MarkerJson(run, MarkerOf(pending).value, found);
            && j.JObject? && Has(j.fields, "model_call_number", Num(pending[0].number))
            && Has(j.fields, "model_turn_id", JAtom(Str(run + ":turn-" + Digits(pending[0].turn))))
            && (|pending| > 1 <==> "calls" in j.fields)
            && (|pending| > 1 ==>
                  && j.fields["calls"].JArray? && |j.fields["calls"].elements| == |pending|
                  && forall i | 0 <= i < |pending| ::
                       && j.fields["calls"].elements[i].JObject?
                       && Has(j.fields["calls"].elements[i].fields, "model_call_number", Num(pending[i].number))
                       && Has(j.fields["calls"].elements[i].fields, "model_turn_id",
                              JAtom(Str(run + ":turn-" + Digits(pending[i].turn)))))
  {
    assert |"calls"| == 5 && |"model_call_number"| == 17 && |"model_turn_id"| == 13;
    hide Num;
  }

  /** What a resume reads of a checkpoint a process has saved: its order key, its ceiling, and whether it
      may be gone on from.  Unknown tool effects come first; then a marker, if it is there, refuses. */
  lemma SavedReads(host: Host, run: string, base: Checkpoint, turn: nat, t: Turns, found: Json)
    requires ReadsDigits(host)
    ensures var c := Captured(run, base, turn, t, found);
            && OrderOf(host, c) == Some(Order(turn, t.modelCalls, host.value(base.step), host.value(base.createdAt)))
            && SavedCap(host, c) == t.cap
            && IsTerminal(c) == IsTerminal(base) && RunId(host, c) == RunId(host, base) && HasTurnState(c)
    ensures var c, tools := Captured(run, base, turn, t, found), Present(host, base.metadata, "pending_calls");
            var marked := t.marker.Some? && (t.marker.value.Inherited? ==> Truthy(host, found));
            && (VerdictOf(host, c) == UncertainToolEffect <==> tools)
            && (VerdictOf(host, c) == UncertainModelCall <==> !tools && marked)
            && (VerdictOf(host, c) == Resumable <==> !tools && !marked)
  {
    var others := ObjectField(base.metadata, TURN_STATE_KEY).GetOr(map[]);
    FieldsSaved(run, others, turn, t, found);
    MetadataSaved(run, base, turn, t, found);
    VerdictIff(host, Captured(run, base, turn, t, found));
    if t.marker.Some? && t.marker.value.Calls? { CallMarkerCounts(host, run, t.marker.value, found); }
    CountersRead(host, turn);
    CountersRead(host, t.modelCalls);
    if t.cap.Some? { CountersRead(host, t.cap.value); }
    hide TurnFields, MarkerJson, Truthy, VerdictOf, RunId, IsTerminal, Num;
  }

  lemma CountersRead(host: Host, n: nat)
    requires ReadsDigits(host)
    ensures Num(n).JAtom? && Num(n).scalar.Number?
    ensures host.isInt(Num(n).scalar.text) && host.value(Num(n).scalar.text) == n as real
  {}

  /** A process that did not start with a marker saves checkpoints that may be gone on from exactly while
      none of its requests is open, unless tool effects are unknown. */
  lemma SavedResumableIff(host: Host, run: string, base: Checkpoint, turn: nat, t: Turns, found: Json)
    requires ReadsDigits(host) && t.marker == MarkerOf(t.pending)
    requires !Present(host, base.metadata, "pending_calls")
    ensures var verdict := VerdictOf(host, Captured(run, base, turn, t, found));
            && (verdict == Resumable <==> t.pending == [])
            && (verdict == UncertainModelCall <==> t.pending != [])
  {
    SavedReads(host, run, base, turn, t, found);
    hide VerdictOf, Captured;
  }
}
