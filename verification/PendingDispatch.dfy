/** A crash while a group of tools runs is never resumed as if the tools had not run.

  The group is saved as pending under the step of its last call, then every call saves its own
  step.  Until the last of these is written the scan of the directory chooses the pending
  checkpoint, which refuses to resume; from then on it chooses the last step, even when the clock
  has not moved, because that file comes first in path order. */
module PendingDispatch {
  import opened ChunkTree
  import opened Documents
  import opened Records
  import opened CheckpointFiles
  import opened CheckpointFields
  import opened ResumeSelection
  import opened SavedCheckpoints

  // ---------- file names and their order ----------

  function StepKey(prefix: string, n: nat): string {
    prefix + "step_" + Digits(n)
  }

  function PendingKey(prefix: string, n: nat): string {
    StepKey(prefix, n) + "_pending"
  }

  predicate Before(a: string, b: string) {
    b != "" && (a == "" || a[0] < b[0] || (a[0] == b[0] && Before(a[1..], b[1..])))
  }

  lemma {:induction false} BeforeAfterPrefix(p: string, a: string, b: string)
    ensures Before(p + a, p + b) == Before(a, b)
  {
    if p == "" {
      assert p + a == a && p + b == b;
    } else {
      assert (p + a)[1..] == p[1..] + a && (p + b)[1..] == p[1..] + b;
      BeforeAfterPrefix(p[1..], a, b);
    }
  }

  lemma {:induction false} BeforeOneWay(a: string, b: string)
    ensures !(Before(a, b) && Before(b, a))
  {
    if a != "" && b != "" { BeforeOneWay(a[1..], b[1..]); }
  }

  /** '.' comes before '_', so the step file is listed ahead of its pending file. */
  lemma StepListedFirst(prefix: string, n: nat)
    ensures Before(StepKey(prefix, n) + ".json", PendingKey(prefix, n) + ".json")
  {
    assert PendingKey(prefix, n) + ".json" == StepKey(prefix, n) + "_pending.json";
    BeforeAfterPrefix(StepKey(prefix, n), ".json", "_pending.json");
  }

  lemma KeysDiffer(prefix: string, n: nat, m: nat)
    ensures StepKey(prefix, n) != PendingKey(prefix, m)
  {
    var a, b := StepKey(prefix, n), PendingKey(prefix, m);
    assert a[|a| - 1] == Digits(n)[|Digits(n)| - 1] && b[|b| - 1] == 'g';
  }

  // ---------- the pending checkpoint ----------

  datatype ToolCall = ToolCall(callId: Json, tool: string, proposed: Json, effective: Json)

  function PendingEntry(c: ToolCall, dispatched: bool): Json {
    JObject(map[
      "call_id" := c.callId,
      "tool" := JAtom(Str(c.tool)),
      "proposed_args" := c.proposed,
      "effective_args" := c.effective,
      "execution_status" := JAtom(Str(if dispatched then "effect_unknown" else "not_executed"))])
  }

  /** What is saved before a group runs: the run as captured, and every call with its status. */
  function Pending(captured: Checkpoint, calls: seq<ToolCall>, dispatched: set<nat>): Checkpoint {
    captured.(metadata := captured.metadata["pending_calls" := JArray(
                seq(|calls|, i requires 0 <= i < |calls| => PendingEntry(calls[i], i in dispatched)))],
              reason := None)
  }

  /** It refuses to resume, stands where the captured run stands, and names exactly the calls whose
      effects are unknown. */
  lemma PendingRefuses(host: Host, captured: Checkpoint, calls: seq<ToolCall>, dispatched: set<nat>)
    requires calls != []
    ensures var c := Pending(captured, calls, dispatched);
            && VerdictOf(host, c) == UncertainToolEffect
            && OrderOf(host, c) == OrderOf(host, captured) && RunId(host, c) == RunId(host, captured)
            && (!IsTerminal(captured) ==> !IsTerminal(c))
            && forall i | 0 <= i < |calls| ::
                 var entry := c.metadata["pending_calls"].elements[i];
                 && entry.fields["call_id"] == calls[i].callId
                 && (entry.fields["execution_status"] == JAtom(Str("effect_unknown")) <==> i in dispatched)
  {
    var c := Pending(captured, calls, dispatched);
    assert TURN_STATE_KEY[0] != "pending_calls"[0];
    assert ObjectField(c.metadata, TURN_STATE_KEY) == ObjectField(captured.metadata, TURN_STATE_KEY);
    assert "effect_unknown"[0] != "not_executed"[0];
  }

  /** It records every call as it was proposed and as it runs, in order, and is otherwise the captured run. */
  lemma PendingRecords(captured: Checkpoint, calls: seq<ToolCall>, dispatched: set<nat>)
    ensures var c := Pending(captured, calls, dispatched);
            && c.(metadata := captured.metadata, reason := captured.reason) == captured && c.reason.None?
            && (forall name | name != "pending_calls" ::
                  (name in c.metadata <==> name in captured.metadata)
                  && (name in c.metadata ==> c.metadata[name] == captured.metadata[name]))
            && "pending_calls" in c.metadata && c.metadata["pending_calls"].JArray?
            && |c.metadata["pending_calls"].elements| == |calls|
            && forall i | 0 <= i < |calls| ::
                 var entry := c.metadata["pending_calls"].elements[i];
                 && entry.JObject? && Has(entry.fields, "call_id", calls[i].callId)
                 && Has(entry.fields, "tool", JAtom(Str(calls[i].tool)))
                 && Has(entry.fields, "proposed_args", calls[i].proposed)
                 && Has(entry.fields, "effective_args", calls[i].effective)
                 && Has(entry.fields, "execution_status",
                        JAtom(Str(if i in dispatched then "effect_unknown" else "not_executed")))
  {
    assert |"call_id"| == 7 && |"tool"| == 4 && |"proposed_args"| == 13 && |"effective_args"| == 14;
  }

  // ---------- one group ----------

  type Directory = map<string, Checkpoint>

  /** One tool group: the run captured before it, its calls, which of them are dispatched, the
      checkpoint each call saves afterwards, and the cursor they all share. */
  datatype Group = Group(prefix: string, first: nat, captured: Checkpoint, tools: seq<ToolCall>, dispatched: set<nat>,
                         posts: seq<Checkpoint>, turns: nat, calls: nat, at: real, times: seq<real>)
  {
    function PendingSave(): Checkpoint { Pending(captured, tools, dispatched) }

    /** The step of the last call. */
    function Last(): nat {
      if posts == [] then first else first + |posts| - 1
    }

    function Cursor(t: real): Order {
      Order(turns, calls, Last() as real, t)
    }
  }

  /** The directory after the pending save and the first j post-step saves. */
  function Written(base: Directory, g: Group, j: nat): Directory
    requires j <= |g.posts| && g.posts != []
  {
    if j == 0 then base[PendingKey(g.prefix, g.Last()) := g.PendingSave()]
    else Written(base, g, j - 1)[StepKey(g.prefix, g.first + j - 1) := g.posts[j - 1]]
  }

  lemma StepKeysDiffer(prefix: string, m: nat, n: nat)
    requires StepKey(prefix, m) == StepKey(prefix, n)
    ensures m == n
  {
    var a, b := StepKey(prefix, m), StepKey(prefix, n);
    assert a[|prefix + "step_"|..] == Digits(m) && b[|prefix + "step_"|..] == Digits(n);
    DigitsDiffer(m, n);
  }

  /** Every call that has saved its step is on disk under it. */
  lemma {:induction false} StepsStay(base: Directory, g: Group, j: nat, k: nat)
    requires g.posts != [] && k < j <= |g.posts|
    ensures StepKey(g.prefix, g.first + k) in Written(base, g, j)
    ensures Written(base, g, j)[StepKey(g.prefix, g.first + k)] == g.posts[k]
    decreases j
  {
    hide StepKey, PendingKey, Pending;
    if k < j - 1 {
      StepsStay(base, g, j - 1, k);
      if StepKey(g.prefix, g.first + k) == StepKey(g.prefix, g.first + j - 1) {
        StepKeysDiffer(g.prefix, g.first + k, g.first + j - 1);
        assert false;
      }
    }
  }

  ghost predicate OrderIs(host: Host, c: Checkpoint, turns: nat, calls: nat, step: nat, at: real) {
    OrderOf(host, c) == Some(Order(turns, calls, step as real, at)) && !IsTerminal(c)
  }

  /** Saved before the step: with fewer turns or requests counted, or at an earlier step. */
  predicate Earlier(o: Order, g: Group) {
    o.turns < g.turns || (o.turns == g.turns && (o.calls < g.calls || (o.calls == g.calls && o.step < g.first as real)))
  }

  /** The premises: counters stay put during the group, the clock does not go back during it, and
      what was saved before it counted less or stood at an earlier step. */
  ghost predicate GroupOf(host: Host, base: Directory, g: Group) {
    && g.posts != [] && |g.times| == |g.posts| && |g.tools| == |g.posts|
    && OrderIs(host, g.captured, g.turns, g.calls, g.Last(), g.at)
    && (forall i | 0 <= i < |g.posts| ::
          OrderIs(host, g.posts[i], g.turns, g.calls, g.first + i, g.times[i]) && g.at <= g.times[i]
          && VerdictOf(host, g.posts[i]) != UncertainToolEffect)
    && (forall k <- base :: OrderOf(host, base[k]).Some? && !IsTerminal(base[k])
          && Earlier(OrderOf(host, base[k]).value, g))
  }

  /** `stems` lists the directory in path order; files of other runs may be there too. */
  ghost predicate Lists(stems: seq<string>, d: Directory) {
    && (forall k <- d :: k in stems)
    && (forall i, j | 0 <= i < j < |stems| :: Before(stems[i] + ".json", stems[j] + ".json"))
  }

  function Sights(stems: seq<string>, d: Directory): seq<Sight> {
    seq(|stems|, i requires 0 <= i < |stems| => if stems[i] in d then Seen(d[stems[i]]) else Skip)
  }

  /** Every file but the two that matter is older than the pending one. */
  lemma {:induction false} OthersOlder(host: Host, base: Directory, g: Group, j: nat)
    requires GroupOf(host, base, g) && j <= |g.posts|
    ensures var d := Written(base, g, j);
            var pending, step := PendingKey(g.prefix, g.Last()), StepKey(g.prefix, g.Last());
            && pending in d && d[pending] == g.PendingSave()
            && (j == |g.posts| ==> step in d && d[step] == g.posts[j - 1])
            && forall k <- d :: OrderOf(host, d[k]).Some? && !IsTerminal(d[k]) &&
                 (Later(g.Cursor(g.at), OrderOf(host, d[k]).value)
                  || k == pending || (j == |g.posts| && k == step))
  {
    hide OrderOf, IsTerminal, VerdictOf, StepKey, PendingKey, Pending;
    PendingRefuses(host, g.captured, g.tools, g.dispatched);
    if j > 0 {
      OthersOlder(host, base, g, j - 1);
      KeysDiffer(g.prefix, g.first + j - 1, g.Last());
    }
  }

  lemma PendingChosen(host: Host, base: Directory, g: Group, j: nat, stems: seq<string>, pick: Option<nat>)
    requires GroupOf(host, base, g) && j < |g.posts| && Lists(stems, Written(base, g, j))
    requires FirstLatest(host, Sights(stems, Written(base, g, j)), false, |stems|, pick)
    ensures pick.Some? && pick.value < |stems| && stems[pick.value] == PendingKey(g.prefix, g.Last())
  {
    hide OrderOf, VerdictOf, StepKey, PendingKey, Before, Written, Pending;
    PendingRefuses(host, g.captured, g.tools, g.dispatched);
    var d, key := Written(base, g, j), PendingKey(g.prefix, g.Last());
    OthersOlder(host, base, g, j);
    var p := IndexOf(stems, d, key);
    forall i | 0 <= i < |stems| && i != p ensures stems[i] != key { ListsOnce(stems, d, i, p); }
    PickIs(host, Sights(stems, d), pick, p);
  }

  lemma LastStepChosen(host: Host, base: Directory, g: Group, stems: seq<string>, pick: Option<nat>)
    requires GroupOf(host, base, g) && Lists(stems, Written(base, g, |g.posts|))
    requires FirstLatest(host, Sights(stems, Written(base, g, |g.posts|)), false, |stems|, pick)
    ensures pick.Some? && pick.value < |stems| && stems[pick.value] == StepKey(g.prefix, g.Last())
  {
    hide OrderOf, VerdictOf, StepKey, PendingKey, Before, Written, Pending;
    PendingRefuses(host, g.captured, g.tools, g.dispatched);
    var d, key := Written(base, g, |g.posts|), StepKey(g.prefix, g.Last());
    OthersOlder(host, base, g, |g.posts|);
    var p := IndexOf(stems, d, PendingKey(g.prefix, g.Last()));
    var s := IndexOf(stems, d, key);
    StepGoesFirst(g.prefix, g.Last(), stems, d, s, p);
    forall i | 0 <= i < |stems| && i != p ensures stems[i] != stems[p] { ListsOnce(stems, d, i, p); }
    forall i | 0 <= i < |stems| && i != s ensures stems[i] != key { ListsOnce(stems, d, i, s); }
    NewerThanOlder(g.Cursor(g.at), g.Cursor(g.times[|g.posts| - 1]));
    PickIs(host, Sights(stems, d), pick, s);
  }

  /** At every crash point of the group the latest checkpoint is the pending one; once the last call
      has saved its step, it is that step. */
  lemma ScanDuringGroup(host: Host, base: Directory, g: Group, j: nat, stems: seq<string>, pick: Option<nat>)
    requires GroupOf(host, base, g) && j <= |g.posts| && Lists(stems, Written(base, g, j))
    requires FirstLatest(host, Sights(stems, Written(base, g, j)), false, |stems|, pick)
    ensures pick.Some? && pick.value < |stems|
    ensures stems[pick.value]
            == if j < |g.posts| then PendingKey(g.prefix, g.Last()) else StepKey(g.prefix, g.Last())
    ensures VerdictOf(host, Written(base, g, j)[stems[pick.value]]) == UncertainToolEffect <==> j < |g.posts|
  {
    OthersOlder(host, base, g, j);
    PendingRefuses(host, g.captured, g.tools, g.dispatched);
    hide OrderOf, VerdictOf, StepKey, PendingKey, Before, Written, FirstLatest, Lists, IsTerminal, Pending;
    if j < |g.posts| {
      PendingChosen(host, base, g, j, stems, pick);
    } else {
      LastStepChosen(host, base, g, stems, pick);
    }
  }

  lemma NewerThanOlder(a: Order, b: Order)
    requires b == a || Later(b, a)
    ensures forall c | Later(a, c) :: Later(b, c)
  {}

  lemma ListsOnce(stems: seq<string>, d: Directory, i: nat, j: nat)
    requires Lists(stems, d) && i < |stems| && j < |stems| && i != j
    ensures stems[i] != stems[j]
  {
    BeforeOneWay(stems[i] + ".json", stems[j] + ".json");
  }

  lemma IndexOf(stems: seq<string>, d: Directory, key: string) returns (i: nat)
    requires Lists(stems, d) && key in d
    ensures i < |stems| && stems[i] == key
  {
    assert key in stems;
    i :| 0 <= i < |stems| && stems[i] == key;
  }

  lemma StepGoesFirst(prefix: string, n: nat, stems: seq<string>, d: Directory, s: nat, p: nat)
    requires Lists(stems, d) && s < |stems| && p < |stems|
    requires stems[s] == StepKey(prefix, n) && stems[p] == PendingKey(prefix, n)
    ensures s < p
  {
    StepListedFirst(prefix, n);
    BeforeOneWay(stems[s] + ".json", stems[p] + ".json");
    KeysDiffer(prefix, n, n);
  }

  /** A checkpoint newer than all others, or equally new and listed first, is the pick. */
  lemma PickIs(host: Host, sights: seq<Sight>, pick: Option<nat>, w: nat)
    requires FirstLatest(host, sights, false, |sights|, pick)
    requires Candidate(sights, false, w) && OrderOf(host, sights[w].checkpoint).Some?
    requires forall i | 0 <= i < |sights| && i != w && Candidate(sights, false, i) ::
               var a, b := OrderOf(host, sights[w].checkpoint), OrderOf(host, sights[i].checkpoint);
               b.Some? && (Later(a.value, b.value) || (w < i && !Later(b.value, a.value)))
    ensures pick == Some(w)
  {
    hide OrderOf, IsTerminal;
  }

  // ---------- the whole resume call, on the files of the directory ----------

  function Stems(files: seq<File>): seq<string> {
    seq(|files|, i requires 0 <= i < |files| => files[i].stem)
  }

  /** The directory on disk, in path order: the run's checkpoints as saved, under the run's own
      names, and files of other runs, which the scan passes over. */
  ghost predicate OnDisk(src: Source, rank: map<Digest, nat>, runId: Option<string>, files: seq<File>, d: Directory)
    requires Good(src, rank)
  {
    && Lists(Stems(files), d)
    && (forall i | 0 <= i < |files| && files[i].stem in d ::
          && Saved(src, rank, files[i].content, d[files[i].stem])
          && RunId(src.host, d[files[i].stem]) == runId
          && (runId.Some? ==> runId.value + "__" <= files[i].stem))
    && (forall i | 0 <= i < |files| && files[i].stem !in d :: Look(src, rank, runId, files[i], false).Skip?)
  }

  lemma LooksAreSights(src: Source, rank: map<Digest, nat>, runId: Option<string>, files: seq<File>, d: Directory)
    requires Good(src, rank) && OnDisk(src, rank, runId, files, d)
    ensures Looks(src, rank, runId, files, false) == Sights(Stems(files), d)
    ensures OwnNames(runId, files, Sights(Stems(files), d))
  {
    hide ReadFile, Intact, RunId, Lists;
    var looks, sights := Looks(src, rank, runId, files, false), Sights(Stems(files), d);
    forall i | 0 <= i < |files| ensures looks[i] == sights[i] {
      if files[i].stem in d { assert Saved(src, rank, files[i].content, d[files[i].stem]); }
    }
  }

  /** Running checkpoints with proper cursors give a scan no reason to fail. */
  lemma ScanGoesThrough(host: Host, runId: Option<string>, files: seq<File>, d: Directory)
    requires OwnNames(runId, files, Sights(Stems(files), d))
    requires forall k <- d :: OrderOf(host, d[k]).Some? && !IsTerminal(d[k])
    ensures var sights := Sights(Stems(files), d);
            var scan := ScanAll(host, runId, files, sights, |files|);
            scan.Scanned? && scan.terminal.None? && FirstLatest(host, sights, false, |files|, scan.best)
  {
    hide OrderOf, IsTerminal, OwnNames, ScanAll, Later;
    var sights, n := Sights(Stems(files), d), |files|;
    ScanIsFirstLatest(host, runId, files, sights, n);
    assert forall i | 0 <= i < n :: !Candidate(sights, true, i);
    assert !Hopeless(host, sights, n);
  }

  /** At every crash point of the group, resuming reads the pending checkpoint, which refuses to go on
      because the effects of tools are unknown; once the last call has saved its step, resuming reads
      that step, and is not refused for tool effects. */
  lemma CrashDuringGroup(src: Source, rank: map<Digest, nat>, runId: Option<string>, base: Directory, g: Group, j: nat,
                         files: seq<File>)
    requires Good(src, rank) && GroupOf(src.host, base, g) && j <= |g.posts|
    requires OnDisk(src, rank, runId, files, Written(base, g, j))
    ensures var d := Written(base, g, j);
            var key := if j < |g.posts| then PendingKey(g.prefix, g.Last()) else StepKey(g.prefix, g.Last());
            var scan := ScanAll(src.host, runId, files, Looks(src, rank, runId, files, true), |files|);
            && key in d && Conclude(src, rank, files, scan) == Resume(d[key])
            && (VerdictOf(src.host, d[key]) == UncertainToolEffect <==> j < |g.posts|)
  {
    hide VerdictOf, StepKey, PendingKey, Written, OrderOf, IsTerminal, Pending, ReadFile, Look, ScanAll, Intact, RunId,
         Lists, FirstLatest;
    var d := Written(base, g, j);
    OthersOlder(src.host, base, g, j);
    hide GroupOf;
    LooksAreSights(src, rank, runId, files, d);
    ScanGoesThrough(src.host, runId, files, d);
    var looks := Looks(src, rank, runId, files, false);
    var scan := ScanAll(src.host, runId, files, looks, |files|);
    SummaryScanSelectsSame(src, rank, runId, files);
    ScanDuringGroup(src.host, base, g, j, Stems(files), scan.best);
    hide Looks;
    var i := scan.best.value;
    assert files[i].stem in d && Saved(src, rank, files[i].content, d[files[i].stem]);
    assert ReadFile(src, rank, files[i].content, false) == Some(d[files[i].stem]);
  }
}
