/** Crash safety of model requests, over every run with any number of crashes and resumes.

  A process counts a request and marks it pending, saves that, sends it, and acknowledges it.
  Saves of other kinds, turns, failures and crashes may come in between at any point.  A crash
  loses the process and keeps the files, which are whole checkpoints: whatever the host saves, with
  the turn state of the process in it.  A resume reads the latest file and goes on from it only when
  its verdict allows it.  Every save is one atomic step. */
module AdmissionProtocol {
  import opened ChunkTree
  import opened Documents
  import opened CheckpointFiles
  import opened CheckpointFields
  import opened TurnState
  import opened ResumeSelection
  import opened Admission

  /** How far an admitted request has come. */
  datatype Phase = Entered | Durable | Started

  /** What a resume reads of a file. */
  datatype Snapshot = Snapshot(order: Order, cap: Option<nat>, verdict: Verdict, terminal: bool)

  datatype Process = Process(turns: Turns, turn: nat, phases: map<nat, Phase>)

  type Files = map<string, Checkpoint>

  datatype World = World(files: Files, process: Option<Process>, sent: seq<nat>, acknowledged: set<nat>)

  /** The host, the run's name, and the largest ceiling it was started with. */
  datatype Setting = Setting(host: Host, run: string, limit: nat)

  /** `base` is the checkpoint the host saves at that moment, but for the turn state. */
  datatype Action =
    | BeginTurn
    | Admit(now: Conditions, allowInflight: bool)
    | AdmissionSaved(n: nat, base: Checkpoint)
    | AdmissionNotSaved(n: nat, landed: bool, base: Checkpoint)
    | Send(n: nat)
    | Finish(n: nat)
    | SaveOther(key: string, base: Checkpoint)
    | Crash
    | Restart(cap: nat)
    | ResumeFrom(key: string, configured: Option<nat>)

  function Read(host: Host, c: Checkpoint): Snapshot {
    Snapshot(OrderOf(host, c).GetOr(Order(0, 0, 0.0, 0.0)), SavedCap(host, c), VerdictOf(host, c), IsTerminal(c))
  }

  /** What a save made now writes.  No process here started with a marker that it found. */
  function Capture(s: Setting, p: Process, base: Checkpoint): Checkpoint {
    Captured(s.run, base, p.turn, p.turns, JAtom(Null))
  }

  function Write(s: Setting, w: World, key: string, p: Process, base: Checkpoint): World {
    w.(files := w.files[key := Capture(s, p, base)])
  }

  /** The file a resume selects: no run that has ended, and none later. */
  ghost predicate Selected(host: Host, files: Files, key: string) {
    && key in files
    && forall k <- files ::
         !Read(host, files[k]).terminal && !Later(Read(host, files[k]).order, Read(host, files[key]).order)
  }

  /** One action of the live process. */
  function Act(s: Setting, w: World, p: Process, a: Action): World {
    match a
    case BeginTurn => w.(process := Some(p.(turn := p.turn + 1)))
    case Admit(now, allowInflight) =>
      if Check(p.turns, now, allowInflight).Some? then w
      else
        var t := Enter(p.turns, p.turn, allowInflight);
        w.(process := Some(p.(turns := t, phases := p.phases[t.modelCalls := Entered])))
    case AdmissionSaved(n, base) =>
      if n !in p.phases || p.phases[n] != Entered then w
      else Write(s, w, "model_turn", p, base).(process := Some(p.(phases := p.phases[n := Durable])))
    case AdmissionNotSaved(n, landed, base) =>
      if n !in p.phases || p.phases[n] != Entered then w
      else
        var w' := if landed then Write(s, w, "model_turn", p, base) else w;
        w'.(process := Some(p.(turns := Abandon(p.turns, n), phases := p.phases - {n})))
    case Send(n) =>
      if n !in p.phases || p.phases[n] != Durable then w
      else w.(process := Some(p.(phases := p.phases[n := Started])), sent := w.sent + [n])
    case Finish(n) =>
      if n !in p.phases || p.phases[n] == Entered then w
      else w.(process := Some(p.(turns := Acknowledge(p.turns, n), phases := p.phases - {n})),
              acknowledged := w.acknowledged + {n})
    case SaveOther(key, base) => Write(s, w, key, p, base)
    case _ => w
  }

  /** The process that goes on from a file; None where the file, or the configuration, refuses. */
  function Resumed(host: Host, c: Checkpoint, configured: Option<nat>): Option<Process> {
    var f := Read(host, c);
    if f.verdict != Resumable || f.cap.None? || ResumedCap(f.cap.value, configured).None? then None
    else Some(Process(Restored(f.order.calls, ResumedCap(f.cap.value, configured), false), f.order.turns, map[]))
  }

  /** One step; what is not enabled changes nothing. */
  ghost function Next(s: Setting, w: World, a: Action): World {
    if w.process.Some? then
      if a.Crash? then w.(process := None) else Act(s, w, w.process.value, a)
    else
      match a
      case Restart(cap) =>
        if w.files != map[] || cap > s.limit then w
        else w.(process := Some(Process(Restored(0, Some(cap), false), 0, map[])))
      case ResumeFrom(key, configured) =>
        if !Selected(s.host, w.files, key) then w
        else w.(process := Resumed(s.host, w.files[key], configured))
      case _ => w
  }

  ghost function Run(s: Setting, actions: seq<Action>): World {
    if actions == [] then World(map[], None, [], {})
    else Next(s, Run(s, actions[..|actions| - 1]), actions[|actions| - 1])
  }

  // ---------- the invariant ----------

  /** The file counts n requests, or more. */
  ghost predicate Counts(host: Host, c: Checkpoint, n: nat) {
    n <= Read(host, c).order.calls
  }

  /** A resume that reads the file refuses to go on. */
  ghost predicate Refuses(host: Host, c: Checkpoint) {
    Read(host, c).verdict != Resumable
  }

  /** Some file counts request n. */
  ghost predicate Counted(host: Host, files: Files, n: nat) {
    exists k <- files :: Counts(host, files[k], n)
  }

  /** Every file that counts request n refuses. */
  ghost predicate Flagged(host: Host, files: Files, n: nat) {
    forall k <- files :: Counts(host, files[k], n) ==> Refuses(host, files[k])
  }

  ghost predicate FileOk(s: Setting, c: Checkpoint) {
    var f := Read(s.host, c);
    OrderOf(s.host, c).Some? && f.cap.Some? && f.cap.value <= s.limit && f.order.calls <= s.limit
  }

  ghost predicate FilesOk(s: Setting, files: Files) {
    && (forall k <- files :: FileOk(s, files[k]))
    && (forall j, k | j in files && k in files :: InLine(Read(s.host, files[j]).order, Read(s.host, files[k]).order))
  }

  /** Requests are counted inside turns: who counts fewer requests counts no more turns. */
  predicate InLine(a: Order, b: Order) {
    a.calls < b.calls ==> a.turns <= b.turns
  }

  ghost predicate SentOk(s: Setting, w: World) {
    && (forall i, j | 0 <= i < j < |w.sent| :: w.sent[i] != w.sent[j])
    && (forall n | n in w.sent ::
          1 <= n <= s.limit && Counted(s.host, w.files, n) && (n in w.acknowledged || Flagged(s.host, w.files, n)))
  }

  ghost predicate ProcessOk(s: Setting, w: World, p: Process) {
    && Numbered(p.turns) && p.turns.marker == MarkerOf(p.turns.pending)
    && p.turns.cap.Some? && p.turns.cap.value <= s.limit && p.turns.modelCalls <= s.limit
    && (forall k <- w.files :: Behind(Read(s.host, w.files[k]).order, p))
    && (forall n | n in w.sent :: n <= p.turns.modelCalls && (n in w.acknowledged || n in p.phases))
    && (forall n <- p.phases :: PhaseOk(s, w, p, n))
  }

  predicate Behind(o: Order, p: Process) {
    o.turns <= p.turn && o.calls <= p.turns.modelCalls
  }

  ghost predicate PhaseOk(s: Setting, w: World, p: Process, n: nat)
    requires n in p.phases
  {
    && 1 <= n <= p.turns.modelCalls && n in Numbers(p.turns.pending) && Flagged(s.host, w.files, n)
    && (p.phases[n].Entered? || Counted(s.host, w.files, n))
    && (p.phases[n].Started? || n !in w.sent)
  }

  ghost predicate Inv(s: Setting, w: World) {
    && ReadsDigits(s.host) && FilesOk(s, w.files) && SentOk(s, w)
    && (w.process.Some? ==> ProcessOk(s, w, w.process.value))
  }

  /** What a save writes is read as the process stands, and refuses while a request is open. */
  lemma CaptureReads(s: Setting, p: Process, base: Checkpoint)
    requires ReadsDigits(s.host) && p.turns.marker == MarkerOf(p.turns.pending)
    ensures var c, f := Capture(s, p, base), Read(s.host, Capture(s, p, base));
            && OrderOf(s.host, c) == Some(f.order)
            && f.order == Order(p.turn, p.turns.modelCalls, s.host.value(base.step), s.host.value(base.createdAt))
            && f.cap == p.turns.cap && f.terminal == IsTerminal(base)
            && (Refuses(s.host, c) <==> p.turns.pending != [] || Present(s.host, base.metadata, "pending_calls"))
  {
    SavedReads(s.host, s.run, base, p.turn, p.turns, JAtom(Null));
    hide Captured, OrderOf, SavedCap, VerdictOf, IsTerminal, Present, ReadsDigits;
  }

  /** A save made now counts everything and refuses for everything open. */
  lemma WriteKeepsInv(s: Setting, w: World, p: Process, key: string, base: Checkpoint)
    requires Inv(s, w) && w.process == Some(p)
    ensures var w' := Write(s, w, key, p, base);
            && Inv(s, w') && forall n: nat | n <= p.turns.modelCalls :: Counted(s.host, w'.files, n)
  {
    hide Capture, Read, OrderOf, MarkerOf, Numbers, ReadsDigits, Numbered, PhaseOk, FilesOk, Counted, Flagged;
    var w' := Write(s, w, key, p, base);
    WriteKeepsFiles(s, w, p, key, base);
    WriteStaysBehind(s, w, p, key, base);
    WriteCounts(s, w, p, key, base);
    forall n | n in w.sent ensures n in w.acknowledged || Flagged(s.host, w'.files, n) {
      if n !in w.acknowledged { OpenRefuses(s, w, p, n, key, base); }
    }
    forall n <- p.phases ensures PhaseOk(s, w', p, n) { WriteKeepsPhase(s, w, p, n, key, base); }
  }

  lemma WriteKeepsFiles(s: Setting, w: World, p: Process, key: string, base: Checkpoint)
    requires ReadsDigits(s.host) && FilesOk(s, w.files) && p.turns.marker == MarkerOf(p.turns.pending)
    requires p.turns.cap.Some? && p.turns.cap.value <= s.limit && p.turns.modelCalls <= s.limit
    requires forall k <- w.files :: Behind(Read(s.host, w.files[k]).order, p)
    ensures FilesOk(s, Write(s, w, key, p, base).files)
  {
    CaptureReads(s, p, base);
    CaptureIsOk(s, p, base);
    StayInLine(s.host, w.files, key, Capture(s, p, base), p);
    hide Capture, Read, OrderOf, MarkerOf, ReadsDigits, InLine, Refuses, FileOk;
  }

  lemma StayInLine(host: Host, files: Files, key: string, c: Checkpoint, p: Process)
    requires forall j, k | j in files && k in files :: InLine(Read(host, files[j]).order, Read(host, files[k]).order)
    requires forall k <- files :: Behind(Read(host, files[k]).order, p)
    requires Read(host, c).order.turns == p.turn && Read(host, c).order.calls == p.turns.modelCalls
    ensures var more := files[key := c];
            forall j, k | j in more && k in more :: InLine(Read(host, more[j]).order, Read(host, more[k]).order)
  {
    hide Read, InLine, Behind;
    var more := files[key := c];
    forall j, k | j in more && k in more ensures InLine(Read(host, more[j]).order, Read(host, more[k]).order) {
      LastIsInLine(p, Read(host, more[j]).order, Read(host, c).order);
      LastIsInLine(p, Read(host, more[k]).order, Read(host, c).order);
    }
  }

  lemma CaptureIsOk(s: Setting, p: Process, base: Checkpoint)
    requires ReadsDigits(s.host) && p.turns.marker == MarkerOf(p.turns.pending)
    requires p.turns.cap.Some? && p.turns.cap.value <= s.limit && p.turns.modelCalls <= s.limit
    ensures FileOk(s, Capture(s, p, base))
  {
    CaptureReads(s, p, base);
    hide Capture, Read, OrderOf, MarkerOf, ReadsDigits, Refuses;
  }

  /** What a process saves counts at least what lies behind it. */
  lemma LastIsInLine(p: Process, o: Order, last: Order)
    requires last.turns == p.turn && last.calls == p.turns.modelCalls
    ensures Behind(o, p) ==> InLine(o, last) && InLine(last, o)
    ensures InLine(last, last)
  {}

  lemma WriteStaysBehind(s: Setting, w: World, p: Process, key: string, base: Checkpoint)
    requires ReadsDigits(s.host) && ProcessOk(s, w, p)
    ensures forall k <- Write(s, w, key, p, base).files ::
              Behind(Read(s.host, Write(s, w, key, p, base).files[k]).order, p)
  {
    CaptureReads(s, p, base);
    hide Capture, Read, OrderOf, MarkerOf, Numbers, ReadsDigits, Numbered, PhaseOk;
  }

  lemma WriteCounts(s: Setting, w: World, p: Process, key: string, base: Checkpoint)
    requires ReadsDigits(s.host) && ProcessOk(s, w, p)
    ensures forall n: nat | n <= p.turns.modelCalls :: Counted(s.host, Write(s, w, key, p, base).files, n)
  {
    CaptureReads(s, p, base);
    hide Capture, Read, OrderOf, MarkerOf, Numbers, ReadsDigits, Numbered, PhaseOk, ProcessOk;
    var w' := Write(s, w, key, p, base);
    assert key in w'.files;
    forall n: nat | n <= p.turns.modelCalls ensures Counted(s.host, w'.files, n) {
      assert Counts(s.host, w'.files[key], n);
    }
  }

  lemma WriteKeepsPhase(s: Setting, w: World, p: Process, n: nat, key: string, base: Checkpoint)
    requires ReadsDigits(s.host) && ProcessOk(s, w, p) && n in p.phases
    ensures PhaseOk(s, Write(s, w, key, p, base), p, n)
  {
    hide Capture, Read, OrderOf, MarkerOf, Numbers, ReadsDigits, Numbered, Counted, Flagged;
    assert PhaseOk(s, w, p, n);
    WriteCounts(s, w, p, key, base);
    OpenRefuses(s, w, p, n, key, base);
  }

  /** A request on its way stays flagged by whatever the process saves. */
  lemma OpenRefuses(s: Setting, w: World, p: Process, n: nat, key: string, base: Checkpoint)
    requires ReadsDigits(s.host) && p.turns.marker == MarkerOf(p.turns.pending)
    requires n in p.phases && PhaseOk(s, w, p, n)
    ensures Flagged(s.host, Write(s, w, key, p, base).files, n)
  {
    CaptureReads(s, p, base);
    NoNumbers(p.turns.pending);
    hide Capture, Read, OrderOf, MarkerOf, Numbers, ReadsDigits;
  }

  lemma NoNumbers(calls: seq<Call>)
    ensures calls == [] ==> Numbers(calls) == {}
  {}

  lemma FreshIsFlagged(s: Setting, w: World, p: Process, n: nat)
    requires p.turns.modelCalls < n && forall k <- w.files :: Behind(Read(s.host, w.files[k]).order, p)
    ensures Flagged(s.host, w.files, n)
  {
    hide Read;
  }

  lemma AdmitKeepsInv(s: Setting, w: World, p: Process, now: Conditions, allowInflight: bool)
    requires Inv(s, w) && w.process == Some(p) && Check(p.turns, now, allowInflight).None?
    requires p.turns.modelCalls < s.limit
    ensures Inv(s, Act(s, w, p, Admit(now, allowInflight)))
  {
    hide Counted, Flagged, Numbers, Check, Read, Captured, FilesOk, ReadsDigits;
    FreshIsFlagged(s, w, p, p.turns.modelCalls + 1);
    var t := Enter(p.turns, p.turn, allowInflight);
    NumbersSnoc(p.turns.pending, Call(p.turn, t.modelCalls));
    var w' := Act(s, w, p, Admit(now, allowInflight));
    forall n <- w'.process.value.phases ensures PhaseOk(s, w', w'.process.value, n) {
      if n != t.modelCalls { assert PhaseOk(s, w, p, n); }
    }
  }

  lemma FinishKeepsInv(s: Setting, w: World, p: Process, n: nat)
    requires Inv(s, w) && w.process == Some(p) && n in p.phases && !p.phases[n].Entered?
    ensures Inv(s, Act(s, w, p, Finish(n)))
  {
    hide Without, Numbers, Flagged, Counted, MarkerOf, Read, FilesOk, ReadsDigits;
    NumbersWithout(p.turns.pending, n);
    WithoutKeeps(p.turns.pending, n);
    var rest, w' := Without(p.turns.pending, n), Act(s, w, p, Finish(n));
    forall i | 0 <= i < |rest| ensures rest[i].number <= p.turns.modelCalls { assert rest[i] in rest; }
    forall m <- w'.process.value.phases ensures PhaseOk(s, w', w'.process.value, m) {
      assert PhaseOk(s, w, p, m);
    }
  }

  lemma SendKeepsInv(s: Setting, w: World, p: Process, n: nat)
    requires Inv(s, w) && w.process == Some(p) && n in p.phases && p.phases[n].Durable?
    ensures Inv(s, Act(s, w, p, Send(n)))
  {
    hide Flagged, Counted, MarkerOf, Numbers, Read, FilesOk, ReadsDigits;
    var w' := Act(s, w, p, Send(n));
    assert PhaseOk(s, w, p, n);
    forall m <- w'.process.value.phases ensures PhaseOk(s, w', w'.process.value, m) {
      assert PhaseOk(s, w, p, m);
    }
  }

  /** The selected file counts at least what any file counts. */
  lemma SelectedCountsAll(s: Setting, files: Files, key: string)
    requires FilesOk(s, files) && Selected(s.host, files, key)
    ensures forall k <- files :: Read(s.host, files[k]).order.calls <= Read(s.host, files[key]).order.calls
                                 && Read(s.host, files[k]).order.turns <= Read(s.host, files[key]).order.turns
  {
    hide Read;
    forall k <- files
      ensures Read(s.host, files[k]).order.calls <= Read(s.host, files[key]).order.calls
              && Read(s.host, files[k]).order.turns <= Read(s.host, files[key]).order.turns
    {
      assert InLine(Read(s.host, files[key]).order, Read(s.host, files[k]).order);
      assert !Later(Read(s.host, files[k]).order, Read(s.host, files[key]).order);
    }
  }

  lemma ResumeKeepsInv(s: Setting, w: World, key: string, configured: Option<nat>)
    requires Inv(s, w) && w.process.None?
    ensures Inv(s, Next(s, w, ResumeFrom(key, configured)))
  {
    hide Read, Counted, Flagged, Numbers, Later, ReadsDigits;
    if Selected(s.host, w.files, key) && Resumed(s.host, w.files[key], configured).Some? {
      SelectedCountsAll(s, w.files, key);
      SelectedIsFree(s, w, key);
      assert FileOk(s, w.files[key]);
      NoNumbers([]);
    }
  }

  /** When the selected file may be gone on from, every request that was sent has been acknowledged. */
  lemma SelectedIsFree(s: Setting, w: World, key: string)
    requires FilesOk(s, w.files) && SentOk(s, w) && Selected(s.host, w.files, key)
    requires !Refuses(s.host, w.files[key])
    ensures forall n | n in w.sent :: n <= Read(s.host, w.files[key]).order.calls && n in w.acknowledged
  {
    hide Read, Later;
    SelectedCountsAll(s, w.files, key);
    forall n | n in w.sent ensures n <= Read(s.host, w.files[key]).order.calls && n in w.acknowledged {
      assert Counted(s.host, w.files, n);
      var k :| k in w.files && Counts(s.host, w.files[k], n);
      assert Counts(s.host, w.files[key], n);
    }
  }

  lemma NotSavedKeepsInv(s: Setting, w: World, p: Process, n: nat)
    requires Inv(s, w) && w.process == Some(p) && n in p.phases && p.phases[n].Entered?
    ensures Inv(s, w.(process := Some(p.(turns := Abandon(p.turns, n), phases := p.phases - {n}))))
  {
    hide Flagged, Counted, MarkerOf, Numbers, Read, FilesOk, ReadsDigits;
    var p' := p.(turns := Abandon(p.turns, n), phases := p.phases - {n});
    forall m <- p'.phases ensures PhaseOk(s, w, p', m) { assert PhaseOk(s, w, p, m); }
    assert PhaseOk(s, w, p, n);
  }

  lemma SavedKeepsInv(s: Setting, w: World, p: Process, n: nat)
    requires Inv(s, w) && w.process == Some(p) && n in p.phases && Counted(s.host, w.files, n)
    requires p.phases[n].Entered?
    ensures Inv(s, w.(process := Some(p.(phases := p.phases[n := Durable]))))
  {
    hide Flagged, Counted, MarkerOf, Numbers, Read, FilesOk, ReadsDigits;
    var p' := p.(phases := p.phases[n := Durable]);
    forall m <- p'.phases ensures PhaseOk(s, w, p', m) { assert PhaseOk(s, w, p, m); }
  }

  lemma NextKeepsInv(s: Setting, w: World, a: Action)
    requires Inv(s, w)
    ensures Inv(s, Next(s, w, a))
  {
    hide Act, Read, Resumed, Selected, Counted, Flagged, ReadsDigits;
    if w.process.None? {
      if a.ResumeFrom? { ResumeKeepsInv(s, w, a.key, a.configured); }
      if a.Restart? && w.files == map[] && a.cap <= s.limit { RestartKeepsInv(s, w, a.cap); }
    } else if !a.Crash? {
      ActKeepsInv(s, w, w.process.value, a);
    }
  }

  lemma RestartKeepsInv(s: Setting, w: World, cap: nat)
    requires Inv(s, w) && w.files == map[] && cap <= s.limit
    ensures Inv(s, w.(process := Some(Process(Restored(0, Some(cap), false), 0, map[]))))
  {
    hide Read, Flagged, ReadsDigits;
    forall n ensures n !in w.sent { NothingCounted(s.host, n); }
  }

  lemma NothingCounted(host: Host, n: nat)
    ensures !Counted(host, map[], n)
  {}

  /** What is admitted is below the limit, and what is under way is counted. */
  lemma BelowLimit(s: Setting, w: World, p: Process, now: Conditions, allowInflight: bool)
    requires Inv(s, w) && w.process == Some(p)
    ensures Check(p.turns, now, allowInflight).None? ==> p.turns.modelCalls < s.limit
    ensures forall n <- p.phases :: n <= p.turns.modelCalls
  {
    hide FilesOk, SentOk, Flagged, Counted, MarkerOf, Numbers, Read, ReadsDigits;
    forall n <- p.phases ensures n <= p.turns.modelCalls { assert PhaseOk(s, w, p, n); }
  }

  lemma ActKeepsInv(s: Setting, w: World, p: Process, a: Action)
    requires Inv(s, w) && w.process == Some(p)
    ensures Inv(s, Act(s, w, p, a))
  {
    hide Inv, Check, Counted, Capture, Read;
    BelowLimit(s, w, p, Conditions(false, false), false);
    match a
    case Admit(now, allowInflight) =>
      BelowLimit(s, w, p, now, allowInflight);
      if Check(p.turns, now, allowInflight).None? { AdmitKeepsInv(s, w, p, now, allowInflight); }
    case AdmissionSaved(n, base) =>
      if n in p.phases && p.phases[n].Entered? {
        WriteKeepsInv(s, w, p, "model_turn", base);
        SavedKeepsInv(s, Write(s, w, "model_turn", p, base), p, n);
      }
    case AdmissionNotSaved(n, landed, base) =>
      if n in p.phases && p.phases[n].Entered? {
        WriteKeepsInv(s, w, p, "model_turn", base);
        NotSavedKeepsInv(s, if landed then Write(s, w, "model_turn", p, base) else w, p, n);
      }
    case Send(n) => if n in p.phases && p.phases[n].Durable? { SendKeepsInv(s, w, p, n); }
    case Finish(n) => if n in p.phases && !p.phases[n].Entered? { FinishKeepsInv(s, w, p, n); }
    case SaveOther(key, base) => WriteKeepsInv(s, w, p, key, base);
    case BeginTurn => TurnKeepsInv(s, w, p);
    case _ =>
  }

  lemma TurnKeepsInv(s: Setting, w: World, p: Process)
    requires Inv(s, w) && w.process == Some(p)
    ensures Inv(s, Act(s, w, p, BeginTurn))
  {
    hide Flagged, Counted, MarkerOf, Numbers, Read, FilesOk, ReadsDigits;
    var p' := p.(turn := p.turn + 1);
    forall m <- p'.phases ensures PhaseOk(s, Act(s, w, p, BeginTurn), p', m) { assert PhaseOk(s, w, p, m); }
  }

  lemma {:induction false} RunKeepsInv(s: Setting, actions: seq<Action>)
    requires ReadsDigits(s.host)
    ensures Inv(s, Run(s, actions))
  {
    hide Next, Read, ReadsDigits;
    if actions != [] {
      RunKeepsInv(s, actions[..|actions| - 1]);
      NextKeepsInv(s, Run(s, actions[..|actions| - 1]), actions[|actions| - 1]);
    }
  }

  // ---------- the promises ----------

  /** Nothing is sent before a durable checkpoint counts it and refuses to be gone on from, and at that
      moment whatever file a resume selects refuses. */
  lemma SentOnlyWhenDurable(s: Setting, actions: seq<Action>, n: nat)
    requires ReadsDigits(s.host)
    requires var w := Run(s, actions);
             w.process.Some? && Next(s, w, Send(n)) != w
    ensures var w := Run(s, actions);
            && n !in w.sent
            && (exists k <- w.files :: DurablyCounts(s.host, w.files[k], n))
            && (forall key | Selected(s.host, w.files, key) :: VerdictOf(s.host, w.files[key]) != Resumable)
  {
    RunKeepsInv(s, actions);
    var w := Run(s, actions);
    hide Run, Selected, ReadsDigits, Numbers, MarkerOf, Read, Numbered, SentOk;
    assert PhaseOk(s, w, w.process.value, n);
    OpenIsRefused(s, w, n);
    var k :| k in w.files && Counts(s.host, w.files[k], n);
    assert FileOk(s, w.files[k]);
    CountsDurably(s, w.files[k], n);
  }

  /** The file counts request n, and refuses to be gone on from. */
  predicate DurablyCounts(host: Host, c: Checkpoint, n: nat) {
    VerdictOf(host, c) != Resumable && OrderOf(host, c).Some? && n <= OrderOf(host, c).value.calls
  }

  lemma CountsDurably(s: Setting, c: Checkpoint, n: nat)
    requires FileOk(s, c) && Counts(s.host, c, n) && Refuses(s.host, c)
    ensures DurablyCounts(s.host, c, n)
  {}

  lemma OpenIsRefused(s: Setting, w: World, n: nat)
    requires FilesOk(s, w.files) && Counted(s.host, w.files, n) && Flagged(s.host, w.files, n)
    ensures forall key | Selected(s.host, w.files, key) :: VerdictOf(s.host, w.files[key]) != Resumable
  {
    hide OrderOf, VerdictOf, SavedCap, IsTerminal;
    forall key | Selected(s.host, w.files, key) ensures VerdictOf(s.host, w.files[key]) != Resumable {
      SelectedCountsAll(s, w.files, key);
      var k :| k in w.files && Counts(s.host, w.files[k], n);
      assert Counts(s.host, w.files[key], n);
    }
  }

  /** A request that may have started and was never acknowledged is never silently sent again:
      as long as it is open, the file a resume would select refuses. */
  lemma OpenRequestBlocksResume(s: Setting, actions: seq<Action>, n: nat, key: string)
    requires ReadsDigits(s.host)
    requires var w := Run(s, actions);
             n in w.sent && n !in w.acknowledged && Selected(s.host, w.files, key)
    ensures VerdictOf(s.host, Run(s, actions).files[key]) != Resumable
  {
    RunKeepsInv(s, actions);
    OpenIsRefused(s, Run(s, actions), n);
  }

  /** A resume goes on from the selected file if and only if its verdict allows it and the configuration does
      not raise its ceiling; then it counts what the file counts, every request that was ever sent among
      it, and nothing is pending. */
  lemma ResumesIff(s: Setting, actions: seq<Action>, key: string, configured: Option<nat>)
    requires ReadsDigits(s.host)
    requires var w := Run(s, actions); w.process.None? && Selected(s.host, w.files, key)
    ensures var w := Run(s, actions);
            var c, w' := w.files[key], Next(s, w, ResumeFrom(key, configured));
            && SavedCap(s.host, c).Some?
            && (w'.process.Some? <==> VerdictOf(s.host, c) == Resumable
                                      && (configured.Some? ==> configured.value <= SavedCap(s.host, c).value))
            && (w'.process.Some? ==>
                  var t := w'.process.value.turns;
                  && t.pending == [] && t.marker.None?
                  && t.cap == (if configured.Some? then configured else SavedCap(s.host, c))
                  && OrderOf(s.host, c).Some? && t.modelCalls == OrderOf(s.host, c).value.calls
                  && w'.process.value.turn == OrderOf(s.host, c).value.turns
                  && forall n | n in w.sent :: n <= t.modelCalls && n in w.acknowledged)
  {
    RunKeepsInv(s, actions);
    var w := Run(s, actions);
    SelectedIsOk(s, w, key);
    hide Run, Selected, OrderOf, SavedCap, VerdictOf, IsTerminal, Inv;
  }

  lemma SelectedIsOk(s: Setting, w: World, key: string)
    requires Inv(s, w) && Selected(s.host, w.files, key)
    ensures SavedCap(s.host, w.files[key]).Some? && OrderOf(s.host, w.files[key]).Some?
    ensures VerdictOf(s.host, w.files[key]) == Resumable ==>
              forall n | n in w.sent :: n <= OrderOf(s.host, w.files[key]).value.calls && n in w.acknowledged
  {
    assert key in w.files && FileOk(s, w.files[key]);
    hide Selected, OrderOf, SavedCap, VerdictOf, IsTerminal, ReadsDigits, ProcessOk;
    if VerdictOf(s.host, w.files[key]) == Resumable { SelectedIsFree(s, w, key); }
  }

  lemma RunSnoc(s: Setting, actions: seq<Action>, a: Action)
    ensures Run(s, actions + [a]) == Next(s, Run(s, actions), a)
  {
    assert (actions + [a])[..|actions|] == actions;
  }

  lemma RunFour(s: Setting, actions: seq<Action>, a: Action, b: Action, c: Action, d: Action)
    ensures Run(s, actions + [a] + [b] + [c] + [d]) == Next(s, Next(s, Next(s, Next(s, Run(s, actions), a), b), c), d)
  {
    hide Run, Next;
    RunSnoc(s, actions, a);
    RunSnoc(s, actions + [a], b);
    RunSnoc(s, actions + [a] + [b], c);
    RunSnoc(s, actions + [a] + [b] + [c], d);
  }

  /** A finished request is gone, and no other; what is saved from then on may be gone on from exactly when
      no other is open, unless tool effects are unknown. */
  lemma FinishedIsGone(s: Setting, actions: seq<Action>, n: nat, base: Checkpoint)
    requires ReadsDigits(s.host) && !Present(s.host, base.metadata, "pending_calls")
    requires var w := Run(s, actions);
             w.process.Some? && n in w.process.value.phases && !w.process.value.phases[n].Entered?
    ensures var w, w' := Run(s, actions), Run(s, actions + [Finish(n)]);
            && w'.process.Some? && n in w'.acknowledged
            && (forall c :: c in w'.process.value.turns.pending <==>
                  c in w.process.value.turns.pending && c.number != n)
            && (VerdictOf(s.host, Capture(s, w'.process.value, base)) == Resumable <==>
                  forall c | c in w.process.value.turns.pending :: c.number == n)
  {
    RunKeepsInv(s, actions);
    RunSnoc(s, actions, Finish(n));
    RunKeepsInv(s, actions + [Finish(n)]);
    var w, w' := Run(s, actions), Run(s, actions + [Finish(n)]);
    FinishLeaves(s, w, w.process.value, n);
    MarkerFollows(s, w', w'.process.value);
    SavedIffFree(s, w'.process.value, base);
    hide *;
    var pending := w'.process.value.turns.pending;
    assert pending == [] || pending[0] in pending;
  }

  lemma FinishLeaves(s: Setting, w: World, p: Process, n: nat)
    requires w.process == Some(p) && n in p.phases && !p.phases[n].Entered?
    ensures var w' := Next(s, w, Finish(n));
            && w'.process.Some? && n in w'.acknowledged
            && forall c :: c in w'.process.value.turns.pending <==> c in p.turns.pending && c.number != n
  {
    WithoutKeeps(p.turns.pending, n);
    hide Without, MarkerOf;
  }

  lemma SavedIffFree(s: Setting, p: Process, base: Checkpoint)
    requires ReadsDigits(s.host) && p.turns.marker == MarkerOf(p.turns.pending)
    requires !Present(s.host, base.metadata, "pending_calls")
    ensures VerdictOf(s.host, Capture(s, p, base)) == Resumable <==> p.turns.pending == []
  {
    CaptureReads(s, p, base);
    CaptureVerdict(s, p, base);
    hide Capture, MarkerOf, ReadsDigits, Refuses, VerdictOf, Present;
  }

  /** A run starts in an empty directory, with any ceiling up to the limit. */
  lemma RunStarts(s: Setting, cap: nat)
    requires cap <= s.limit
    ensures var w := Run(s, [Restart(cap)]);
            && w.files == map[] && w.process.Some? && w.process.value.turn == 0 && w.process.value.phases == map[]
            && w.process.value.turns == Turns(0, Some(cap), [], {}, {}, None)
  {
    assert [] + [Restart(cap)] == [Restart(cap)];
    RunSnoc(s, [], Restart(cap));
  }

  /** A request whose own save failed is never sent by its process, and keeps every other from being
      admitted, whether or not the save has landed. */
  lemma FailedSaveStops(s: Setting, actions: seq<Action>, n: nat, landed: bool, base: Checkpoint, now: Conditions,
                        allowInflight: bool)
    requires ReadsDigits(s.host)
    requires var w := Run(s, actions);
             w.process.Some? && n in w.process.value.phases && w.process.value.phases[n].Entered?
    ensures var w' := Run(s, actions + [AdmissionNotSaved(n, landed, base)]);
            && w'.process.Some? && n !in w'.sent && Next(s, w', Send(n)) == w' && Next(s, w', Finish(n)) == w'
            && Check(w'.process.value.turns, now, allowInflight) == Some(UnsupportedContext)
            && (landed ==> "model_turn" in w'.files && Refuses(s.host, w'.files["model_turn"]))
  {
    RunKeepsInv(s, actions);
    RunSnoc(s, actions, AdmissionNotSaved(n, landed, base));
    NotSavedStops(s, Run(s, actions), Run(s, actions).process.value, n, landed, base, now, allowInflight);
    hide *;
  }

  lemma NotSavedStops(s: Setting, w: World, p: Process, n: nat, landed: bool, base: Checkpoint, now: Conditions,
                      allowInflight: bool)
    requires Inv(s, w) && w.process == Some(p) && n in p.phases && p.phases[n].Entered?
    ensures var w' := Next(s, w, AdmissionNotSaved(n, landed, base));
            && w'.process.Some? && n !in w'.sent && Next(s, w', Send(n)) == w' && Next(s, w', Finish(n)) == w'
            && Check(w'.process.value.turns, now, allowInflight) == Some(UnsupportedContext)
            && (landed ==> "model_turn" in w'.files && Refuses(s.host, w'.files["model_turn"]))
  {
    hide Inv, Capture, Refuses, ReadsDigits, Numbers, MarkerOf, Check;
    PhaseHolds(s, w, p, n);
    NoNumbers(p.turns.pending);
    if landed { CaptureRefuses(s, p, base); }
    GivenUpDenies(p.turns, n, now, allowInflight);
    var p' := p.(turns := Abandon(p.turns, n), phases := p.phases - {n});
    var w' := (if landed then Write(s, w, "model_turn", p, base) else w).(process := Some(p'));
    assert Next(s, w, AdmissionNotSaved(n, landed, base)) == w';
    NoPhaseNoStep(s, w', p', n);
    hide Next;
  }

  lemma NoPhaseNoStep(s: Setting, w: World, p: Process, n: nat)
    requires w.process == Some(p) && n !in p.phases
    ensures Next(s, w, Send(n)) == w && Next(s, w, Finish(n)) == w
  {}

  lemma CaptureRefuses(s: Setting, p: Process, base: Checkpoint)
    requires ReadsDigits(s.host) && p.turns.marker == MarkerOf(p.turns.pending) && p.turns.pending != []
    ensures Refuses(s.host, Capture(s, p, base))
  {
    CaptureReads(s, p, base);
    hide Capture, Refuses, ReadsDigits;
  }

  lemma GivenUpDenies(t: Turns, n: nat, now: Conditions, allowInflight: bool)
    requires t.marker == MarkerOf(t.pending) && n in Numbers(t.pending)
    ensures Check(Abandon(t, n), now, allowInflight) == Some(UnsupportedContext)
  {
    MarkerNames(t.pending);
    hide Numbers, MarkerOf;
  }

  lemma PhaseHolds(s: Setting, w: World, p: Process, n: nat)
    requires Inv(s, w) && w.process == Some(p) && n in p.phases && p.phases[n].Entered?
    ensures n in Numbers(p.turns.pending) && n !in w.sent && p.turns.marker == MarkerOf(p.turns.pending)
    ensures ReadsDigits(s.host)
  {
    assert PhaseOk(s, w, p, n);
    hide Numbers, MarkerOf, FilesOk, SentOk, Flagged, Counted;
  }

  lemma CaptureVerdict(s: Setting, p: Process, base: Checkpoint)
    ensures Refuses(s.host, Capture(s, p, base)) <==> VerdictOf(s.host, Capture(s, p, base)) != Resumable
  {}

  /** A request of a process with nothing open is admitted while token, deadline and ceiling allow it; saved,
      sent and finished it is counted once, and leaves nothing open. */
  lemma RequestIsServed(s: Setting, actions: seq<Action>, now: Conditions, allowInflight: bool, base: Checkpoint)
    requires ReadsDigits(s.host) && !now.cancelled && !now.expired
    requires var w := Run(s, actions);
             && w.process.Some? && w.process.value.turns.pending == []
             && w.process.value.turns.cap.Some? && w.process.value.turns.modelCalls < w.process.value.turns.cap.value
    ensures var w := Run(s, actions);
            var n := w.process.value.turns.modelCalls + 1;
            var w' := Run(s, actions + [Admit(now, allowInflight)] + [AdmissionSaved(n, base)]
                             + [Send(n)] + [Finish(n)]);
            && w'.sent == w.sent + [n] && n in w'.acknowledged
            && "model_turn" in w'.files && DurablyCounts(s.host, w'.files["model_turn"], n)
            && w'.process.Some? && w'.process.value.turns.pending == [] && w'.process.value.turns.modelCalls == n
  {
    hide *;
    RunKeepsInv(s, actions);
    var w := Run(s, actions);
    var p, n := w.process.value, w.process.value.turns.modelCalls + 1;
    MarkerFollows(s, w, p);
    RunFour(s, actions, Admit(now, allowInflight), AdmissionSaved(n, base), Send(n), Finish(n));
    var p1 := Process(Enter(p.turns, p.turn, allowInflight), p.turn, p.phases[n := Entered]);
    FreeIsAdmitted(s, w, p, now, allowInflight);
    AdmittedIsSent(s, w, p1, n, base);
    AdmittedDurably(s, p1, n, base);
    OnlyOneWithout(Call(p.turn, n));
  }

  lemma FreeIsAdmitted(s: Setting, w: World, p: Process, now: Conditions, allowInflight: bool)
    requires w.process == Some(p) && p.turns.pending == [] && p.turns.marker == MarkerOf(p.turns.pending)
    requires !now.cancelled && !now.expired && p.turns.cap.Some? && p.turns.modelCalls < p.turns.cap.value
    ensures var n := p.turns.modelCalls + 1;
            var p1 := Process(Enter(p.turns, p.turn, allowInflight), p.turn, p.phases[n := Entered]);
            && Next(s, w, Admit(now, allowInflight)) == w.(process := Some(p1))
            && p1.turns.pending == [Call(p.turn, n)] && p1.turns.modelCalls == n
            && p1.turns.marker == MarkerOf(p1.turns.pending)
  {
    assert [] + [Call(p.turn, p.turns.modelCalls + 1)] == [Call(p.turn, p.turns.modelCalls + 1)];
  }

  lemma AdmittedIsSent(s: Setting, w: World, p: Process, n: nat, base: Checkpoint)
    requires n in p.phases && p.phases[n].Entered?
    ensures var w' := Next(s, Next(s, Next(s, w.(process := Some(p)), AdmissionSaved(n, base)), Send(n)), Finish(n));
            && w'.sent == w.sent + [n] && n in w'.acknowledged && w'.process.Some?
            && "model_turn" in w'.files && w'.files["model_turn"] == Capture(s, p, base)
            && w'.process.value.turns.pending == Without(p.turns.pending, n)
            && w'.process.value.turns.modelCalls == p.turns.modelCalls
  {
    hide Capture, Without, MarkerOf;
  }

  lemma MarkerFollows(s: Setting, w: World, p: Process)
    requires Inv(s, w) && w.process == Some(p)
    ensures p.turns.marker == MarkerOf(p.turns.pending)
  {
    hide FilesOk, SentOk;
  }

  lemma AdmittedDurably(s: Setting, p: Process, n: nat, base: Checkpoint)
    requires ReadsDigits(s.host) && p.turns.marker == MarkerOf(p.turns.pending) && p.turns.pending != []
    requires n <= p.turns.modelCalls
    ensures DurablyCounts(s.host, Capture(s, p, base), n)
  {
    CaptureReads(s, p, base);
    CaptureVerdict(s, p, base);
    hide Capture, VerdictOf, ReadsDigits, Refuses;
  }

  lemma OnlyOneWithout(c: Call)
    ensures Without([c], c.number) == []
  {
    assert [c][1..] == [];
  }

  lemma {:induction false} DistinctWithin(s: seq<nat>, limit: nat)
    requires forall i, j | 0 <= i < j < |s| :: s[i] != s[j]
    requires forall i | 0 <= i < |s| :: 1 <= s[i] <= limit
    ensures |s| <= limit
    decreases limit
  {
    if s != [] {
      assert 1 <= s[0] <= limit;
      if limit in s {
        var i :| 0 <= i < |s| && s[i] == limit;
        DistinctWithin(s[..i] + s[i + 1..], limit - 1);
      } else {
        forall i | 0 <= i < |s| ensures s[i] <= limit - 1 { assert s[i] in s; }
        DistinctWithin(s, limit - 1);
      }
    }
  }

  /** However often the run crashes and resumes, no request number is sent twice and no more
      requests are sent than the first cap allows. */
  lemma SentWithinCap(s: Setting, actions: seq<Action>)
    requires ReadsDigits(s.host)
    ensures var sent := Run(s, actions).sent;
            |sent| <= s.limit && forall i, j | 0 <= i < j < |sent| :: sent[i] != sent[j]
  {
    RunKeepsInv(s, actions);
    var sent := Run(s, actions).sent;
    forall i | 0 <= i < |sent| ensures 1 <= sent[i] <= s.limit { assert sent[i] in sent; }
    DistinctWithin(sent, s.limit);
  }
}
