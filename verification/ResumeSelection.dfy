/** Which checkpoint a crashed run resumes from, and when it must not resume at all. */
module ResumeSelection {
  import opened ChunkTree
  import opened Documents
  import opened Records
  import opened RecordReader
  import opened CheckpointReader
  import opened CheckpointFiles

  /** What a checkpoint file holds: a plain payload, a manifest naming a saved root, or neither. */
  datatype Content = Unreadable | Plain(payload: Json) | Manifest(root: Digest)

  datatype File = File(stem: string, content: Content)

  datatype Source = Source(host: Host, hash: Hash, store: Store)

  ghost predicate Good(src: Source, rank: map<Digest, nat>) {
    Ranked(src.hash, src.store, rank)
  }

  /** Read one file; a manifest's stored summary must match its payload. */
  function ReadFile(src: Source, ghost rank: map<Digest, nat>, content: Content, summaryOnly: bool)
      : Option<Checkpoint>
    requires Good(src, rank)
  {
    match content
    case Unreadable => None
    case Plain(payload) => FromDict(src.host, payload)
    case Manifest(root) =>
      var fields := if summaryOnly then RESUME_FIELDS else Everything;
      var payload := Load(src.hash, src.store, rank, root, false, fields);
      var summary := Load(src.hash, src.store, rank, root, true, Everything);
      if payload.None? || summary.None? then None
      else
        var c := FromDict(src.host, payload.value);
        if c.None? || Summary(src.host, c.value) != summary.value then None else c
  }

  ghost predicate Intact(src: Source, rank: map<Digest, nat>, content: Content)
    requires Good(src, rank)
  {
    content.Manifest? ==> SoundAt(src.hash, src.store, rank, content.root)
  }

  /** The two readings of one file agree on everything selection uses. */
  ghost predicate Alike(host: Host, a: Option<Checkpoint>, b: Option<Checkpoint>) {
    && a.Some? == b.Some?
    && (a.Some? ==>
          && RunId(host, a.value) == RunId(host, b.value) && IsTerminal(a.value) == IsTerminal(b.value)
          && OrderOf(host, a.value) == OrderOf(host, b.value)
          && HasTurnState(a.value) == HasTurnState(b.value)
          && Summary(host, a.value) == Summary(host, b.value))
  }

  lemma {:induction false} ReferencesMember(members: seq<Ref>, name: string) returns (i: nat)
    requires name in References(members)
    ensures i < |members| && members[i].digest == References(members)[name]
  {
    var n := |members| - 1;
    if members[n].name == name { i := n; } else { i := ReferencesMember(members[..n], name); }
  }

  /** Loading everything and then keeping the resume fields is loading the resume fields. */
  lemma LoadCommutes(h: Hash, s: Store, rank: map<Digest, nat>, root: Digest, fields: Fields)
    requires Ranked(h, s, rank)
    ensures var whole, part := Load(h, s, rank, root, false, Everything), Load(h, s, rank, root, false, fields);
            && (whole.Some? ==> part == Some(Project(whole.value, fields)))
            && (SoundAt(h, s, rank, root) ==> (whole.Some? <==> part.Some?))
  {
    var node := NodeAt(h, s, root);
    if node.Some? && node.value.ObjectNode? && "checkpoint" in References(node.value.members) {
      var d := References(node.value.members)["checkpoint"];
      if SoundAt(h, s, rank, root) {
        var i := ReferencesMember(node.value.members, "checkpoint");
        SoundNode(h, s, rank, root, RefsOf(node.value));
        assert RefsOf(node.value)[i] == d;
        SoundIffDecodes(h, s, rank, d);
      }
      if Decode(h, s, rank, d, Everything).Some? {
        ProjectionCommutes(h, s, rank, d, fields, Decode(h, s, rank, d, Everything).value);
      }
    }
  }

  /** A scan sees of a file what a reader of everything sees. */
  lemma ScanSeesWhole(src: Source, rank: map<Digest, nat>, content: Content)
    requires Good(src, rank)
    ensures var whole, part := ReadFile(src, rank, content, false), ReadFile(src, rank, content, true);
            whole.Some? || Intact(src, rank, content) ==> Alike(src.host, whole, part)
  {
    hide FromDict, Load, SoundAt, Summary, OrderOf, RunId, IsTerminal, HasTurnState;
    if content.Manifest? {
      LoadCommutes(src.hash, src.store, rank, content.root, RESUME_FIELDS);
      var payload := Load(src.hash, src.store, rank, content.root, false, Everything);
      if payload.Some? {
        ProjectedParse(src.host, payload.value);
        var c := FromDict(src.host, payload.value);
        if c.Some? { TrimKeeps(src.host, c.value); }
      }
    }
  }

  // ---------- one directory scan ----------

  predicate Later(a: Order, b: Order) {
    || a.turns > b.turns
    || (a.turns == b.turns &&
        (a.calls > b.calls ||
         (a.calls == b.calls && (a.step > b.step || (a.step == b.step && a.createdAt > b.createdAt)))))
  }

  predicate Mentions(s: string, part: string) {
    part <= s || (s != "" && Mentions(s[1..], part))
  }

  /** The file is in the namespace of another run, so damage to it does not concern this one. */
  predicate Foreign(runId: Option<string>, stem: string) {
    runId.Some? && Mentions(stem, "__") && !(runId.value + "__" <= stem)
  }

  datatype Sight = Skip | Broken | Seen(checkpoint: Checkpoint)

  function Damaged(runId: Option<string>, file: File): Sight {
    if Foreign(runId, file.stem) then Skip else Broken
  }

  /** What the scan makes of one file, before comparing it with the others. */
  ghost function Look(src: Source, rank: map<Digest, nat>, runId: Option<string>, file: File, summaryOnly: bool): Sight
    requires Good(src, rank)
  {
    var c := ReadFile(src, rank, file.content, summaryOnly);
    if c.None? then Damaged(runId, file)
    else if RunId(src.host, c.value) != runId then Skip
    else if !Intact(src, rank, file.content) then Damaged(runId, file)
    else Seen(c.value)
  }

  datatype Scan = Failed | Scanned(best: Option<nat>, terminal: Option<nat>)

  /** Whether a checkpoint displaces the present choice; None where comparing raises. */
  function Displaces(host: Host, sights: seq<Sight>, present: Option<nat>, c: Checkpoint): Option<bool> {
    if present.None? then Some(true)
    else if present.value >= |sights| || !sights[present.value].Seen? then None
    else
      var a, b := OrderOf(host, c), OrderOf(host, sights[present.value].checkpoint);
      if a.None? || b.None? then None else Some(Later(a.value, b.value))
  }

  /** The scan so far extended by file i. */
  function ScanStep(host: Host, runId: Option<string>, files: seq<File>, sights: seq<Sight>, i: nat, scan: Scan): Scan
    requires i < |sights| == |files| && scan.Scanned?
  {
    match sights[i]
    case Skip => scan
    case Broken => Failed
    case Seen(c) =>
      var present := if IsTerminal(c) then scan.terminal else scan.best;
      var displaces := Displaces(host, sights, present, c);
      if displaces.None? then (if Damaged(runId, files[i]).Skip? then scan else Failed)
      else if !displaces.value then scan
      else if IsTerminal(c) then scan.(terminal := Some(i)) else scan.(best := Some(i))
  }

  function ScanAll(host: Host, runId: Option<string>, files: seq<File>, sights: seq<Sight>, n: nat): Scan
    requires n <= |sights| == |files|
  {
    if n == 0 then Scanned(None, None)
    else
      var before := ScanAll(host, runId, files, sights, n - 1);
      if before.Failed? then Failed else ScanStep(host, runId, files, sights, n - 1, before)
  }

  ghost function Looks(src: Source, rank: map<Digest, nat>, runId: Option<string>, files: seq<File>, summaryOnly: bool)
      : (r: seq<Sight>)
    requires Good(src, rank)
    ensures |r| == |files|
  {
    seq(|files|, i requires 0 <= i < |files| => Look(src, rank, runId, files[i], summaryOnly))
  }

  // ---------- the whole call ----------

  datatype Resumption = Refused | Nothing | Resume(checkpoint: Checkpoint)

  /** A terminal checkpoint is authoritative: it hides every running one. */
  function Conclude(src: Source, ghost rank: map<Digest, nat>, files: seq<File>, scan: Scan): Resumption
    requires Good(src, rank)
  {
    if scan.Failed? then Refused
    else
      var pick := if scan.terminal.Some? then scan.terminal else scan.best;
      if pick.None? || pick.value >= |files| then Nothing
      else
        var c := ReadFile(src, rank, files[pick.value].content, false);
        if c.None? then Refused
        else if scan.terminal.Some? && !HasTurnState(c.value) then Nothing
        else Resume(c.value)
  }

  /** Read a file's resume fields, and verify its records once it turns out to concern this run. */
  method LookAt(src: Source, ghost rank: map<Digest, nat>, runId: Option<string>, file: File,
                verified: VerifiedSet) returns (sight: Sight)
    requires Good(src, rank) && verified.Valid(src.hash, src.store, rank)
    modifies verified
    ensures verified.Valid(src.hash, src.store, rank) && old(verified.digests) <= verified.digests
    ensures sight == Look(src, rank, runId, file, true)
  {
    hide SoundAt, Foreign, FromDict, Load;
    var c := ReadFile(src, rank, file.content, true);
    if c.None? { return Damaged(runId, file); }
    if RunId(src.host, c.value) != runId { return Skip; }
    if file.content.Manifest? {
      var sound := verified.Visit(src.hash, src.store, rank, file.content.root);
      if !sound { return Damaged(runId, file); }
    }
    sight := Seen(c.value);
  }

  /** `files` are in path order.  Damage is told apart with one verification set for all roots. */
  method LoadLatestForResume(src: Source, ghost rank: map<Digest, nat>, runId: Option<string>, files: seq<File>)
      returns (r: Resumption)
    requires Good(src, rank)
    ensures var sights := Looks(src, rank, runId, files, true);
            r == Conclude(src, rank, files, ScanAll(src.host, runId, files, sights, |files|))
  {
    hide Look, ReadFile, ScanStep, SoundAt, Foreign;
    var verified := new VerifiedSet();
    var scan := Scanned(None, None);
    var sights: seq<Sight> := [];
    var i := 0;
    ghost var looks := Looks(src, rank, runId, files, true);
    while i < |files|
      invariant 0 <= i <= |files| && |sights| == i && fresh(verified)
      invariant sights == looks[..i] && verified.Valid(src.hash, src.store, rank)
      invariant scan.Scanned? && scan == ScanAll(src.host, runId, files, looks, i)
    {
      var sight := LookAt(src, rank, runId, files[i], verified);
      assert sight == looks[i];
      sights := sights + [sight];
      ScanLocal(src.host, runId, files, looks, i, scan, sights);
      scan := ScanStep(src.host, runId, files[..i + 1], sights, i, scan);
      i := i + 1;
      if scan.Failed? {
        FailureStays(src.host, runId, files, looks, i, |files|);
        return Refused;
      }
    }
    r := Conclude(src, rank, files, scan);
  }

  /** A step looks at nothing beyond the files scanned so far. */
  lemma ScanLocal(host: Host, runId: Option<string>, files: seq<File>, looks: seq<Sight>, i: nat, scan: Scan,
                  sights: seq<Sight>)
    requires i < |files| == |looks| && sights == looks[..i + 1] && scan.Scanned?
    requires scan == ScanAll(host, runId, files, looks, i)
    ensures ScanStep(host, runId, files[..i + 1], sights, i, scan) == ScanStep(host, runId, files, looks, i, scan)
  {
    hide Foreign, OrderOf, IsTerminal, Later, ScanAll;
    ScanPicks(host, runId, files, looks, i);
  }

  lemma {:induction false} ScanPicks(host: Host, runId: Option<string>, files: seq<File>, sights: seq<Sight>, n: nat)
    requires n <= |sights| == |files|
    ensures var scan := ScanAll(host, runId, files, sights, n);
            scan.Scanned? ==>
              && (scan.best.Some? ==> scan.best.value < n && sights[scan.best.value].Seen?
                                      && !IsTerminal(sights[scan.best.value].checkpoint))
              && (scan.terminal.Some? ==> scan.terminal.value < n && sights[scan.terminal.value].Seen?
                                          && IsTerminal(sights[scan.terminal.value].checkpoint))
  {
    if n > 0 { ScanPicks(host, runId, files, sights, n - 1); }
  }

  lemma {:induction false} FailureStays(host: Host, runId: Option<string>, files: seq<File>, sights: seq<Sight>,
                                        i: nat, n: nat)
    requires i <= n <= |sights| == |files| && ScanAll(host, runId, files, sights, i).Failed?
    ensures ScanAll(host, runId, files, sights, n).Failed?
    decreases n
  {
    if i < n { FailureStays(host, runId, files, sights, i, n - 1); }
  }

  // ---------- what the scan finds ----------

  ghost predicate Candidate(sights: seq<Sight>, terminal: bool, i: nat) {
    i < |sights| && sights[i].Seen? && IsTerminal(sights[i].checkpoint) == terminal
  }

  /** The latest of its kind, and the first in path order among equals; a single one need not
      have a proper cursor, because it is never compared. */
  ghost predicate FirstLatest(host: Host, sights: seq<Sight>, terminal: bool, n: nat, pick: Option<nat>) {
    match pick
    case None => forall j | 0 <= j < n :: !Candidate(sights, terminal, j)
    case Some(i) =>
      && i < n && Candidate(sights, terminal, i)
      && forall j | 0 <= j < n && j != i && Candidate(sights, terminal, j) ::
           var a, b := OrderOf(host, sights[i].checkpoint), OrderOf(host, sights[j].checkpoint);
           a.Some? && b.Some? && !Later(b.value, a.value) && (j < i ==> Later(a.value, b.value))
  }

  /** Two checkpoints of one kind, one of which has no proper cursor to compare by. */
  ghost predicate Undecided(host: Host, sights: seq<Sight>, terminal: bool, n: nat) {
    exists i, j | 0 <= i < n && 0 <= j < n && i != j ::
      Candidate(sights, terminal, i) && Candidate(sights, terminal, j) && OrderOf(host, sights[i].checkpoint).None?
  }

  /** The run's own checkpoints are in its own namespace, as `key_for` names them. */
  ghost predicate OwnNames(runId: Option<string>, files: seq<File>, sights: seq<Sight>) {
    forall i | 0 <= i < |sights| && i < |files| && sights[i].Seen? :: !Foreign(runId, files[i].stem)
  }

  lemma NextLatest(host: Host, sights: seq<Sight>, terminal: bool, n: nat, present: Option<nat>)
    requires n < |sights| && FirstLatest(host, sights, terminal, n, present)
    ensures !Candidate(sights, terminal, n) ==> FirstLatest(host, sights, terminal, n + 1, present)
    ensures Candidate(sights, terminal, n) ==>
              var displaces := Displaces(host, sights, present, sights[n].checkpoint);
              displaces.Some? ==> FirstLatest(host, sights, terminal, n + 1,
                                              if displaces.value then Some(n) else present)
  {
    hide OrderOf, IsTerminal;
  }

  lemma DecidedHasOrders(host: Host, sights: seq<Sight>, terminal: bool, n: nat, present: Option<nat>)
    requires FirstLatest(host, sights, terminal, n, present)
    ensures !Undecided(host, sights, terminal, n)
  {
    hide OrderOf, IsTerminal, Later;
  }

  lemma NotComparable(host: Host, sights: seq<Sight>, terminal: bool, n: nat, present: Option<nat>)
    requires n < |sights| && FirstLatest(host, sights, terminal, n, present) && Candidate(sights, terminal, n)
    requires Displaces(host, sights, present, sights[n].checkpoint).None?
    ensures Undecided(host, sights, terminal, n + 1)
  {
    hide OrderOf, IsTerminal, Later;
  }

  lemma UndecidedGrows(host: Host, sights: seq<Sight>, terminal: bool, n: nat)
    requires Undecided(host, sights, terminal, n)
    ensures Undecided(host, sights, terminal, n + 1)
  {
    hide OrderOf, Candidate;
  }

  lemma NothingScanned(host: Host, sights: seq<Sight>, terminal: bool)
    ensures FirstLatest(host, sights, terminal, 0, None) && !Undecided(host, sights, terminal, 0)
  {}

  ghost predicate Hopeless(host: Host, sights: seq<Sight>, n: nat)
    requires n <= |sights|
  {
    || (exists i | 0 <= i < n :: sights[i].Broken?)
    || Undecided(host, sights, false, n) || Undecided(host, sights, true, n)
  }

  /** One more file, on a scan that has gone well so far. */
  lemma ScanStepDecides(host: Host, runId: Option<string>, files: seq<File>, sights: seq<Sight>, n: nat, scan: Scan)
    requires n < |sights| == |files| && OwnNames(runId, files, sights) && scan.Scanned?
    requires FirstLatest(host, sights, false, n, scan.best) && FirstLatest(host, sights, true, n, scan.terminal)
    requires forall i | 0 <= i < n :: !sights[i].Broken?
    ensures var next := ScanStep(host, runId, files, sights, n, scan);
            && (next.Failed? ==> Hopeless(host, sights, n + 1))
            && (next.Scanned? ==> FirstLatest(host, sights, false, n + 1, next.best)
                                  && FirstLatest(host, sights, true, n + 1, next.terminal)
                                  && forall i | 0 <= i < n + 1 :: !sights[i].Broken?)
  {
    hide FirstLatest, Undecided, Displaces, IsTerminal, Foreign;
    NextLatest(host, sights, false, n, scan.best);
    NextLatest(host, sights, true, n, scan.terminal);
    if sights[n].Seen? {
      var terminal := IsTerminal(sights[n].checkpoint);
      var present := if terminal then scan.terminal else scan.best;
      if Displaces(host, sights, present, sights[n].checkpoint).None? {
        NotComparable(host, sights, terminal, n, present);
      }
    }
  }

  /** The scan fails exactly on damage it sees, and when it cannot compare two checkpoints of one kind;
      otherwise it picks the latest running and the latest terminal checkpoint. */
  lemma {:induction false} ScanIsFirstLatest(host: Host, runId: Option<string>, files: seq<File>,
                                             sights: seq<Sight>, n: nat)
    requires n <= |sights| == |files| && OwnNames(runId, files, sights)
    ensures var scan := ScanAll(host, runId, files, sights, n);
            && (scan.Failed? <==> Hopeless(host, sights, n))
            && (scan.Scanned? ==> FirstLatest(host, sights, false, n, scan.best)
                                  && FirstLatest(host, sights, true, n, scan.terminal)
                                  && forall i | 0 <= i < n :: !sights[i].Broken?)
  {
    hide FirstLatest, Displaces, OwnNames, IsTerminal, Foreign, ScanStep, Undecided;
    NothingScanned(host, sights, false);
    NothingScanned(host, sights, true);
    if n > 0 {
      ScanIsFirstLatest(host, runId, files, sights, n - 1);
      var scan := ScanAll(host, runId, files, sights, n - 1);
      if scan.Scanned? {
        ScanStepDecides(host, runId, files, sights, n - 1, scan);
        var next := ScanStep(host, runId, files, sights, n - 1, scan);
        if next.Scanned? {
          DecidedHasOrders(host, sights, false, n, next.best);
          DecidedHasOrders(host, sights, true, n, next.terminal);
        }
      } else {
        if Undecided(host, sights, false, n - 1) { UndecidedGrows(host, sights, false, n - 1); }
        if Undecided(host, sights, true, n - 1) { UndecidedGrows(host, sights, true, n - 1); }
      }
    }
  }

  /** The file a resume reads: the latest terminal checkpoint, or the latest running one when no
      checkpoint is terminal. */
  ghost predicate Authoritative(host: Host, sights: seq<Sight>, n: nat, i: nat) {
    if exists j | 0 <= j < n :: Candidate(sights, true, j) then FirstLatest(host, sights, true, n, Some(i))
    else FirstLatest(host, sights, false, n, Some(i))
  }

  lemma PickIsAuthoritative(host: Host, runId: Option<string>, files: seq<File>, sights: seq<Sight>)
    requires |sights| == |files| && OwnNames(runId, files, sights)
    ensures var n, scan := |files|, ScanAll(host, runId, files, sights, |files|);
            && (scan.Failed? <==> Hopeless(host, sights, n))
            && (scan.Scanned? ==>
                  var pick := if scan.terminal.Some? then scan.terminal else scan.best;
                  && (pick.None? ==> forall i | 0 <= i < n :: !sights[i].Seen?)
                  && (pick.Some? ==> pick.value < n && Authoritative(host, sights, n, pick.value))
                  && (scan.terminal.Some? <==> exists j | 0 <= j < n :: Candidate(sights, true, j)))
  {
    var n := |files|;
    ScanIsFirstLatest(host, runId, files, sights, n);
    hide ScanAll, Later, OrderOf, IsTerminal, OwnNames, Hopeless;
    var scan := ScanAll(host, runId, files, sights, n);
    if scan.Scanned? && scan.terminal.None? && scan.best.None? {
      forall i | 0 <= i < n ensures !sights[i].Seen? {
        assert sights[i].Seen? ==> Candidate(sights, IsTerminal(sights[i].checkpoint), i);
      }
    }
  }

  lemma OnlyOneFirstLatest(host: Host, sights: seq<Sight>, terminal: bool, n: nat, a: Option<nat>, b: Option<nat>)
    requires n <= |sights| && FirstLatest(host, sights, terminal, n, a) && FirstLatest(host, sights, terminal, n, b)
    ensures a == b
  {}

  lemma OnlyOneAuthoritative(host: Host, sights: seq<Sight>, n: nat, i: nat, j: nat)
    requires n <= |sights| && Authoritative(host, sights, n, i) && Authoritative(host, sights, n, j)
    ensures i == j
  {
    OnlyOneFirstLatest(host, sights, exists k | 0 <= k < n :: Candidate(sights, true, k), n, Some(i), Some(j));
    hide FirstLatest, Candidate;
  }

  /** Some checkpoint of the run is terminal. */
  ghost predicate Finished(sights: seq<Sight>) {
    exists j | 0 <= j < |sights| :: Candidate(sights, true, j)
  }

  /** There is nothing to resume: no checkpoint of the run at all, or a terminal one that hides
      the others and has no turn state to go on from. */
  ghost predicate NothingLeft(host: Host, sights: seq<Sight>) {
    || (forall i | 0 <= i < |sights| :: !sights[i].Seen?)
    || (Finished(sights)
        && exists i | 0 <= i < |sights| ::
             Authoritative(host, sights, |sights|, i) && sights[i].Seen? && !HasTurnState(sights[i].checkpoint))
  }

  /** The checkpoint is the whole content of the authoritative file, and may be gone on from. */
  ghost predicate Continues(src: Source, rank: map<Digest, nat>, files: seq<File>, sights: seq<Sight>, c: Checkpoint)
    requires Good(src, rank) && |sights| == |files|
  {
    exists i | 0 <= i < |files| ::
      && Authoritative(src.host, sights, |files|, i)
      && ReadFile(src, rank, files[i].content, false) == Some(c)
      && (Finished(sights) ==> HasTurnState(c))
  }

  /** What the scan has seen of a file, a full reading of it confirms. */
  lemma SeenIsRead(src: Source, rank: map<Digest, nat>, runId: Option<string>, files: seq<File>, i: nat)
    requires Good(src, rank) && i < |files| && Looks(src, rank, runId, files, true)[i].Seen?
    ensures var seen := Looks(src, rank, runId, files, true)[i].checkpoint;
            Alike(src.host, ReadFile(src, rank, files[i].content, false), Some(seen))
  {
    ScanSeesWhole(src, rank, files[i].content);
    hide ReadFile, Intact, Alike, RunId;
  }

  /** A scan that went through ends where its pick says. */
  lemma ConcludedFrom(src: Source, rank: map<Digest, nat>, files: seq<File>, scan: Scan)
    requires Good(src, rank)
    ensures var r, pick := Conclude(src, rank, files, scan),
              if scan.Failed? then None else if scan.terminal.Some? then scan.terminal else scan.best;
            && (scan.Failed? ==> r.Refused?)
            && (scan.Scanned? && pick.None? ==> r.Nothing?)
            && (pick.Some? && pick.value < |files| ==>
                  var c := ReadFile(src, rank, files[pick.value].content, false);
                  c.Some? ==> r == if scan.terminal.Some? && !HasTurnState(c.value) then Nothing else Resume(c.value))
  {
    hide ReadFile, HasTurnState;
  }

  /** When the scan has picked a file, that file decides. */
  lemma PickDecides(src: Source, rank: map<Digest, nat>, runId: Option<string>, files: seq<File>, pick: nat)
    requires Good(src, rank) && pick < |files|
    requires Authoritative(src.host, Looks(src, rank, runId, files, true), |files|, pick)
    ensures var sights := Looks(src, rank, runId, files, true);
            var read := ReadFile(src, rank, files[pick].content, false);
            && read.Some?
            && (NothingLeft(src.host, sights) <==> Finished(sights) && !HasTurnState(read.value))
            && (forall c :: Continues(src, rank, files, sights, c) <==>
                  read == Some(c) && (Finished(sights) ==> HasTurnState(c)))
  {
    var sights := Looks(src, rank, runId, files, true);
    AuthoritativeSeen(src.host, sights, pick);
    SeenIsRead(src, rank, runId, files, pick);
    forall i | 0 <= i < |files| && Authoritative(src.host, sights, |files|, i) ensures i == pick {
      OnlyOneAuthoritative(src.host, sights, |files|, i, pick);
    }
    hide Looks, ReadFile, HasTurnState, Authoritative, Finished, IsTerminal, OrderOf, RunId, Summary;
  }

  lemma AuthoritativeSeen(host: Host, sights: seq<Sight>, i: nat)
    requires Authoritative(host, sights, |sights|, i)
    ensures i < |sights| && sights[i].Seen?
  {}

  /** The whole promise for one run.  It is refused exactly on damage the scan sees and on checkpoints
      that cannot be compared.  Otherwise a terminal checkpoint hides every running one, and there is nothing to
      resume exactly when there is no checkpoint or the terminal one has no turn state.  Otherwise
      exactly the authoritative checkpoint is resumed, as its file holds it. */
  lemma ResumesLatest(src: Source, rank: map<Digest, nat>, runId: Option<string>, files: seq<File>)
    requires Good(src, rank) && OwnNames(runId, files, Looks(src, rank, runId, files, true))
    ensures var sights, n := Looks(src, rank, runId, files, true), |files|;
            var r := Conclude(src, rank, files, ScanAll(src.host, runId, files, sights, n));
            && (r.Refused? <==> Hopeless(src.host, sights, n))
            && (r.Nothing? <==> !Hopeless(src.host, sights, n) && NothingLeft(src.host, sights))
            && (forall c :: r == Resume(c) <==>
                  !Hopeless(src.host, sights, n) && Continues(src, rank, files, sights, c))
  {
    hide Looks, ReadFile, OwnNames, HasTurnState, Hopeless, ScanAll, IsTerminal, OrderOf, Later;
    var sights, n := Looks(src, rank, runId, files, true), |files|;
    var scan := ScanAll(src.host, runId, files, sights, n);
    PickIsAuthoritative(src.host, runId, files, sights);
    ConcludedFrom(src, rank, files, scan);
    hide Conclude, Candidate;
    if scan.Scanned? {
      var pick := if scan.terminal.Some? then scan.terminal else scan.best;
      if pick.Some? {
        PickDecides(src, rank, runId, files, pick.value);
        hide Authoritative, NothingLeft, Continues;
      } else {
        NothingSeen(src, rank, files, sights);
        hide Authoritative, NothingLeft, Continues;
      }
    }
  }

  lemma NothingSeen(src: Source, rank: map<Digest, nat>, files: seq<File>, sights: seq<Sight>)
    requires Good(src, rank) && |sights| == |files| && forall i | 0 <= i < |sights| :: !sights[i].Seen?
    ensures NothingLeft(src.host, sights) && forall c :: !Continues(src, rank, files, sights, c)
  {
    hide ReadFile, HasTurnState;
    forall i | 0 <= i < |files| ensures !Authoritative(src.host, sights, |files|, i) {
      if Authoritative(src.host, sights, |files|, i) { AuthoritativeSeen(src.host, sights, i); }
    }
    hide Authoritative;
  }

  // ---------- scanning summaries picks what scanning everything picks ----------

  /** The scan of summaries sees what the full scan sees, except that damage to another run's
      file may go unnoticed; with `exact`, not even that. */
  ghost predicate SeesAsMuch(host: Host, full: Sight, part: Sight, exact: bool) {
    match full
    case Skip => part.Skip?
    case Broken => part.Broken? || (part.Skip? && !exact)
    case Seen(c) => part.Seen? && Alike(host, Some(c), Some(part.checkpoint))
  }

  lemma LookSeesAsMuch(src: Source, rank: map<Digest, nat>, runId: Option<string>, file: File)
    requires Good(src, rank)
    ensures SeesAsMuch(src.host, Look(src, rank, runId, file, false), Look(src, rank, runId, file, true),
                       Intact(src, rank, file.content))
  {
    ScanSeesWhole(src, rank, file.content);
  }

  lemma SameStep(host: Host, runId: Option<string>, files: seq<File>, full: seq<Sight>, part: seq<Sight>,
                 i: nat, scan: Scan, exact: bool)
    requires i < |full| == |part| == |files| && scan.Scanned?
    requires scan.best.Some? ==> scan.best.value < i && full[scan.best.value].Seen?
                                 && SeesAsMuch(host, full[scan.best.value], part[scan.best.value], exact)
    requires scan.terminal.Some? ==> scan.terminal.value < i && full[scan.terminal.value].Seen?
                                     && SeesAsMuch(host, full[scan.terminal.value], part[scan.terminal.value], exact)
    requires SeesAsMuch(host, full[i], part[i], exact)
    ensures var a, b := ScanStep(host, runId, files, full, i, scan), ScanStep(host, runId, files, part, i, scan);
            exact || a.Scanned? ==> a == b
  {
    hide Foreign, IsTerminal, OrderOf, RunId, Summary, HasTurnState, Later;
  }

  lemma {:induction false} SameScan(host: Host, runId: Option<string>, files: seq<File>, full: seq<Sight>,
                                    part: seq<Sight>, n: nat, exact: bool)
    requires n <= |full| == |part| == |files|
    requires forall i | 0 <= i < |full| :: SeesAsMuch(host, full[i], part[i], exact)
    ensures exact || ScanAll(host, runId, files, full, n).Scanned? ==>
              ScanAll(host, runId, files, part, n) == ScanAll(host, runId, files, full, n)
  {
    hide SeesAsMuch, ScanStep;
    if n > 0 {
      SameScan(host, runId, files, full, part, n - 1, exact);
      var scan := ScanAll(host, runId, files, full, n - 1);
      if scan.Scanned? {
        ScanPicks(host, runId, files, full, n - 1);
        SameStep(host, runId, files, full, part, n - 1, scan, exact);
      }
    }
  }

  /** Scanning only the resume fields resumes from the same checkpoint as reading everything:
      whenever the full scan goes through, and in every case when no file is damaged.  `ScanDamage` says
      exactly when. */
  lemma SummaryScanSelectsSame(src: Source, rank: map<Digest, nat>, runId: Option<string>, files: seq<File>)
    requires Good(src, rank)
    ensures var full := ScanAll(src.host, runId, files, Looks(src, rank, runId, files, false), |files|);
            var part := ScanAll(src.host, runId, files, Looks(src, rank, runId, files, true), |files|);
            full.Scanned? || (forall i | 0 <= i < |files| :: Intact(src, rank, files[i].content)) ==>
              Conclude(src, rank, files, part) == Conclude(src, rank, files, full)
  {
    hide Look, Intact, Conclude;
    var full, part := Looks(src, rank, runId, files, false), Looks(src, rank, runId, files, true);
    var exact := forall i | 0 <= i < |files| :: Intact(src, rank, files[i].content);
    forall i | 0 <= i < |files| ensures SeesAsMuch(src.host, full[i], part[i], exact) {
      LookSeesAsMuch(src, rank, runId, files[i]);
    }
    SameScan(src.host, runId, files, full, part, |files|, exact);
  }
}
