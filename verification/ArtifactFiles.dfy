/** Writing a saved artifact so that no crash makes a half-written one look complete.

  A write sets a pending mark, drops the old descriptor, writes and removes payload files,
  publishes the new descriptor and clears the mark.  Each is one file operation; a crash may come
  after any of them, or in the middle of a payload file. */
module ArtifactFiles {
  import opened ChunkTree

  datatype Descriptor = Descriptor(kind: string, components: set<string>)

  datatype Directory = Directory(pending: bool, descriptor: Option<Descriptor>, files: map<string, string>)

  datatype FileOp = Put(name: string, content: string) | Remove(name: string)

  /** What one write is to leave behind: its declared components and its payload, in order. */
  datatype Job = Job(kind: string, components: seq<string>, payload: seq<FileOp>)

  const COMPONENT_FILES: map<string, string> := map[
    "artifacts" := "artifacts.json",
    "eval_results" := "evals.json",
    "model_calls" := "manifest.jsonl",
    "trajectory" := "trajectory.json"]

  function Required(kind: string): set<string> {
    if kind == "eval_run" then {"artifacts", "eval_results", "trajectory"} else {}
  }

  predicate Known(kind: string, components: set<string>) {
    && kind in {"eval_run", "provenance"}
    && components <= COMPONENT_FILES.Keys
    && Required(kind) <= components
    && (kind == "provenance" ==> components != {})
  }

  predicate Distinct(components: seq<string>) {
    forall i, j | 0 <= i < j < |components| :: components[i] != components[j]
  }

  predicate HasFiles(files: map<string, string>, components: set<string>) {
    forall c <- components :: c in COMPONENT_FILES && COMPONENT_FILES[c] in files
  }

  function Declared(job: Job): set<string> {
    set c | c in job.components
  }

  /** The descriptor a job publishes; None where Looplet raises. */
  function Normalized(job: Job, files: map<string, string>): Option<Descriptor> {
    if Distinct(job.components) && Known(job.kind, Declared(job)) && HasFiles(files, Declared(job))
    then Some(Descriptor(job.kind, Declared(job))) else None
  }

  datatype Step = MarkPending | DropDescriptor | Payload(op: FileOp) | Publish | ClearPending

  function Touched(files: map<string, string>, op: FileOp): map<string, string> {
    match op
    case Put(name, content) => files[name := content]
    case Remove(name) => files - {name}
  }

  function Apply(d: Directory, job: Job, s: Step): Directory {
    match s
    case MarkPending => d.(pending := true)
    case DropDescriptor => d.(descriptor := None)
    case Payload(op) => d.(files := Touched(d.files, op))
    case Publish => d.(descriptor := Normalized(job, d.files))
    case ClearPending => d.(pending := false)
  }

  /** The n-th file operation of a write. */
  function StepOf(job: Job, n: nat): Step
    requires n < Length(job)
  {
    if n == 0 then MarkPending
    else if n == 1 then DropDescriptor
    else if n < 2 + |job.payload| then Payload(job.payload[n - 2])
    else if n == 2 + |job.payload| then Publish
    else ClearPending
  }

  function Length(job: Job): nat { |job.payload| + 4 }

  function Perform(d: Directory, job: Job, n: nat): Directory
    requires n <= Length(job)
  {
    if n == 0 then d else Apply(Perform(d, job, n - 1), job, StepOf(job, n - 1))
  }

  /** A write that stopped after `done` operations; `torn` is what a payload file cut short holds. */
  datatype Attempt = Attempt(job: Job, done: nat, torn: Option<string>)

  function Whole(job: Job): Attempt {
    Attempt(job, Length(job), None)
  }

  /** Publishing that raises ends the write before the descriptor and the mark are touched. */
  predicate Possible(d: Directory, a: Attempt) {
    && a.done <= Length(a.job)
    && (a.torn.Some? ==> 2 <= a.done < 2 + |a.job.payload| && a.job.payload[a.done - 2].Put?)
    && (a.done > 2 + |a.job.payload| ==> Normalized(a.job, Perform(d, a.job, 2 + |a.job.payload|).files).Some?)
  }

  function AfterAttempt(d: Directory, a: Attempt): Directory {
    if !Possible(d, a) then d
    else
      var reached := Perform(d, a.job, a.done);
      if a.torn.Some? then reached.(files := reached.files[a.job.payload[a.done - 2].name := a.torn.value])
      else reached
  }

  function AfterAll(start: Directory, attempts: seq<Attempt>): Directory {
    if attempts == [] then start
    else AfterAttempt(AfterAll(start, attempts[..|attempts| - 1]), attempts[|attempts| - 1])
  }

  // ---------- reading ----------

  datatype Reading = Refused | Legacy | Found(descriptor: Descriptor)

  function Read(d: Directory): Reading {
    if d.pending then Refused
    else if d.descriptor.None? then Legacy
    else if Known(d.descriptor.value.kind, d.descriptor.value.components)
            && HasFiles(d.files, d.descriptor.value.components)
    then Found(d.descriptor.value)
    else Refused
  }

  // ---------- a complete write ----------

  /** What a payload does to each file it names: the last content written, or None when removed. */
  function Effect(payload: seq<FileOp>): map<string, Option<string>> {
    if payload == [] then map[]
    else
      var last := payload[|payload| - 1];
      Effect(payload[..|payload| - 1])[last.name := if last.Put? then Some(last.content) else None]
  }

  /** A directory's files under an effect. */
  function Over(files: map<string, string>, effect: map<string, Option<string>>): map<string, string> {
    map name | name in files.Keys + effect.Keys && (name in effect ==> effect[name].Some?) ::
      if name in effect then effect[name].value else files[name]
  }

  /** Every file the payload names is as the payload left it. */
  ghost predicate Holds(files: map<string, string>, payload: seq<FileOp>) {
    forall name <- Effect(payload) ::
      if Effect(payload)[name].Some? then name in files && files[name] == Effect(payload)[name].value
      else name !in files
  }

  lemma OverStep(files: map<string, string>, payload: seq<FileOp>, op: FileOp)
    ensures Over(files, Effect(payload + [op])) == Touched(Over(files, Effect(payload)), op)
  {
    assert (payload + [op])[..|payload|] == payload;
    assert Effect(payload + [op]) == Effect(payload)[op.name := if op.Put? then Some(op.content) else None];
    hide Effect, Over;
    if op.Put? {
      OverPut(files, Effect(payload), op.name, op.content);
    } else {
      OverRemove(files, Effect(payload), op.name);
    }
  }

  lemma OverPut(files: map<string, string>, effect: map<string, Option<string>>, name: string, content: string)
    ensures Over(files, effect[name := Some(content)]) == Over(files, effect)[name := content]
  {}

  lemma OverRemove(files: map<string, string>, effect: map<string, Option<string>>, name: string)
    ensures Over(files, effect[name := None]) == Over(files, effect) - {name}
  {}

  lemma BeforePayload(d: Directory, job: Job)
    ensures Perform(d, job, 2) == Directory(true, None, Over(d.files, Effect([])))
  {
    assert Perform(d, job, 0) == d;
    assert Perform(d, job, 1) == d.(pending := true);
    assert Over(d.files, map[]) == d.files;
  }

  lemma PayloadStep(d: Directory, job: Job, n: nat)
    requires 0 < n <= |job.payload|
    ensures Perform(d, job, n + 2) == Apply(Perform(d, job, n + 1), job, Payload(job.payload[n - 1]))
  {
    hide Apply;
    assert StepOf(job, n + 1) == Payload(job.payload[n - 1]);
  }

  lemma {:induction false} PayloadWritten(d: Directory, job: Job, n: nat)
    requires n <= |job.payload|
    ensures Perform(d, job, n + 2) == Directory(true, None, Over(d.files, Effect(job.payload[..n])))
  {
    hide Perform, Over, Effect, StepOf, Touched;
    if n == 0 {
      BeforePayload(d, job);
      assert job.payload[..0] == [];
    } else {
      PayloadWritten(d, job, n - 1);
      PayloadStep(d, job, n);
      OverStep(d.files, job.payload[..n - 1], job.payload[n - 1]);
      assert job.payload[..n] == job.payload[..n - 1] + [job.payload[n - 1]];
    }
  }

  /** A write that runs to its end leaves exactly this. */
  lemma WholeWrite(d: Directory, job: Job)
    requires Possible(d, Whole(job))
    ensures var r, files := AfterAttempt(d, Whole(job)), Over(d.files, Effect(job.payload));
            r == Directory(false, Normalized(job, files), files) && r.descriptor.Some? && Holds(files, job.payload)
  {
    hide Normalized;
    var n := |job.payload|;
    PayloadWritten(d, job, n);
    assert job.payload[..n] == job.payload;
    var written := Perform(d, job, n + 2);
    assert Perform(d, job, n + 3) == written.(descriptor := Normalized(job, written.files));
    assert Perform(d, job, n + 4) == Perform(d, job, n + 3).(pending := false);
  }

  /** From its first operation to the last but one a write leaves the mark; the last one leaves
      its own descriptor beside its own payload. */
  lemma AttemptLeaves(d: Directory, a: Attempt)
    requires Possible(d, a) && a.done > 0
    ensures var r := AfterAttempt(d, a);
            && (a.done < Length(a.job) ==> r.pending)
            && (a.done == Length(a.job) ==>
                  !r.pending && Holds(r.files, a.job.payload) && r.descriptor == Normalized(a.job, r.files)
                  && r.descriptor.Some?)
  {
    hide Holds, Normalized, Over;
    var n := |a.job.payload|;
    if a.done == 1 {
      assert Perform(d, a.job, 0) == d;
    } else if a.done <= n + 2 {
      PayloadWritten(d, a.job, a.done - 2);
    } else if a.done == n + 3 {
      PayloadWritten(d, a.job, n);
    } else {
      WholeWrite(d, a.job);
      assert a == Whole(a.job);
    }
  }

  // ---------- what a reader can rely on ----------

  /** Write i ran to its end, nothing changed the directory after it, and what is there is its
      descriptor and its payload. */
  ghost predicate PublishedBy(start: Directory, attempts: seq<Attempt>, i: nat)
    requires i < |attempts|
  {
    var d, a := AfterAll(start, attempts), attempts[i];
    && a.done == Length(a.job) && AfterAll(start, attempts[..i + 1]) == d
    && Holds(d.files, a.job.payload) && d.descriptor.Some? && d.descriptor == Normalized(a.job, d.files)
  }

  lemma {:induction false} UnmarkedShowsOne(start: Directory, attempts: seq<Attempt>)
    requires !AfterAll(start, attempts).pending
    ensures AfterAll(start, attempts) == start || exists i | 0 <= i < |attempts| :: PublishedBy(start, attempts, i)
  {
    hide Holds, Normalized;
    if attempts != [] {
      var n := |attempts| - 1;
      var front, a := attempts[..n], attempts[n];
      var before, after := AfterAll(start, front), AfterAll(start, attempts);
      if !Possible(before, a) || a.done == 0 {
        assert after == before;
        UnmarkedShowsOne(start, front);
        if i :| 0 <= i < n && PublishedBy(start, front, i) {
          assert front[..i + 1] == attempts[..i + 1];
          assert PublishedBy(start, attempts, i);
        }
      } else {
        AttemptLeaves(before, a);
        assert attempts[..n + 1] == attempts;
        assert PublishedBy(start, attempts, n);
      }
    }
  }

  /** The payload itself writes the file of every component the job declares. */
  predicate WritesItsComponents(job: Job) {
    forall c | c in job.components ::
      && c in COMPONENT_FILES && COMPONENT_FILES[c] in Effect(job.payload)
      && Effect(job.payload)[COMPONENT_FILES[c]].Some?
  }

  /** Whatever writes crashed and wherever: a reader that finds a descriptor finds it beside the
      payload of the write that published it, and when that write wrote its components itself,
      every declared component is its own.  A reader that finds no descriptor, and is not refused,
      sees the directory as it was before the first write. */
  lemma ReaderSeesOneWrite(start: Directory, attempts: seq<Attempt>)
    requires start.descriptor.None?
    ensures var d := AfterAll(start, attempts);
            && (Read(d).Found? ==>
                  exists i | 0 <= i < |attempts| ::
                    && PublishedBy(start, attempts, i)
                    && Some(Read(d).descriptor) == Normalized(attempts[i].job, d.files)
                    && (WritesItsComponents(attempts[i].job) ==>
                          forall c <- Read(d).descriptor.components ::
                            Some(d.files[COMPONENT_FILES[c]])
                            == Effect(attempts[i].job.payload)[COMPONENT_FILES[c]]))
            && (Read(d).Legacy? ==> d == start)
  {
    hide Effect;
    if !AfterAll(start, attempts).pending {
      UnmarkedShowsOne(start, attempts);
      if i :| 0 <= i < |attempts| && PublishedBy(start, attempts, i) {
        assert AfterAll(start, attempts).descriptor == Normalized(attempts[i].job, AfterAll(start, attempts).files);
      }
    }
  }

  /** A write that runs to its end is found, also after any number of failed ones. */
  lemma CompleteWriteIsFound(start: Directory, attempts: seq<Attempt>, job: Job)
    requires Possible(AfterAll(start, attempts), Whole(job))
    ensures var d := AfterAll(start, attempts + [Whole(job)]);
            Read(d) == Found(Descriptor(job.kind, Declared(job))) && Holds(d.files, job.payload)
  {
    assert (attempts + [Whole(job)])[..|attempts|] == attempts;
    WholeWrite(AfterAll(start, attempts), job);
    hide Over, Effect;
  }

  // ---------- what a descriptor must be ----------

  /** A kind with its components: an evaluation run has its artifacts, results and trajectory, a provenance
      record at least one component, and every component is one of the four with a file. */
  predicate Allowed(kind: string, components: set<string>) {
    && components <= {"artifacts", "eval_results", "model_calls", "trajectory"}
    && ((kind == "eval_run" && {"artifacts", "eval_results", "trajectory"} <= components)
        || (kind == "provenance" && components != {}))
  }

  /** The files of the components are there. */
  predicate FilesThere(files: map<string, string>, components: set<string>) {
    && ("artifacts" in components ==> "artifacts.json" in files)
    && ("eval_results" in components ==> "evals.json" in files)
    && ("model_calls" in components ==> "manifest.jsonl" in files)
    && ("trajectory" in components ==> "trajectory.json" in files)
  }

  lemma ComponentFiles()
    ensures COMPONENT_FILES.Keys == {"artifacts", "eval_results", "model_calls", "trajectory"}
    ensures COMPONENT_FILES["artifacts"] == "artifacts.json" && COMPONENT_FILES["eval_results"] == "evals.json"
    ensures COMPONENT_FILES["model_calls"] == "manifest.jsonl" && COMPONENT_FILES["trajectory"] == "trajectory.json"
  {
    assert |"artifacts"| == 9 && |"eval_results"| == 12 && |"model_calls"| == 11 && |"trajectory"| == 10;
  }

  lemma KnownIff(kind: string, components: set<string>)
    ensures Known(kind, components) <==> Allowed(kind, components)
  {
    ComponentFiles();
    assert "eval_run"[0] != "provenance"[0];
  }

  lemma FilesIff(files: map<string, string>, components: set<string>)
    requires components <= COMPONENT_FILES.Keys
    ensures HasFiles(files, components) <==> FilesThere(files, components)
  {
    ComponentFiles();
    if FilesThere(files, components) {
      forall c <- components ensures c in COMPONENT_FILES && COMPONENT_FILES[c] in files {
        assert c in COMPONENT_FILES.Keys;
      }
    }
  }

  /** A reader is given a descriptor exactly when no mark is set, a descriptor is there, it is of an allowed
      kind with allowed components, and the files of these are there; without a descriptor the directory
      is an old one; anything else is refused. */
  lemma ReadIff(d: Directory)
    ensures Read(d).Legacy? <==> !d.pending && d.descriptor.None?
    ensures Read(d).Found? <==>
              && !d.pending && d.descriptor.Some? && Allowed(d.descriptor.value.kind, d.descriptor.value.components)
              && FilesThere(d.files, d.descriptor.value.components)
    ensures Read(d).Found? ==> d.descriptor == Some(Read(d).descriptor)
  {
    if d.descriptor.Some? {
      KnownIff(d.descriptor.value.kind, d.descriptor.value.components);
      if Known(d.descriptor.value.kind, d.descriptor.value.components) {
        FilesIff(d.files, d.descriptor.value.components);
      }
    }
    hide Known, HasFiles, Allowed, FilesThere;
  }

  /** A write can publish exactly when its components are declared once each, are allowed for its kind, and
      their files are there; it publishes just these. */
  lemma PublishesIff(job: Job, files: map<string, string>)
    ensures Normalized(job, files).Some? <==>
              && (forall i, j | 0 <= i < j < |job.components| :: job.components[i] != job.components[j])
              && Allowed(job.kind, Declared(job)) && FilesThere(files, Declared(job))
    ensures Normalized(job, files).Some? ==>
              Normalized(job, files).value.kind == job.kind
              && forall c :: c in Normalized(job, files).value.components <==> c in job.components
  {
    KnownIff(job.kind, Declared(job));
    if Known(job.kind, Declared(job)) { FilesIff(files, Declared(job)); }
    hide Known, HasFiles, Allowed, FilesThere;
  }

  // ---------- whose the components are ----------

  /** The components a reader finds do not depend on what was in the directory before. */
  ghost predicate Independent(job: Job) {
    forall d, d', c | Possible(d, Whole(job)) && Possible(d', Whole(job)) && c in job.components ::
      SameComponent(AfterAttempt(d, Whole(job)), AfterAttempt(d', Whole(job)), c)
  }

  ghost predicate SameComponent(a: Directory, b: Directory, c: string) {
    && c in COMPONENT_FILES && COMPONENT_FILES[c] in a.files && COMPONENT_FILES[c] in b.files
    && a.files[COMPONENT_FILES[c]] == b.files[COMPONENT_FILES[c]]
  }

  /** Which files are there decides whether a descriptor can be published. */
  lemma SameNames(files: map<string, string>, files': map<string, string>, job: Job,
                  effect: map<string, Option<string>>)
    requires files.Keys == files'.Keys
    ensures Normalized(job, Over(files, effect)).Some? == Normalized(job, Over(files', effect)).Some?
  {
    assert Over(files, effect).Keys == Over(files', effect).Keys;
    hide Over;
  }

  /** Changing the content of a file that is there keeps a write possible. */
  lemma StillPossible(d: Directory, job: Job, name: string, content: string)
    requires Possible(d, Whole(job)) && name in d.files
    ensures Possible(d.(files := d.files[name := content]), Whole(job))
  {
    hide Perform, Effect, Normalized, Over;
    var d', n := d.(files := d.files[name := content]), |job.payload|;
    PayloadWritten(d, job, n);
    PayloadWritten(d', job, n);
    SameNames(d.files, d'.files, job, Effect(job.payload[..n]));
  }

  lemma OthersShowThrough(d: Directory, job: Job, c: string)
    requires Possible(d, Whole(job)) && c in job.components
    ensures c in COMPONENT_FILES
    ensures var name := COMPONENT_FILES[c];
            && (name in Effect(job.payload) ==> Effect(job.payload)[name].Some?)
            && (name !in Effect(job.payload) ==>
                  name in d.files && name in AfterAttempt(d, Whole(job)).files
                  && AfterAttempt(d, Whole(job)).files[name] == d.files[name])
  {
    WholeWrite(d, job);
    hide Effect;
  }

  /** A component file the payload does not write is whatever was there. */
  lemma ForeignShowsThrough(d: Directory, job: Job, c: string)
    requires Possible(d, Whole(job)) && c in job.components
    requires c in COMPONENT_FILES && COMPONENT_FILES[c] !in Effect(job.payload)
    ensures !Independent(job)
  {
    var name := COMPONENT_FILES[c];
    OthersShowThrough(d, job, c);
    var a, b := d.(files := d.files[name := "a"]), d.(files := d.files[name := "b"]);
    StillPossible(d, job, name, "a");
    StillPossible(d, job, name, "b");
    OthersShowThrough(a, job, c);
    OthersShowThrough(b, job, c);
    assert "a"[0] != "b"[0];
    assert !SameComponent(AfterAttempt(a, Whole(job)), AfterAttempt(b, Whole(job)), c);
  }

  /** For a job that can be published at all: the components a reader finds are the publishing
      write's own, for every earlier content of the directory, if and only if its payload writes
      the file of each. */
  lemma ComponentsAreOwn(d: Directory, job: Job)
    requires Possible(d, Whole(job))
    ensures WritesItsComponents(job) <==> Independent(job)
  {
    if WritesItsComponents(job) {
      forall d, d', c | Possible(d, Whole(job)) && Possible(d', Whole(job)) && c in job.components
        ensures SameComponent(AfterAttempt(d, Whole(job)), AfterAttempt(d', Whole(job)), c)
      {
        WholeWrite(d, job);
        WholeWrite(d', job);
        hide Over, Effect, Normalized;
      }
    } else {
      var c :| c in job.components &&
        (c in COMPONENT_FILES && COMPONENT_FILES[c] in Effect(job.payload) ==>
           Effect(job.payload)[COMPONENT_FILES[c]].None?);
      OthersShowThrough(d, job, c);
      ForeignShowsThrough(d, job, c);
    }
  }

  function CrashedJob(): Job {
    Job("provenance", ["model_calls"], [Put("manifest.jsonl", "old calls")])
  }

  function LazyJob(): Job {
    Job("provenance", ["model_calls", "trajectory"], [Put("trajectory.json", "new steps")])
  }

  lemma EffectOfOne(op: FileOp)
    ensures Effect([op]) == map[op.name := if op.Put? then Some(op.content) else None]
  {
    assert [op][..0] == [];
  }

  lemma AfterTwo(start: Directory, a: Attempt, b: Attempt)
    ensures AfterAll(start, [a, b]) == AfterAttempt(AfterAttempt(start, a), b)
  {
    assert [a, b][..1] == [a] && [a][..0] == [];
    assert AfterAll(start, [a]) == AfterAttempt(AfterAll(start, []), a);
  }

  lemma AfterCrash()
    ensures AfterAttempt(Directory(false, None, map[]), Attempt(CrashedJob(), 3, None))
            == Directory(true, None, map["manifest.jsonl" := "old calls"])
  {
    PayloadWritten(Directory(false, None, map[]), CrashedJob(), 1);
    assert CrashedJob().payload[..1] == CrashedJob().payload;
    EffectOfOne(CrashedJob().payload[0]);
    hide Perform;
  }

  lemma LazyFiles()
    ensures var files := Over(map["manifest.jsonl" := "old calls"], Effect(LazyJob().payload));
            && files == map["manifest.jsonl" := "old calls", "trajectory.json" := "new steps"]
            && "manifest.jsonl" !in Effect(LazyJob().payload)
            && Declared(LazyJob()) == {"model_calls", "trajectory"}
            && Normalized(LazyJob(), files).Some? && !WritesItsComponents(LazyJob())
  {
    var job := LazyJob();
    EffectOfOne(job.payload[0]);
    assert job.components[0] == "model_calls" && job.components[1] == "trajectory";
    assert "model_calls"[0] != "trajectory"[0] && "manifest.jsonl"[0] != "trajectory.json"[0];
  }

  /** It matters: a first write crashes after its call manifest, a second one declares the calls it
      finds and writes only its trajectory; the reader is shown the first write's calls. */
  lemma StaleComponent()
    ensures var d := AfterAll(Directory(false, None, map[]), [Attempt(CrashedJob(), 3, None), Whole(LazyJob())]);
            && Read(d).Found? && "model_calls" in Read(d).descriptor.components
            && "manifest.jsonl" in d.files && d.files["manifest.jsonl"] == "old calls"
            && "manifest.jsonl" !in Effect(LazyJob().payload) && !WritesItsComponents(LazyJob())
  {
    hide Perform, Over, Effect, WritesItsComponents;
    var job, crashed := LazyJob(), Directory(true, None, map["manifest.jsonl" := "old calls"]);
    AfterTwo(Directory(false, None, map[]), Attempt(CrashedJob(), 3, None), Whole(job));
    AfterCrash();
    LazyFiles();
    PayloadWritten(crashed, job, 1);
    assert job.payload[..1] == job.payload;
    WholeWrite(crashed, job);
  }
}
