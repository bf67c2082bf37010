/** Saving a checkpoint and reading its file back. */
module SavedCheckpoints {
  import opened ChunkTree
  import opened Documents
  import opened Records
  import opened RecordReader
  import opened CheckpointDocuments
  import opened CheckpointReader
  import opened CheckpointFiles
  import opened ResumeSelection

  /** The file reads as this checkpoint, and every record under it can be read. */
  ghost predicate Saved(src: Source, rank: map<Digest, nat>, content: Content, c: Checkpoint)
    requires Good(src, rank)
  {
    ReadFile(src, rank, content, false) == Some(c) && Intact(src, rank, content)
  }

  /** A plain file reads back as the checkpoint written to it. */
  lemma PlainReadsBack(src: Source, rank: map<Digest, nat>, c: Checkpoint)
    requires Good(src, rank)
    ensures Saved(src, rank, Plain(Payload(c)), c) <==> src.host.isInt(c.step)
  {
    PayloadParses(src.host, c);
    hide FromDict, Payload;
  }

  /** An incremental file reads back as the checkpoint saved, exactly when its step is an integer and
      the run identity written as text into the summary is the text of the one that is read; the
      manifest of a saved document is never damaged. */
  lemma DocumentReadsBack(src: Source, rank: map<Digest, nat>, enc: Encoders, views: Views,
                          payload: Documents.Value, summary: Documents.Value, d: Doc, c: Checkpoint,
                          id: Option<string>)
    requires Good(src, rank) && PlainEncoders(enc)
    requires DocOf(enc, views, Document(payload, summary)) == Some(d) && Held(src.hash, src.store, d)
    requires Normal(enc, views, payload) == Payload(c) && Normal(enc, views, summary) == SummaryWith(c, id)
    ensures var content := Manifest(Root(src.hash, d));
            && Intact(src, rank, content)
            && (Saved(src, rank, content, c) <==> src.host.isInt(c.step) && id == RunId(src.host, c))
            && (!Saved(src, rank, content, c) ==> ReadFile(src, rank, content, false).None?)
  {
    hide DocOf, Normal, Load, Held, Document, FromDict, Payload, SoundAt, SummaryWith, RunId, Project;
    SavedLoads(src.hash, enc, views, src.store, rank, payload, summary, d, false, Everything);
    SavedLoads(src.hash, enc, views, src.store, rank, payload, summary, d, true, Everything);
    SavedIsSound(src, rank, enc, views, Document(payload, summary), d);
    WrittenAreObjects(c, id);
    KeptWhole(Payload(c));
    KeptWhole(SummaryWith(c, id));
    PayloadParses(src.host, c);
    SummariesDiffer(c, RunId(src.host, c), id);
  }

  lemma SavedIsSound(src: Source, rank: map<Digest, nat>, enc: Encoders, views: Views, v: Documents.Value, d: Doc)
    requires Good(src, rank) && PlainEncoders(enc) && DocOf(enc, views, v) == Some(d) && Held(src.hash, src.store, d)
    ensures SoundAt(src.hash, src.store, rank, Root(src.hash, d))
  {
    hide DocOf, Normal, Held, SoundAt, Decode, DocJson;
    DocReadsAsNormal(enc, views, v, d);
    HeldDecodes(src.hash, src.store, rank, d);
    SoundIffDecodes(src.hash, src.store, rank, Root(src.hash, d));
  }

  lemma WrittenAreObjects(c: Checkpoint, id: Option<string>)
    ensures Payload(c).JObject? && SummaryWith(c, id).JObject?
  {}

  lemma KeptWhole(j: Json)
    ensures Project(j, Everything) == j
  {}

  // ---------- an improper cursor that is chosen ----------

  /** Its turn state is no object, so there is no order to compare it by. */
  function Improper(): Checkpoint {
    Checkpoint("0", Bodies(map[], map[], map[], map[], None), map[TURN_STATE_KEY := JAtom(Bool(true))], "0",
               "running", "running", None, None)
  }

  lemma ImproperIsSeen(src: Source, rank: map<Digest, nat>, stem: string)
    requires Good(src, rank) && src.host.isInt("0")
    ensures var content := Plain(Payload(Improper()));
            && ReadFile(src, rank, content, false) == Some(Improper())
            && Look(src, rank, None, File(stem, content), true) == Seen(Improper())
    ensures OrderOf(src.host, Improper()).None? && !IsTerminal(Improper())
  {
    PlainReadsBack(src, rank, Improper());
    assert RunId(src.host, Improper()) == None;
    hide Payload, OrderOf, RunId, FromDict;
  }

  /** Alone in a directory it is resumed; it would be refused only beside another. */
  lemma ImproperIsResumed(src: Source, rank: map<Digest, nat>)
    requires Good(src, rank) && src.host.isInt("0")
    ensures var files := [File("step_0", Plain(Payload(Improper())))];
            var scan := ScanAll(src.host, None, files, Looks(src, rank, None, files, true), 1);
            && OrderOf(src.host, Improper()).None?
            && Conclude(src, rank, files, scan) == Resume(Improper())
  {
    hide Payload, OrderOf, IsTerminal, ReadFile, Look, Improper;
    ImproperIsSeen(src, rank, "step_0");
    var files := [File("step_0", Plain(Payload(Improper())))];
    var looks := Looks(src, rank, None, files, true);
    assert looks[0] == Seen(Improper());
    assert ScanAll(src.host, None, files, looks, 0) == Scanned(None, None);
  }

  lemma TwoImproperRefuse(src: Source, rank: map<Digest, nat>)
    requires Good(src, rank) && src.host.isInt("0")
    ensures var files := [File("step_0", Plain(Payload(Improper()))), File("step_1", Plain(Payload(Improper())))];
            var scan := ScanAll(src.host, None, files, Looks(src, rank, None, files, true), 2);
            Conclude(src, rank, files, scan) == Refused
  {
    hide Payload, OrderOf, IsTerminal, ReadFile, Look, Improper;
    ImproperIsSeen(src, rank, "step_0");
    ImproperIsSeen(src, rank, "step_1");
    var c := Improper();
    var files := [File("step_0", Plain(Payload(c))), File("step_1", Plain(Payload(c)))];
    var looks := Looks(src, rank, None, files, true);
    assert looks[0] == Seen(c) && looks[1] == Seen(c);
    assert ScanAll(src.host, None, files, looks, 0) == Scanned(None, None);
    assert ScanAll(src.host, None, files, looks, 1) == Scanned(Some(0), None);
  }
}
