/** Damage that a scan of the directory can see, and damage it passes over.

  Looplet documents that without a selected identity every corrupt file blocks recovery.  The scan
  reads only the resume fields, and passes over a file of another identity before it verifies its
  records.  So a file whose damage lies under other fields blocks nothing, although a reader of
  everything would refuse the directory. */
module ScanDamage {
  import opened ChunkTree
  import opened Records
  import opened RecordReader
  import opened CheckpointFiles
  import opened ResumeSelection

  /** The file cannot be read in full, or some record under it is damaged. */
  ghost predicate Corrupt(src: Source, rank: map<Digest, nat>, content: Content)
    requires Good(src, rank)
  {
    ReadFile(src, rank, content, false).None? || !Intact(src, rank, content)
  }

  /** Its resume fields can be read, and they name another identity. */
  predicate PassedOver(src: Source, ghost rank: map<Digest, nat>, runId: Option<string>, content: Content)
    requires Good(src, rank)
  {
    var part := ReadFile(src, rank, content, true);
    part.Some? && RunId(src.host, part.value) != runId
  }

  /** A file of no other run's namespace that the scan passes over and a full reader cannot read. */
  ghost predicate Overlooked(src: Source, rank: map<Digest, nat>, runId: Option<string>, file: File)
    requires Good(src, rank)
  {
    && !Foreign(runId, file.stem) && PassedOver(src, rank, runId, file.content)
    && ReadFile(src, rank, file.content, false).None?
  }

  /** The scan is stopped by exactly the corrupt files that it neither passes over for their identity
      nor excuses for their name. */
  lemma BrokenIff(src: Source, rank: map<Digest, nat>, runId: Option<string>, file: File)
    requires Good(src, rank)
    ensures Look(src, rank, runId, file, true).Broken? <==>
              && Corrupt(src, rank, file.content) && !PassedOver(src, rank, runId, file.content)
              && !Foreign(runId, file.stem)
  {
    ScanSeesWhole(src, rank, file.content);
    hide ReadFile, Intact, RunId, Foreign, Summary, OrderOf, IsTerminal, HasTurnState;
  }

  /** The two scans see the same of every file that is not overlooked, and of an overlooked one the
      full scan sees the damage and the other nothing. */
  lemma LooksCompare(src: Source, rank: map<Digest, nat>, runId: Option<string>, file: File)
    requires Good(src, rank)
    ensures var full, part := Look(src, rank, runId, file, false), Look(src, rank, runId, file, true);
            if Overlooked(src, rank, runId, file) then full.Broken? && part.Skip?
            else SeesAsMuch(src.host, full, part, true)
  {
    hide ReadFile, FromDict, SoundAt;
    ScanSeesWhole(src, rank, file.content);
    hide Intact, RunId, Foreign, Summary, OrderOf, IsTerminal, HasTurnState;
  }

  lemma {:induction false} BrokenFails(host: Host, runId: Option<string>, files: seq<File>, sights: seq<Sight>,
                                       i: nat, n: nat)
    requires i < n <= |sights| == |files| && sights[i].Broken?
    ensures ScanAll(host, runId, files, sights, n).Failed?
    decreases n
  {
    if i < n - 1 { BrokenFails(host, runId, files, sights, i, n - 1); }
  }

  /** A corrupt file blocks recovery, unless its resume fields name another identity or its name
      another run. */
  lemma CorruptBlocks(src: Source, rank: map<Digest, nat>, runId: Option<string>, files: seq<File>, i: nat)
    requires Good(src, rank) && i < |files| && Corrupt(src, rank, files[i].content)
    requires !PassedOver(src, rank, runId, files[i].content) && !Foreign(runId, files[i].stem)
    ensures Conclude(src, rank, files, ScanAll(src.host, runId, files, Looks(src, rank, runId, files, true), |files|))
            == Refused
  {
    BrokenIff(src, rank, runId, files[i]);
    hide Corrupt, PassedOver, Foreign, Look, ScanAll;
    BrokenFails(src.host, runId, files, Looks(src, rank, runId, files, true), i, |files|);
  }

  /** Scanning only the resume fields concludes as reading everything does, if and only if it refuses
      anyway or overlooks no file. */
  lemma ScansAgreeIff(src: Source, rank: map<Digest, nat>, runId: Option<string>, files: seq<File>)
    requires Good(src, rank) && OwnNames(runId, files, Looks(src, rank, runId, files, true))
    ensures var full, part := Looks(src, rank, runId, files, false), Looks(src, rank, runId, files, true);
            Conclude(src, rank, files, ScanAll(src.host, runId, files, part, |files|))
            == Conclude(src, rank, files, ScanAll(src.host, runId, files, full, |files|))
            <==> Hopeless(src.host, part, |files|)
                 || forall i | 0 <= i < |files| :: !Overlooked(src, rank, runId, files[i])
  {
    hide Look, Overlooked, Conclude, ScanAll, OwnNames, Hopeless, SeesAsMuch, Continues, NothingLeft;
    var full, part := Looks(src, rank, runId, files, false), Looks(src, rank, runId, files, true);
    ResumesLatest(src, rank, runId, files);
    forall i | 0 <= i < |files|
      ensures if Overlooked(src, rank, runId, files[i]) then full[i].Broken? && part[i].Skip?
              else SeesAsMuch(src.host, full[i], part[i], true)
    {
      LooksCompare(src, rank, runId, files[i]);
    }
    if i :| 0 <= i < |files| && Overlooked(src, rank, runId, files[i]) {
      BrokenFails(src.host, runId, files, full, i, |files|);
      FailedIsRefused(src, rank, files, ScanAll(src.host, runId, files, full, |files|));
    } else {
      SameScan(src.host, runId, files, full, part, |files|, true);
    }
  }

  lemma FailedIsRefused(src: Source, rank: map<Digest, nat>, files: seq<File>, scan: Scan)
    requires Good(src, rank) && scan.Failed?
    ensures Conclude(src, rank, files, scan) == Refused
  {}

  // ---------- which corrupt files block recovery ----------

  /** What a resume of the directory comes to. */
  ghost function Resumed(src: Source, rank: map<Digest, nat>, runId: Option<string>, files: seq<File>): Resumption
    requires Good(src, rank)
  {
    Conclude(src, rank, files, ScanAll(src.host, runId, files, Looks(src, rank, runId, files, true), |files|))
  }

  /** A corrupt file blocks recovery of every directory it lies in, if and only if its resume fields
      name no other identity and its name no other run. */
  lemma CorruptBlocksIff(src: Source, rank: map<Digest, nat>, runId: Option<string>, file: File)
    requires Good(src, rank) && Corrupt(src, rank, file.content)
    ensures (forall files: seq<File> | file in files :: Resumed(src, rank, runId, files) == Refused)
            <==> !PassedOver(src, rank, runId, file.content) && !Foreign(runId, file.stem)
  {
    if !PassedOver(src, rank, runId, file.content) && !Foreign(runId, file.stem) {
      forall files: seq<File> | file in files ensures Resumed(src, rank, runId, files) == Refused {
        var i :| 0 <= i < |files| && files[i] == file;
        CorruptBlocks(src, rank, runId, files, i);
      }
    } else {
      AloneIsNothing(src, rank, runId, file);
      assert file in [file];
    }
  }

  /** A corrupt file that is passed over is as good as not there. */
  lemma AloneIsNothing(src: Source, rank: map<Digest, nat>, runId: Option<string>, file: File)
    requires Good(src, rank) && Corrupt(src, rank, file.content)
    requires PassedOver(src, rank, runId, file.content) || Foreign(runId, file.stem)
    ensures Resumed(src, rank, runId, [file]) == Nothing
  {
    BrokenIff(src, rank, runId, file);
    CorruptUnseen(src, rank, runId, file);
    hide Look, PassedOver, Foreign, Corrupt;
    var looks := Looks(src, rank, runId, [file], true);
    assert looks[0].Skip?;
    assert ScanAll(src.host, runId, [file], looks, 0) == Scanned(None, None);
  }

  lemma CorruptUnseen(src: Source, rank: map<Digest, nat>, runId: Option<string>, file: File)
    requires Good(src, rank) && Corrupt(src, rank, file.content)
    ensures !Look(src, rank, runId, file, true).Seen?
  {
    ScanSeesWhole(src, rank, file.content);
    hide ReadFile, Intact, RunId, Foreign, Summary, OrderOf, IsTerminal, HasTurnState;
  }
}
