/** What recovery finds on disk after a crash between a request and its acknowledgement.

  The files a run of the admission protocol has left are read by the directory scan; it resumes from
  a file the protocol calls selected, and that one refuses while a request is open. */
module RequestRecovery {
  import opened ChunkTree
  import opened Records
  import opened CheckpointFiles
  import opened ResumeSelection
  import opened ScanDamage
  import opened PendingDispatch
  import opened TurnState
  import P = AdmissionProtocol

  /** Of running checkpoints with proper cursors the scan resumes one that none is later than, and nothing
      only when there is none. */
  lemma LatestIsResumed(src: Source, rank: map<Digest, nat>, runId: Option<string>, files: seq<File>, d: Directory)
      returns (key: string)
    requires Good(src, rank) && OnDisk(src, rank, runId, files, d)
    requires forall k <- d :: OrderOf(src.host, d[k]).Some? && !IsTerminal(d[k])
    ensures var r := Resumed(src, rank, runId, files);
            if d == map[] then r == Nothing
            else
              && key in d && r == Resume(d[key])
              && forall k <- d :: !Later(OrderOf(src.host, d[k]).value, OrderOf(src.host, d[key]).value)
  {
    hide OrderOf, IsTerminal, Later, ReadFile, Look, ScanAll, Intact, RunId, FirstLatest, OwnNames, Before;
    LooksAreSights(src, rank, runId, files, d);
    ScanGoesThrough(src.host, runId, files, d);
    SummaryScanSelectsSame(src, rank, runId, files);
    hide Looks;
    var scan := ScanAll(src.host, runId, files, Sights(Stems(files), d), |files|);
    key := "";
    if d == map[] {
      NothingPicked(src.host, Stems(files), d, scan.best);
    } else {
      var any :| any in d;
      var at := IndexOf(Stems(files), d, any);
      PickNone(src.host, Stems(files), d, scan.best, at);
      var i := scan.best.value;
      key := files[i].stem;
      PickedIsLatest(src.host, Stems(files), d, i);
      PickIsRead(src, rank, runId, files, d, i);
    }
  }

  lemma PickIsRead(src: Source, rank: map<Digest, nat>, runId: Option<string>, files: seq<File>, d: Directory, i: nat)
    requires Good(src, rank) && OnDisk(src, rank, runId, files, d) && i < |files| && files[i].stem in d
    ensures ReadFile(src, rank, files[i].content, false) == Some(d[files[i].stem])
  {
    hide ReadFile, Look, Intact, RunId, Lists;
  }

  lemma NothingPicked(host: Host, stems: seq<string>, d: Directory, pick: Option<nat>)
    requires d == map[] && FirstLatest(host, Sights(stems, d), false, |stems|, pick)
    ensures pick == None
  {
    hide OrderOf;
  }

  lemma PickNone(host: Host, stems: seq<string>, d: Directory, pick: Option<nat>, at: nat)
    requires FirstLatest(host, Sights(stems, d), false, |stems|, pick)
    requires at < |stems| && stems[at] in d && !IsTerminal(d[stems[at]])
    ensures pick.Some? && pick.value < |stems| && stems[pick.value] in d
  {
    hide OrderOf, IsTerminal;
    assert Candidate(Sights(stems, d), false, at);
  }

  lemma PickedIsLatest(host: Host, stems: seq<string>, d: Directory, i: nat)
    requires Lists(stems, d) && i < |stems| && stems[i] in d
    requires FirstLatest(host, Sights(stems, d), false, |stems|, Some(i))
    requires forall k <- d :: OrderOf(host, d[k]).Some? && !IsTerminal(d[k])
    ensures forall k <- d :: !Later(OrderOf(host, d[k]).value, OrderOf(host, d[stems[i]]).value)
  {
    hide OrderOf, IsTerminal, Before;
    forall k <- d ensures !Later(OrderOf(host, d[k]).value, OrderOf(host, d[stems[i]]).value) {
      var j := IndexOf(stems, d, k);
      assert Candidate(Sights(stems, d), false, j);
      if j == i { NotLater(OrderOf(host, d[k]).value); }
    }
    hide *;
  }

  lemma NotLater(o: Order)
    ensures !Later(o, o)
  {}

  /** After any run of the protocol whose files are on disk, none of them terminal: recovery reads a file
      the protocol calls selected, and while a request that was sent is unacknowledged, that file refuses. */
  lemma CrashDuringRequest(src: Source, rank: map<Digest, nat>, runId: Option<string>, s: P.Setting,
                           actions: seq<P.Action>, files: seq<File>) returns (key: string)
    requires Good(src, rank) && s.host == src.host && ReadsDigits(src.host)
    requires OnDisk(src, rank, runId, files, P.Run(s, actions).files)
    requires forall k <- P.Run(s, actions).files :: !IsTerminal(P.Run(s, actions).files[k])
    ensures var w := P.Run(s, actions);
            var r := Resumed(src, rank, runId, files);
            && (w.files == map[] ==> r == Nothing && w.sent == [])
            && (w.files != map[] ==> P.Selected(s.host, w.files, key) && r == Resume(w.files[key]))
            && (forall n | n in w.sent && n !in w.acknowledged ::
                  r.Resume? && VerdictOf(src.host, r.checkpoint) != Resumable)
  {
    var w := P.Run(s, actions);
    P.RunKeepsInv(s, actions);
    AllOrdered(s, w);
    key := LatestIsResumed(src, rank, runId, files, w.files);
    NothingSent(s, w);
    if w.files != map[] {
      LatestIsSelected(s, w, key);
      forall n | n in w.sent && n !in w.acknowledged ensures VerdictOf(src.host, w.files[key]) != Resumable {
        P.OpenRequestBlocksResume(s, actions, n, key);
      }
    }
    hide *;
  }

  lemma AllOrdered(s: P.Setting, w: P.World)
    requires P.Inv(s, w)
    ensures forall k <- w.files :: OrderOf(s.host, w.files[k]).Some?
  {
    hide P.Read, OrderOf, P.SentOk, P.ProcessOk, ReadsDigits;
    forall k <- w.files ensures OrderOf(s.host, w.files[k]).Some? { assert P.FileOk(s, w.files[k]); }
  }

  lemma NothingSent(s: P.Setting, w: P.World)
    requires P.Inv(s, w)
    ensures w.files == map[] ==> w.sent == []
  {
    hide P.Read, P.ProcessOk, P.FilesOk, ReadsDigits, P.Flagged;
    if w.files == map[] && w.sent != [] {
      assert w.sent[0] in w.sent;
      P.NothingCounted(s.host, w.sent[0]);
      assert false;
    }
  }

  lemma LatestIsSelected(s: P.Setting, w: P.World, key: string)
    requires key in w.files && forall k <- w.files :: OrderOf(s.host, w.files[k]).Some? && !IsTerminal(w.files[k])
    requires forall k <- w.files :: !Later(OrderOf(s.host, w.files[k]).value, OrderOf(s.host, w.files[key]).value)
    ensures P.Selected(s.host, w.files, key)
  {
    hide OrderOf, IsTerminal, Later;
  }
}
