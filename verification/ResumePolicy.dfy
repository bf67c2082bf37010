/** How checkpoints are ordered, which of them have ended, and whose a file is: what the choice of a
  checkpoint rests on, told from the fields and the names. */
module ResumePolicy {
  import opened ChunkTree
  import opened Records
  import opened CheckpointFiles
  import opened ResumeSelection

  // ---------- the order ----------

  /** Of two orders that differ exactly one is later; the turns decide, then the requests, then the step,
      then the time. */
  lemma LaterIsTotal(a: Order, b: Order)
    ensures a == b ==> !Later(a, b)
    ensures a != b ==> (Later(a, b) <==> !Later(b, a))
    ensures a.turns > b.turns ==> Later(a, b)
    ensures a.turns == b.turns && a.calls > b.calls ==> Later(a, b)
    ensures a.turns == b.turns && a.calls == b.calls && a.step > b.step ==> Later(a, b)
    ensures a.turns == b.turns && a.calls == b.calls && a.step == b.step && a.createdAt > b.createdAt ==> Later(a, b)
  {}

  lemma LaterTwice(a: Order, b: Order, c: Order)
    requires Later(a, b) && Later(b, c)
    ensures Later(a, c)
  {}

  // ---------- whose a file is ----------

  lemma {:induction false} MentionsInside(front: string, part: string, back: string)
    ensures Mentions(front + part + back, part)
  {
    var s := front + part + back;
    if front == "" {
      assert s == part + back;
    } else {
      MentionsInside(front[1..], part, back);
      assert s[1..] == front[1..] + part + back;
    }
  }

  lemma {:induction false} MentionedWhere(s: string, part: string) returns (front: string, back: string)
    requires Mentions(s, part)
    ensures s == front + part + back
  {
    if part <= s {
      front, back := "", s[|part|..];
    } else {
      front, back := MentionedWhere(s[1..], part);
      front := [s[0]] + front;
    }
  }

  /** A file is another run's exactly when there is a selected run, its name has the separator somewhere,
      and it does not begin with the selected run's name and the separator. */
  lemma ForeignIff(runId: Option<string>, stem: string)
    ensures Foreign(runId, stem) <==>
              && runId.Some?
              && (exists front: string, back: string :: stem == front + "__" + back)
              && !exists key: string :: stem == runId.value + "__" + key
  {
    if Mentions(stem, "__") { var front, back := MentionedWhere(stem, "__"); }
    if front: string, back: string :| stem == front + "__" + back { MentionsInside(front, "__", back); }
    if runId.Some? && runId.value + "__" <= stem {
      assert stem == runId.value + "__" + stem[|runId.value + "__"|..];
    }
  }

  /** So what one run saves is never another's to itself, and is another's to every run whose name it does
      not begin with. */
  lemma OwnIsNotForeign(run: string, other: string, key: string)
    ensures !Foreign(Some(run), run + "__" + key)
    ensures !(run + "__" <= other + "__" + key) ==> Foreign(Some(run), other + "__" + key)
    ensures !Foreign(None, other + "__" + key)
  {
    MentionsInside(other, "__", key);
  }

  // ---------- runs that have ended ----------

  /** The file that is resumed has ended, by its status, its phase or its reason, exactly when some checkpoint
      of the run has: an ended one hides all that have not.  And it is resumed only with a turn state. */
  lemma EndedHidesOthers(src: Source, rank: map<Digest, nat>, runId: Option<string>, files: seq<File>, c: Checkpoint)
    requires Good(src, rank) && OwnNames(runId, files, Looks(src, rank, runId, files, true))
    requires var sights := Looks(src, rank, runId, files, true);
             Conclude(src, rank, files, ScanAll(src.host, runId, files, sights, |files|)) == Resume(c)
    ensures var sights := Looks(src, rank, runId, files, true);
            var ended := c.status == "completed" || c.status == "failed" || c.status == "cancelled"
                         || c.phase == "terminal" || c.reason != None;
            && (ended <==> exists i | 0 <= i < |sights| ::
                             sights[i].Seen?
                             && var s := sights[i].checkpoint;
                                || s.status == "completed" || s.status == "failed" || s.status == "cancelled"
                                || s.phase == "terminal" || s.reason != None)
            && (ended ==> "looplet_assistant_turns" in c.metadata)
  {
    hide Looks, Conclude, ScanAll, OwnNames, Ranked;
    ResumedIsTerminal(src, rank, runId, files, c);
  }

  lemma ResumedIsTerminal(src: Source, rank: map<Digest, nat>, runId: Option<string>, files: seq<File>, c: Checkpoint)
    requires Good(src, rank) && OwnNames(runId, files, Looks(src, rank, runId, files, true))
    requires var sights := Looks(src, rank, runId, files, true);
             Conclude(src, rank, files, ScanAll(src.host, runId, files, sights, |files|)) == Resume(c)
    ensures var sights := Looks(src, rank, runId, files, true);
            && (IsTerminal(c) <==> exists i | 0 <= i < |sights| :: sights[i].Seen? && IsTerminal(sights[i].checkpoint))
            && (IsTerminal(c) ==> HasTurnState(c))
  {
    hide IsTerminal, HasTurnState, OrderOf, Summary, RunId, ReadFile, Look, Later, OwnNames, Conclude, ScanAll,
         Hopeless, NothingLeft, Authoritative, Finished;
    var sights := Looks(src, rank, runId, files, true);
    ResumesLatest(src, rank, runId, files);
    assert Continues(src, rank, files, sights, c);
    var i :| 0 <= i < |files| && Authoritative(src.host, sights, |files|, i)
      && ReadFile(src, rank, files[i].content, false) == Some(c) && (Finished(sights) ==> HasTurnState(c));
    AuthoritativeSeen(src.host, sights, i);
    SeenIsRead(src, rank, runId, files, i);
    EndedIffFinished(src.host, sights, i);
    hide Continues, Looks;
  }

  lemma EndedIffFinished(host: Host, sights: seq<Sight>, i: nat)
    requires i < |sights| && sights[i].Seen? && Authoritative(host, sights, |sights|, i)
    ensures Finished(sights) <==> IsTerminal(sights[i].checkpoint)
    ensures Finished(sights) <==> exists j | 0 <= j < |sights| :: sights[j].Seen? && IsTerminal(sights[j].checkpoint)
  {
    hide IsTerminal, OrderOf, Later;
    if j :| 0 <= j < |sights| && sights[j].Seen? && IsTerminal(sights[j].checkpoint) {
      assert Candidate(sights, true, j);
    }
  }
}
