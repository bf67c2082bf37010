/** Exactly when compaction keeps a conversation replayable whose answers are all to open calls.

  Nothing is assumed here about roles, origins or turns: the conditions are about which calls are
  open at the cut, which of them the carried user message makes, and how their answers fall. */
module CompactionExact {
  import opened ChunkTree
  import opened Replay
  import opened Compaction
  import opened CompactionFlow

  // ---------- calls and answers ----------

  /** The calls open after the messages, an answer closing one, a message opening those it makes. */
  function OpenCalls(open: set<string>, ms: seq<Message>): set<string>
    decreases |ms|
  {
    if ms == [] then open else OpenCalls(NextCalls(open, ms[0]), ms[1..])
  }

  /** Every result answers a call that is open at its place. */
  predicate ResultsPaired(open: set<string>, ms: seq<Message>)
    decreases |ms|
  {
    ms == [] ||
    ((ms[0].result.Some? ==> ResultId(ms[0]) in open) && ResultsPaired(NextCalls(open, ms[0]), ms[1..]))
  }

  /** The answer to a call that was cut away arrives while another call is open. */
  predicate Orphaned(open: set<string>, dropped: set<string>, ms: seq<Message>)
    decreases |ms|
  {
    ms != [] &&
    if ms[0].result.Some? && ResultId(ms[0]) in dropped then
      open != {} || Orphaned(open, dropped - {ResultId(ms[0])}, ms[1..])
    else Orphaned(NextCalls(open, ms[0]), dropped, ms[1..])
  }

  /** What decides replay: every carried call is still open at the cut, and no answer to a call cut
      away arrives while another call is open. */
  predicate SafeToCompact(ms: seq<Message>, keep: nat) {
    |ms| <= keep + 1 ||
    (var c := Cut(ms, keep);
     0 < c <= |ms| ==>
       var open, carried := OpenCalls({}, ms[..c]), CarriedCalls(ms[..c]);
       carried <= open && !Orphaned(carried, open - carried, ms[c..]))
  }

  // ---------- the kept part by itself ----------

  lemma {:induction false} PairedSuffix(open: set<string>, a: seq<Message>, b: seq<Message>)
    requires ResultsPaired(open, a + b)
    ensures ResultsPaired(OpenCalls(open, a), b)
    decreases |a|
  {
    hide NextCalls;
    if a == [] {
      assert a + b == b;
    } else {
      assert (a + b)[1..] == a[1..] + b;
      PairedSuffix(NextCalls(open, a[0]), a[1..], b);
    }
  }

  lemma {:induction false} SettlesSplit(open: set<string>, a: seq<Message>, b: seq<Message>)
    requires Settles(open, a + b)
    ensures Settles(OpenCalls(open, a), b)
    decreases |a|
  {
    hide NextCalls;
    if a == [] {
      assert a + b == b;
    } else {
      assert (a + b)[1..] == a[1..] + b;
      SettlesSplit(NextCalls(open, a[0]), a[1..], b);
    }
  }

  /** With some of the open calls cut away, the rest settles exactly when no dropped call's answer
      arrives beside an open call. */
  lemma {:induction false} KeptSettles(open: set<string>, dropped: set<string>, ms: seq<Message>)
    requires Settles(open + dropped, ms) && open !! dropped
    ensures Settles(open, ms) <==> !Orphaned(open, dropped, ms)
    decreases |ms|
  {
    hide CallIds;
    if ms == [] {
      assert open == {};
    } else {
      var m, rest := ms[0], ms[1..];
      if m.result.Some? && ResultId(m) in dropped {
        var id := ResultId(m);
        assert open + dropped - {id} == open + (dropped - {id});
        if open == {} {
          assert NextCalls({}, m) == {};
          KeptSettles(open, dropped - {id}, rest);
        }
      } else {
        assert NextCalls(open + dropped, m) == NextCalls(open, m) + dropped;
        KeptSettles(NextCalls(open, m), dropped, rest);
      }
    }
  }

  /** A call that is open in the kept part alone is never closed again. */
  lemma {:induction false} StrayStaysOpen(whole: set<string>, open: set<string>, x: string, ms: seq<Message>)
    requires ResultsPaired(whole, ms) && x in open && x !in whole
    ensures !Settles(open, ms)
    decreases |ms|
  {
    hide CallIds;
    if ms != [] && Settles(open, ms) {
      StrayStaysOpen(NextCalls(whole, ms[0]), NextCalls(open, ms[0]), x, ms[1..]);
    }
  }

  // ---------- the exact condition ----------

  /** What is safe to compact compacts well. */
  lemma SafeCompactsWell(ms: seq<Message>, keep: nat)
    requires Settles({}, ms) && SafeToCompact(ms, keep)
    ensures CompactsWell(ms, keep)
  {
    hide Settles, OpenCalls, Orphaned, CarriedCalls, Cut;
    if |ms| > keep + 1 && 0 < Cut(ms, keep) <= |ms| {
      var c := Cut(ms, keep);
      var open, carried := OpenCalls({}, ms[..c]), CarriedCalls(ms[..c]);
      assert ms == ms[..c] + ms[c..] && carried + (open - carried) == open;
      SettlesSplit({}, ms[..c], ms[c..]);
      KeptSettles(carried, open - carried, ms[c..]);
    }
  }

  /** And where every result answers an open call, nothing else does. */
  lemma SafeIffCompactsWell(ms: seq<Message>, keep: nat)
    requires Settles({}, ms) && ResultsPaired({}, ms)
    ensures CompactsWell(ms, keep) <==> SafeToCompact(ms, keep)
  {
    hide Settles, OpenCalls, Orphaned, CarriedCalls, Cut, ResultsPaired;
    if |ms| > keep + 1 && 0 < Cut(ms, keep) <= |ms| {
      var c := Cut(ms, keep);
      var open, carried := OpenCalls({}, ms[..c]), CarriedCalls(ms[..c]);
      assert ms == ms[..c] + ms[c..];
      SettlesSplit({}, ms[..c], ms[c..]);
      PairedSuffix({}, ms[..c], ms[c..]);
      if carried <= open {
        assert carried + (open - carried) == open;
        KeptSettles(carried, open - carried, ms[c..]);
      } else {
        var x :| x in carried && x !in open;
        StrayStaysOpen(open, carried, x, ms[c..]);
      }
    }
  }

  /** Compaction keeps every conversation replayable that is safe to compact. */
  lemma SafeKeepsReplay(show: Show, native: bool, ms: seq<Message>, keep: nat, summary: string)
    requires Replayable(show, native, ms) && SafeToCompact(ms, keep)
    ensures Replayable(show, native, Compacted(ms, keep, summary))
  {
    hide SafeToCompact, CompactsWell, Replayable, AllSendable, Settles;
    ReplayableIffSettles(show, native, ms);
    SafeCompactsWell(ms, keep);
    CompactedReplaysIffSettles(show, native, ms, keep, summary);
  }

  /** And where every result answers an open call, only those: compaction keeps a conversation
      replayable if and only if it is safe to compact. */
  lemma CompactedReplaysIff(show: Show, native: bool, ms: seq<Message>, keep: nat, summary: string)
    requires Replayable(show, native, ms) && ResultsPaired({}, ms)
    ensures Replayable(show, native, Compacted(ms, keep, summary)) <==> SafeToCompact(ms, keep)
  {
    hide SafeToCompact, CompactsWell, Replayable, AllSendable, Settles, ResultsPaired;
    ReplayableIffSettles(show, native, ms);
    SafeIffCompactsWell(ms, keep);
    CompactedReplaysIffSettles(show, native, ms, keep, summary);
  }

  lemma {:induction false} NothingOrphaned(open: set<string>, ms: seq<Message>)
    ensures !Orphaned(open, {}, ms)
    decreases |ms|
  {
    if ms != [] { NothingOrphaned(NextCalls(open, ms[0]), ms[1..]); }
  }

  /** When no pair straddles the cut, all that matters is that the carried user message makes no
      call. */
  lemma WholePairsReplayIff(show: Show, native: bool, ms: seq<Message>, keep: nat, summary: string)
    requires Replayable(show, native, ms) && ResultsPaired({}, ms)
    requires |ms| > keep + 1 && 0 < Cut(ms, keep) <= |ms| && OpenCalls({}, ms[..Cut(ms, keep)]) == {}
    ensures Replayable(show, native, Compacted(ms, keep, summary)) <==> CarriedCalls(ms[..Cut(ms, keep)]) == {}
  {
    hide Replayable, Compacted, Orphaned, OpenCalls, CarriedCalls, Cut, ResultsPaired;
    CompactedReplaysIff(show, native, ms, keep, summary);
    NothingOrphaned({}, ms[Cut(ms, keep)..]);
    var carried := CarriedCalls(ms[..Cut(ms, keep)]);
    if carried == {} { assert {} - carried == {}; }
  }

  // ---------- conversations recorded in turns ----------

  lemma NothingIsOpen(show: Show, native: bool, ms: seq<Message>)
    requires Replayable(show, native, ms)
    ensures OpenCalls({}, ms) == {}
  {
    ReplayableIffSettles(show, native, ms);
    assert ms + [] == ms;
    SettlesSplit({}, ms, []);
  }

  lemma BringsCalls(m: Message)
    ensures forall id :: Brings(m, id) <==> id in CallIds(m)
  {}

  /** In a conversation whose calls are made in turns, with turns shared and contiguous, compaction
      keeps replay if and only if it does not cut, or carries no call with the user message. */
  lemma TurnsReplayIff(show: Show, native: bool, ms: seq<Message>, keep: nat, summary: string)
    requires Replayable(show, native, ms) && ResultsPaired({}, ms)
    requires SharedTurns(ms) && Contiguous(ms) && CallsInTurns(ms)
    requires |ms| > keep + 1 && 0 < Cut(ms, keep) <= |ms|
    ensures Replayable(show, native, Compacted(ms, keep, summary)) <==> CarriedCalls(ms[..Cut(ms, keep)]) == {}
  {
    hide Compacted, CarriedCalls, Cut, SharedTurns, Contiguous, CallsInTurns, ResultsPaired;
    NothingOpenAtCut(show, native, ms, keep);
    NothingIsOpen(show, native, ms[..Cut(ms, keep)]);
    WholePairsReplayIff(show, native, ms, keep, summary);
  }

  /** Compaction keeps a disciplined conversation replayable. */
  lemma CompactedKeepsReplay(show: Show, native: bool, ms: seq<Message>, keep: nat, summary: string)
    requires Disciplined(ms) && Replayable(show, native, ms)
    ensures Replayable(show, native, Compacted(ms, keep, summary))
  {
    DisciplinedIsSafe(show, native, ms, keep);
    SafeKeepsReplay(show, native, ms, keep, summary);
  }

  lemma DisciplinedIsSafe(show: Show, native: bool, ms: seq<Message>, keep: nat)
    requires Disciplined(ms) && Replayable(show, native, ms)
    ensures SafeToCompact(ms, keep)
  {
    if |ms| > keep + 1 && 0 < Cut(ms, keep) <= |ms| {
      var c := Cut(ms, keep);
      DisciplinedCallsInTurns(ms);
      NothingOpenAtCut(show, native, ms, keep);
      NothingIsOpen(show, native, ms[..c]);
      DisciplinedCarriesNothing(ms, c);
      NothingOrphaned({}, ms[c..]);
      assert {} - CarriedCalls(ms[..c]) == {};
      hide Disciplined, Orphaned, OpenCalls, CarriedCalls, Cut, Replayable;
    }
  }

  lemma DisciplinedCallsInTurns(ms: seq<Message>)
    requires Disciplined(ms)
    ensures CallsInTurns(ms)
  {
    forall i, id | 0 <= i < |ms| && Brings(ms[i], id) ensures ms[i].turn.Some? && Typed(ms) {
      assert WellRecorded(ms[i]) && ms[i] in ms;
    }
  }

  lemma DisciplinedCarriesNothing(ms: seq<Message>, c: nat)
    requires Disciplined(ms) && c <= |ms|
    ensures CarriedCalls(ms[..c]) == {}
  {
    LastUserIs(ms[..c]);
    var user := LastUser(ms[..c]);
    if user.Some? {
      var i :| 0 <= i < c && ms[i] == user.value;
      assert WellRecorded(ms[i]);
      BringsCalls(ms[i]);
      assert forall id :: id !in CallIds(ms[i]);
    }
  }

  lemma IfSmallerKeeps(show: Show, native: bool, ms: seq<Message>, keep: nat, summary: string)
    requires Disciplined(ms) && Replayable(show, native, ms)
    ensures var after := IfSmaller(ms, keep, summary);
            Disciplined(after) && Replayable(show, native, after) && |after| <= |ms|
  {
    CompactedKeepsDiscipline(ms, keep, summary);
    CompactedKeepsReplay(show, native, ms, keep, summary);
  }

  /** Whatever stages run, a disciplined conversation that could be replayed still can, is still
      disciplined, so it may be compacted again and again, and never grows. */
  lemma DefaultCompactKeepsReplay(show: Show, native: bool, p: Pruning, ms: seq<Message>, keep: nat,
                                  summary: string, fallback: string, sessionCompacted: bool)
    requires Disciplined(ms) && Replayable(show, native, ms)
    ensures var after := DefaultCompacted(p, ms, keep, summary, fallback, sessionCompacted);
            Disciplined(after) && Replayable(show, native, after) && |after| <= |ms|
  {
    var pruned := Pruned(p, ms);
    PrunedIsAlike(p, ms);
    AlikeDisciplined(ms, pruned);
    DisciplinedToolsCallNothing(ms);
    hide Disciplined, Pruned, Replayable, IfSmaller, ClearsAny, Settles;
    ReplayableIffSettles(show, native, ms);
    ReplayableIffSettles(show, native, pruned);
    PrunedSendable(show, native, p, ms);
    PrunedCalls(p, ms);
    SettlesSame(ms, pruned, {});
    IfSmallerKeeps(show, native, pruned, keep, summary);
    IfSmallerKeeps(show, native, IfSmaller(pruned, keep, summary), if keep < 1 then 1 else keep, fallback);
  }

  lemma DisciplinedToolsCallNothing(ms: seq<Message>)
    requires Disciplined(ms)
    ensures ToolsCallNothing(ms)
  {
    forall i | 0 <= i < |ms| && ms[i].role.Tool? ensures CallIds(ms[i]) == {} {
      assert WellRecorded(ms[i]);
      BringsCalls(ms[i]);
    }
  }
}
