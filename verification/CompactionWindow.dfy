/** Exactly when compaction keeps the most recent messages as they are. */
module CompactionWindow {
  import opened ChunkTree
  import opened Replay
  import opened Compaction
  import opened CompactionFlow

  /** The most recent messages that are to stay verbatim. */
  function Window(ms: seq<Message>, keep: nat): seq<Message> {
    if keep <= |ms| then ms[|ms| - keep..] else ms
  }

  predicate EndsWith(ms: seq<Message>, tail: seq<Message>) {
    |tail| <= |ms| && ms[|ms| - |tail|..] == tail
  }

  /** The compacted conversation ends with the recent messages, unchanged. */
  predicate KeepsWindow(ms: seq<Message>, keep: nat, summary: string) {
    EndsWith(Compacted(ms, keep, summary), Window(ms, keep))
  }

  lemma EndsWithJoin(head: seq<Message>, a: seq<Message>, b: seq<Message>)
    ensures EndsWith(head + b, a + b) <==> EndsWith(head, a)
  {
    if |a| <= |head| {
      var tail := (head + b)[|head + b| - |a + b|..];
      assert tail == head[|head| - |a|..] + b;
      if tail == a + b {
        assert head[|head| - |a|..] == tail[..|a|] && tail[..|a|] == (a + b)[..|a|] && (a + b)[..|a|] == a;
      }
    }
  }

  lemma {:induction false} AllBoundaries(ms: seq<Message>)
    requires forall m | m in ms :: m.boundary
    ensures Boundaries(ms) == ms
  {
    if ms != [] {
      assert ms[|ms| - 1] in ms && forall m | m in ms[..|ms| - 1] :: m in ms;
      AllBoundaries(ms[..|ms| - 1]);
      assert ms == ms[..|ms| - 1] + [ms[|ms| - 1]];
    }
  }

  /** The window is kept when the cut does not move into it; when it does, what it passes must be
      exactly how the head ends. */
  lemma KeepsWindowByHead(ms: seq<Message>, keep: nat, summary: string)
    requires |ms| > keep + 1
    ensures var c, split := Cut(ms, keep), |ms| - keep;
            && (c <= split ==> KeepsWindow(ms, keep, summary))
            && (split < c ==> (KeepsWindow(ms, keep, summary)
                               <==> EndsWith(Head(ms[..c], Typed(ms), summary), ms[split..c])))
  {
    hide Head, Cut, Typed;
    var c, split := Cut(ms, keep), |ms| - keep;
    if 0 < c {
      var head := Head(ms[..c], Typed(ms), summary);
      if c <= split {
        assert (head + ms[c..])[|head + ms[c..]| - keep..] == ms[split..];
      } else {
        assert ms[split..] == ms[split..c] + ms[c..];
        EndsWithJoin(head, ms[split..c], ms[c..]);
      }
    }
  }

  /** The head of what is not all summaries: the old summaries, the new one, and the user message that
      has to be carried. */
  lemma HeadParts(older: seq<Message>, typed: bool, summary: string)
    requires exists m | m in older :: !m.boundary
    ensures Head(older, typed, summary)
            == Boundaries(older) + [SummaryMessage(typed, summary)]
               + if Carries(older) then [LastUser(older).value] else []
  {
    hide Boundaries, LastUser;
    LastUserIs(older);
    BoundariesAre(older);
    var user := LastUser(older);
    if user.Some? && user.value.boundary { BoundaryKept(older, user.value); }
  }

  lemma LastIsUser(older: seq<Message>)
    requires older != [] && older[|older| - 1].role.User?
    ensures LastUser(older) == Some(older[|older| - 1])
  {}

  /** A run of summaries that only other messages follow is how the kept summaries end. */
  lemma RunKept(older: seq<Message>, k: nat, e: nat)
    requires k <= e <= |older|
    requires (forall i | k <= i < e :: older[i].boundary) && forall i | e <= i < |older| :: !older[i].boundary
    ensures EndsWith(Boundaries(older), older[k..e])
  {
    hide Boundaries;
    assert older == older[..e] + older[e..] && older[..e] == older[..k] + older[k..e];
    BoundariesJoin(older[..e], older[e..]);
    BoundariesJoin(older[..k], older[k..e]);
    AllBoundaries(older[k..e]);
    NoBoundaries(older[e..]);
    JoinEnds(Boundaries(older[..k]), older[k..e]);
    assert Boundaries(older[..e]) + [] == Boundaries(older[..e]);
  }

  lemma JoinEnds(a: seq<Message>, b: seq<Message>)
    ensures EndsWith(a + b, b)
  {}

  lemma {:induction false} NoBoundaries(ms: seq<Message>)
    requires forall m | m in ms :: !m.boundary
    ensures Boundaries(ms) == []
  {
    if ms != [] {
      assert ms[|ms| - 1] in ms && forall m | m in ms[..|ms| - 1] :: m in ms;
      NoBoundaries(ms[..|ms| - 1]);
    }
  }

  lemma EndsWithAt(ms: seq<Message>, tail: seq<Message>)
    ensures EndsWith(ms, tail) <==>
              |tail| <= |ms| && forall i | 0 <= i < |tail| :: ms[|ms| - |tail| + i] == tail[i]
  {
    if EndsWith(ms, tail) {
      forall i | 0 <= i < |tail| ensures ms[|ms| - |tail| + i] == tail[i] {
        assert ms[|ms| - |tail|..][i] == tail[i];
      }
    }
  }

  /** Where a passed part of the window may go on: after it only the carried user message follows. */
  function RunEnds(older: seq<Message>): nat {
    if Carries(older) && older != [] then |older| - 1 else |older|
  }

  /** From `split` on there is nothing but this very summary, and then the carried user message, if
      there is one. */
  predicate Repeats(older: seq<Message>, split: nat, typed: bool, summary: string) {
    && (forall i | split <= i < RunEnds(older) && i < |older| :: older[i] == SummaryMessage(typed, summary))
    && (Carries(older) ==> older != [] && older[|older| - 1] == LastUser(older).value)
  }

  lemma {:induction false} RunIsSummaries(older: seq<Message>, split: nat, k: nat, typed: bool, summary: string)
    requires split < |older| && split <= k <= RunEnds(older) && exists m | m in older :: !m.boundary
    requires EndsWith(Head(older, typed, summary), older[split..])
    requires Carries(older) ==> older[|older| - 1] == LastUser(older).value
    ensures forall i | k <= i < RunEnds(older) :: older[i] == SummaryMessage(typed, summary)
    decreases RunEnds(older) - k
  {
    hide Boundaries, LastUser, Head, EndsWith;
    var e := RunEnds(older);
    if k < e {
      RunIsSummaries(older, split, k + 1, typed, summary);
      RunKept(older, k + 1, e);
      HeadParts(older, typed, summary);
      assert older[e..] == if Carries(older) then [LastUser(older).value] else [];
      BeforeRun(Boundaries(older), SummaryMessage(typed, summary), older[e..], older[split..], older[k + 1..e]);
      assert older[split..][k - split] == older[k];
    }
  }

  /** What stands before a run of the summary is the summary. */
  lemma BeforeRun(kept: seq<Message>, sum: Message, tail: seq<Message>, passed: seq<Message>, run: seq<Message>)
    requires EndsWith(kept + [sum] + tail, passed) && |passed| > |run| + |tail|
    requires EndsWith(kept, run) && forall i | 0 <= i < |run| :: run[i] == sum
    ensures passed[|passed| - |tail| - |run| - 1] == sum
  {
    EndsWithAt(kept + [sum] + tail, passed);
    EndsWithAt(kept, run);
    if run != [] { assert kept[|kept| - |run|] == run[0]; }
    hide EndsWith;
  }

  /** And a run of it, followed by the tail, is how the head ends. */
  lemma RunEndsHead(kept: seq<Message>, sum: Message, tail: seq<Message>, run: seq<Message>)
    requires EndsWith(kept, run) && forall i | 0 <= i < |run| :: run[i] == sum
    ensures EndsWith(kept + [sum] + tail, run + tail)
  {
    EndsWithAt(kept, run);
    EndsWithAt(kept + [sum] + tail, run + tail);
    var all := kept + [sum] + tail;
    forall j | |kept| + 1 - |run| <= j <= |kept| ensures all[j] == sum {
      if j < |kept| { assert kept[j] == run[j - (|kept| - |run|)]; }
    }
    hide EndsWith;
  }

  lemma LastStays(older: seq<Message>, split: nat, typed: bool, summary: string)
    requires split < |older| && (exists m | m in older :: !m.boundary) && Carries(older)
    requires EndsWith(Head(older, typed, summary), older[split..])
    ensures older[|older| - 1] == LastUser(older).value
  {
    hide Boundaries, LastUser, Head;
    HeadParts(older, typed, summary);
    EndsWithAt(Head(older, typed, summary), older[split..]);
    assert older[split..][|older| - 1 - split] == older[|older| - 1];
  }

  lemma RepeatsSurvive(older: seq<Message>, split: nat, typed: bool, summary: string)
    requires split < |older| && (exists m | m in older :: !m.boundary) && Repeats(older, split, typed, summary)
    ensures EndsWith(Head(older, typed, summary), older[split..])
  {
    hide Boundaries, LastUser, Head, EndsWith;
    var e := RunEnds(older);
    var from := if split < e then split else e;
    RunKept(older, from, e);
    HeadParts(older, typed, summary);
    assert older[e..] == if Carries(older) then [LastUser(older).value] else [];
    RunEndsHead(Boundaries(older), SummaryMessage(typed, summary), older[e..], older[from..e]);
    assert older[from..e] + older[e..] == older[split..];
  }

  /** With nothing but summaries before the cut there is nothing to replace. */
  lemma BoundariesSurvive(older: seq<Message>, split: nat, typed: bool, summary: string)
    requires split <= |older| && forall m | m in older :: m.boundary
    ensures EndsWith(Head(older, typed, summary), older[split..])
  {
    AllBoundaries(older);
    LastUserIs(older);
    hide Boundaries, LastUser;
    if LastUser(older).Some? { BoundaryKept(older, LastUser(older).value); }
  }

  /** A passed part of the window survives when there was nothing but summaries before the cut, and
      when it repeats what the head ends with. */
  lemma PassedSurvivesIff(older: seq<Message>, split: nat, typed: bool, summary: string)
    requires split < |older|
    ensures EndsWith(Head(older, typed, summary), older[split..])
            <==> (forall m | m in older :: m.boundary) || Repeats(older, split, typed, summary)
  {
    hide Head, LastUser, EndsWith, Boundaries;
    if forall m | m in older :: m.boundary {
      BoundariesSurvive(older, split, typed, summary);
    } else {
      if Repeats(older, split, typed, summary) { RepeatsSurvive(older, split, typed, summary); }
      if EndsWith(Head(older, typed, summary), older[split..]) {
        if Carries(older) { LastStays(older, split, typed, summary); }
        if split <= RunEnds(older) { RunIsSummaries(older, split, split, typed, summary); }
      }
    }
  }

  lemma ShortKeepsWindow(ms: seq<Message>, keep: nat, summary: string)
    requires |ms| <= keep + 1
    ensures KeepsWindow(ms, keep, summary)
  {}

  /** The window is kept if and only if the cut does not move into it, or there are only summaries
      before the cut, or what the cut passes is this very summary, repeated, and then the carried user
      message, if there is one. */
  lemma KeepsWindowIff(ms: seq<Message>, keep: nat, summary: string)
    ensures KeepsWindow(ms, keep, summary) <==>
              || |ms| <= keep + 1
              || Cut(ms, keep) <= |ms| - keep
              || (forall m | m in ms[..Cut(ms, keep)] :: m.boundary)
              || Repeats(ms[..Cut(ms, keep)], |ms| - keep, Typed(ms), summary)
  {
    hide Cut, Typed, Head, Repeats, KeepsWindow, EndsWith;
    if |ms| <= keep + 1 {
      ShortKeepsWindow(ms, keep, summary);
    } else {
      KeepsWindowByHead(ms, keep, summary);
      if Cut(ms, keep) > |ms| - keep {
        var c, split := Cut(ms, keep), |ms| - keep;
        assert ms[..c][split..] == ms[split..c];
        PassedSurvivesIff(ms[..c], split, Typed(ms), summary);
      }
    }
  }

  /** A summary that is not there yet is not repeated: then a moved cut may pass only one message, one
      of the user. */
  lemma NewSummaryIsNotRepeated(older: seq<Message>, split: nat, typed: bool, summary: string)
    requires split < |older| && SummaryMessage(typed, summary) !in older
    ensures Repeats(older, split, typed, summary)
            <==> split == |older| - 1 && older[split].role.User? && !older[split].boundary
  {
    LastUserIs(older);
    hide Boundaries;
    assert older[split] in older;
  }

  /** The cut moves into the window if and only if the conversation is typed and the window begins
      outside any turn, while a later message of it is in a turn that no earlier message shares. */
  lemma CutMovesInIff(ms: seq<Message>, keep: nat)
    requires keep <= |ms|
    ensures Cut(ms, keep) > |ms| - keep <==>
            && Typed(ms) && TurnsOf(ms[|ms| - keep..]) != {}
            && forall k | 0 <= k <= |ms| - keep && k < |ms| :: !InTurns(ms[k], TurnsOf(ms[|ms| - keep..]))
  {
    var split := |ms| - keep;
    var window := ms[split..];
    var turns := TurnsOf(window);
    FirstOfIs(ms, turns, 0, split);
    if turns != {} {
      var t :| t in turns;
      var i :| 0 <= i < |window| && window[i].turn == Some(t);
      assert InTurns(ms[split + i], turns);
    } else if split < |ms| {
      assert forall k | 0 <= k < |ms| :: !InTurns(ms[k], turns);
    }
  }

  // ---------- a window that is lost, and one that is not ----------

  function Asked(): Message {
    Message(User, Plain("go on"), None, "", None, Elsewhere, false)
  }

  function Noted(): Message {
    Message(Assistant, Plain("noted"), None, "", None, FromHost, false)
  }

  function Said(): Message {
    Message(Assistant, Plain("yes"), None, "", Some("t1"), FromModel, false)
  }

  lemma MovedCut(m: Message, summary: string)
    requires m.turn.None? && !m.boundary
    ensures var ms := [Asked(), Asked(), Asked(), m, Said()];
            Cut(ms, 2) == 4 && Typed(ms)
            && Compacted(ms, 2, summary) == Head([Asked(), Asked(), Asked(), m], true, summary) + [Said()]
  {
    var ms := [Asked(), Asked(), Asked(), m, Said()];
    assert Said() in ms && ms[3..] == [m, Said()];
    var turns := TurnsOf(ms[3..]);
    assert ms[3..][1].turn.Some? && "t1" in turns;
    FirstOfIs(ms, turns, 0, 3);
    assert InTurns(ms[4], turns) && forall k | 0 <= k < 4 :: !InTurns(ms[k], turns);
    assert ms[..4] == [Asked(), Asked(), Asked(), m] && ms[4..] == [Said()];
    hide Head, Cut, FirstOf;
  }

  /** A host's note at the head of the window disappears. */
  lemma WindowLost(summary: string)
    ensures var ms := [Asked(), Asked(), Asked(), Noted(), Said()];
            !KeepsWindow(ms, 2, summary) && Noted() in Window(ms, 2) && Noted() !in Compacted(ms, 2, summary)
  {
    var ms := [Asked(), Asked(), Asked(), Noted(), Said()];
    MovedCut(Noted(), summary);
    HeadIs([Asked(), Asked(), Asked(), Noted()], true, summary);
    hide Head, Compacted;
    assert ms[3..] == [Noted(), Said()] && ms[3..][0] == Noted();
    EndsWithAll(Compacted(ms, 2, summary), ms[3..], Noted());
  }

  lemma EndsWithAll(ms: seq<Message>, tail: seq<Message>, m: Message)
    ensures EndsWith(ms, tail) && m in tail ==> m in ms
  {
    if EndsWith(ms, tail) && m in tail { assert m in ms[|ms| - |tail|..]; }
  }

  /** A user message there survives, because the last user message is carried over the cut. */
  lemma WindowSurvives(summary: string)
    ensures KeepsWindow([Asked(), Asked(), Asked(), Asked(), Said()], 2, summary)
  {
    var ms := [Asked(), Asked(), Asked(), Asked(), Said()];
    MovedCut(Asked(), summary);
    assert ms[..4] == [Asked(), Asked(), Asked(), Asked()];
    NewSummaryIsNotRepeated(ms[..4], 3, true, summary);
    hide Repeats, Cut, Compacted;
    KeepsWindowIff(ms, 2, summary);
  }
}
