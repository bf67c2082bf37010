/** What compaction and pruning leave, message by message: which summary is put in, what stays, what is
    carried over the cut, where the cut is, and what a cleared tool message still holds. */
module CompactionContent {
  import opened ChunkTree
  import opened Replay
  import opened Compaction
  import opened CompactionFlow

  // ---------- where history is cut ----------

  /** The message is in a turn that has a message from `split` on. */
  predicate SharesTurn(ms: seq<Message>, split: nat, i: nat)
    requires i < |ms|
  {
    ms[i].turn.Some? && exists j | split <= j < |ms| :: ms[j].turn == ms[i].turn
  }

  lemma InTurnsIff(ms: seq<Message>, split: nat, i: nat)
    requires i < |ms| && split <= |ms|
    ensures InTurns(ms[i], TurnsOf(ms[split..])) <==> SharesTurn(ms, split, i)
  {
    var window := ms[split..];
    if SharesTurn(ms, split, i) {
      var j :| split <= j < |ms| && ms[j].turn == ms[i].turn;
      assert window[j - split].turn == ms[i].turn;
    }
    if InTurns(ms[i], TurnsOf(window)) {
      var k :| 0 <= k < |window| && window[k].turn.Some? && window[k].turn.value == ms[i].turn.value;
      assert ms[split + k].turn == ms[i].turn;
    }
  }

  /** In a conversation in which the model speaks, the cut is before the first message of any turn that the
      recent ones belong to; otherwise before the recent ones. */
  lemma CutIs(ms: seq<Message>, keep: nat)
    requires keep <= |ms|
    ensures var c, split := Cut(ms, keep), |ms| - keep;
            if (exists m | m in ms :: m.origin == FromModel)
               && exists i | 0 <= i < |ms| :: SharesTurn(ms, split, i) then
              c < |ms| && SharesTurn(ms, split, c) && forall k | 0 <= k < c :: !SharesTurn(ms, split, k)
            else c == split
  {
    var split := |ms| - keep;
    FirstOfIs(ms, TurnsOf(ms[split..]), 0, split);
    forall i | 0 <= i < |ms| ensures InTurns(ms[i], TurnsOf(ms[split..])) <==> SharesTurn(ms, split, i) {
      InTurnsIff(ms, split, i);
    }
    hide TurnsOf, FirstOf, InTurns;
  }

  // ---------- what replaces the old messages ----------

  /** A boundary that holds the text of the summary; the user's in a conversation in which the model speaks,
      the system's otherwise. */
  predicate IsSummary(m: Message, ms: seq<Message>, summary: string) {
    && m.role == (if exists x | x in ms :: x.origin == FromModel then User else System)
    && m.content == Plain("[Summary of prior context]\n" + summary)
    && m.boundary && m.result.None? && m.turn.None? && m.callId == "" && m.origin == Elsewhere
  }

  /** The last message of the user among the first c. */
  predicate IsLastUser(ms: seq<Message>, c: nat, m: Message)
    requires c <= |ms|
  {
    exists i | 0 <= i < c :: ms[i] == m && m.role == User && forall j | i < j < c :: ms[j].role != User
  }

  lemma {:induction false} LastUserIndex(ms: seq<Message>)
    ensures if exists m | m in ms :: m.role == User then LastUser(ms).Some? && IsLastUser(ms, |ms|, LastUser(ms).value)
            else LastUser(ms).None?
  {
    if ms != [] {
      var n := |ms| - 1;
      if ms[n].role == User {
        assert ms[n] in ms && IsLastUser(ms, n + 1, ms[n]);
      } else {
        LastUserIndex(ms[..n]);
        assert ms == ms[..n] + [ms[n]];
        if m :| m in ms[..n] && m.role == User {
          var i :| 0 <= i < n && ms[..n][i] == LastUser(ms[..n]).value
                   && (forall j | i < j < n :: ms[..n][j].role != User);
          assert ms[i] == LastUser(ms).value;
          forall j | i < j < n + 1 ensures ms[j].role != User { if j < n { assert ms[..n][j].role != User; } }
          assert m in ms;
        }
      }
    }
  }

  /** The compacted conversation: the earlier summaries, one new summary unless there is nothing but summaries
      before the cut, the last thing the user said before it unless it is there already, and from the
      cut on everything as it was. */
  lemma CompactedIs(ms: seq<Message>, keep: nat, summary: string) returns (added: seq<Message>, carried: seq<Message>)
    requires |ms| > keep + 1 && Cut(ms, keep) > 0
    ensures var c := Cut(ms, keep);
            && Compacted(ms, keep, summary) == Boundaries(ms[..c]) + added + carried + ms[c..]
            && (if exists m | m in ms[..c] :: !m.boundary then |added| == 1 && IsSummary(added[0], ms, summary)
                else added == [])
            && (if (exists m | m in ms[..c] :: m.role == User)
                   && !(exists m | m in Boundaries(ms[..c]) + added :: IsLastUser(ms, c, m))
                then |carried| == 1 && IsLastUser(ms, c, carried[0])
                else carried == [])
  {
    hide Cut, Boundaries, LastUser, IsLastUser, Typed;
    var c := Cut(ms, keep);
    var older := ms[..c];
    added := if exists m | m in older :: !m.boundary then [SummaryMessage(Typed(ms), summary)] else [];
    var kept := Boundaries(older) + added;
    carried := CarriedUser(ms, c, kept);
    SummaryIs(ms, summary);
    HeadJoined(older, Typed(ms), summary, added, carried);
  }

  lemma SummaryIs(ms: seq<Message>, summary: string)
    ensures IsSummary(SummaryMessage(Typed(ms), summary), ms, summary)
  {}

  lemma HeadJoined(older: seq<Message>, typed: bool, summary: string, added: seq<Message>, carried: seq<Message>)
    requires added == if exists m | m in older :: !m.boundary then [SummaryMessage(typed, summary)] else []
    requires var user := LastUser(older);
             carried == if user.Some? && user.value !in Boundaries(older) + added then [user.value] else []
    ensures Head(older, typed, summary) == Boundaries(older) + added + carried
  {
    hide LastUser, Boundaries, SummaryMessage;
    assert Boundaries(older) + added + [] == Boundaries(older) + added;
  }

  /** The last message of the user before the cut, unless it is kept already. */
  lemma CarriedUser(ms: seq<Message>, c: nat, kept: seq<Message>) returns (carried: seq<Message>)
    requires c <= |ms|
    ensures var user := LastUser(ms[..c]);
            carried == if user.Some? && user.value !in kept then [user.value] else []
    ensures if (exists m | m in ms[..c] :: m.role == User) && !exists m | m in kept :: IsLastUser(ms, c, m)
            then |carried| == 1 && IsLastUser(ms, c, carried[0])
            else carried == []
  {
    hide LastUser, IsLastUser;
    var user := LastUser(ms[..c]);
    carried := if user.Some? && user.value !in kept then [user.value] else [];
    LastUserIndex(ms[..c]);
    if user.Some? {
      SameLastUser(ms, c, user.value);
      forall m | m in kept && IsLastUser(ms, c, m) ensures m == user.value { OneLastUser(ms, c, m, user.value); }
    }
  }

  lemma SameLastUser(ms: seq<Message>, c: nat, m: Message)
    requires c <= |ms|
    ensures IsLastUser(ms, c, m) <==> IsLastUser(ms[..c], c, m)
  {
    assert forall j | 0 <= j < c :: ms[..c][j] == ms[j];
  }

  lemma OneLastUser(ms: seq<Message>, c: nat, a: Message, b: Message)
    requires c <= |ms| && IsLastUser(ms, c, a) && IsLastUser(ms, c, b)
    ensures a == b
  {}

  /** Nothing is compacted when there is no more than one message beyond the recent ones, or nothing before
      the cut. */
  lemma NothingToCompact(ms: seq<Message>, keep: nat, summary: string)
    requires |ms| <= keep + 1 || Cut(ms, keep) == 0
    ensures Compacted(ms, keep, summary) == ms
  {}

  /** Whenever the default service compacts, the summary is in what it leaves; the fallback's, when it was
      the fallback that did it. */
  lemma DefaultSummaryIs(p: Pruning, ms: seq<Message>, keep: nat, summary: string, fallback: string,
                         sessionCompacted: bool)
    requires Stage(p, ms, keep, sessionCompacted).Some?
    ensures var after := DefaultCompacted(p, ms, keep, summary, fallback, sessionCompacted);
            exists m | m in after :: IsSummary(m, ms, if Shrinks(ms, keep) then summary else fallback)
  {
    hide Stage, DefaultCompacted, Pruned, Cut, Compacted, Shrinks, SameShape, IsSummary, Boundaries;
    var k, pruned := Stage(p, ms, keep, sessionCompacted).value, Pruned(p, ms);
    var text := if Shrinks(ms, keep) then summary else fallback;
    DefaultCompactedIs(p, ms, keep, summary, fallback, sessionCompacted);
    PrunedShape(p, ms);
    StageShrinks(p, ms, keep, sessionCompacted);
    ShrinksSame(ms, pruned, k);
    ShrunkHasMore(pruned, k);
    var added, carried := CompactedIs(pruned, k, text);
    assert added[0] in Compacted(pruned, k, text);
    SameSpeaker(ms, pruned, added[0], text);
  }

  lemma StageShrinks(p: Pruning, ms: seq<Message>, keep: nat, sessionCompacted: bool)
    requires Stage(p, ms, keep, sessionCompacted).Some?
    ensures Shrinks(ms, Stage(p, ms, keep, sessionCompacted).value)
  {
    hide Shrinks, ClearsAny;
  }

  lemma ShrunkHasMore(ms: seq<Message>, keep: nat)
    requires Shrinks(ms, keep)
    ensures |ms| > keep + 1 && Cut(ms, keep) > 0 && exists m | m in ms[..Cut(ms, keep)] :: !m.boundary
  {
    hide Cut, Replaceable;
    if |ms| > keep + 1 { ReplaceableCounts(ms[..Cut(ms, keep)]); }
  }

  lemma SameSpeaker(a: seq<Message>, b: seq<Message>, sum: Message, text: string)
    requires SameShape(a, b)
    ensures IsSummary(sum, a, text) <==> IsSummary(sum, b, text)
  {
    if m :| m in a && m.origin == FromModel { var i :| 0 <= i < |a| && a[i] == m; assert b[i] in b; }
    if m :| m in b && m.origin == FromModel { var i :| 0 <= i < |b| && b[i] == m; assert a[i] in a; }
  }

  // ---------- pruning ----------

  /** A tool message with a payload, of a tool that may be cleared; without a list any may. */
  predicate Clearable(p: Pruning, m: Message) {
    && m.role == Tool && m.content != Plain(p.marker)
    && (p.tools == {} || (m.result.Some? && m.result.value.tool in p.tools) || (m.result.None? && "" in p.tools))
  }

  /** The clearable messages after position i. */
  function Newer(p: Pruning, ms: seq<Message>, i: int): set<int> {
    set j | i < j < |ms| && 0 <= j && Clearable(p, ms[j])
  }

  lemma {:induction false} CountIsNewer(p: Pruning, ms: seq<Message>, i: int)
    requires -1 <= i < |ms|
    ensures PrunableCount(p, ms[i + 1..]) == |Newer(p, ms, i)|
    decreases |ms| - i
  {
    if i + 1 < |ms| {
      CountIsNewer(p, ms, i + 1);
      assert ms[i + 1..][1..] == ms[i + 2..];
      assert Newer(p, ms, i) == Newer(p, ms, i + 1) + (if Clearable(p, ms[i + 1]) then {i + 1} else {});
      assert i + 1 !in Newer(p, ms, i + 1);
    } else {
      assert Newer(p, ms, i) == {};
    }
  }

  /** A message is cleared exactly when it is clearable and enough clearable ones are newer.  Then its text and
      the data of its result are the marker, and everything else about it is as it was. */
  lemma PrunedIs(p: Pruning, ms: seq<Message>, i: nat)
    requires i < |ms|
    ensures |Pruned(p, ms)| == |ms|
    ensures var before, after := ms[i], Pruned(p, ms)[i];
            if Clearable(p, before) && |Newer(p, ms, i)| >= p.keep then
              && after.content == Plain(p.marker) && after.result.Some? == before.result.Some?
              && (after.result.Some? ==>
                    && after.result.value.data == p.marker && after.result.value.callId == before.result.value.callId
                    && after.result.value.tool == before.result.value.tool)
              && after.role == before.role && after.callId == before.callId && after.turn == before.turn
              && after.origin == before.origin && after.boundary == before.boundary
            else after == before
  {
    CountIsNewer(p, ms, i);
  }
}
