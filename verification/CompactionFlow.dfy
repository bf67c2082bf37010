/** When a compacted conversation can be replayed, in full generality.

  A provider input can be built if and only if every message can be sent by itself and the calls and
  answers settle: seen through identifiers alone.  Compaction and pruning leave every message
  sendable, so only the settling is in question, and it can be read off the conversation before
  it is compacted. */
module CompactionFlow {
  import opened ChunkTree
  import opened Replay
  import opened Compaction

  // ---------- calls and answers ----------

  /** The calls a message makes when it is replayed. */
  function CallIds(m: Message): set<string> {
    if Spoken(m) && m.content.Blocks? then set b | b in m.content.blocks && b.Use? :: b.id else {}
  }

  /** The calls open after a message: an answer closes one, a message opens those it makes. */
  function NextCalls(open: set<string>, m: Message): set<string> {
    if m.result.Some? then open - {ResultId(m)} else open + CallIds(m)
  }

  /** The calls of the user message that is carried over the cut. */
  function CarriedCalls(older: seq<Message>): set<string> {
    if LastUser(older).Some? then CallIds(LastUser(older).value) else {}
  }

  // ---------- replay, seen through identifiers ----------

  /** From the open calls on: an answer closes an open call, or comes when none is open; no open
      identifier is called again; nothing stays open. */
  predicate Settles(open: set<string>, ms: seq<Message>)
    decreases |ms|
  {
    if ms == [] then open == {}
    else
      && (if ms[0].result.Some? then ResultId(ms[0]) in open || open == {} else open !! CallIds(ms[0]))
      && Settles(NextCalls(open, ms[0]), ms[1..])
  }

  /** The message can be sent when nothing is open. */
  predicate Sendable(show: Show, native: bool, m: Message) {
    NextOpen(show, native, Some({}), m).Some?
  }

  predicate AllSendable(show: Show, native: bool, ms: seq<Message>) {
    forall m | m in ms :: Sendable(show, native, m)
  }

  lemma {:induction false} AddCallsAre(pending: set<string>, blocks: seq<Block>)
    requires AddCalls(pending, blocks).Some?
    ensures var ids := set b | b in blocks && b.Use? :: b.id;
            AddCalls(pending, blocks).value == pending + ids && pending !! ids
    decreases |blocks|
  {
    if blocks != [] {
      AddCallsAre(if blocks[0].Use? then pending + {blocks[0].id} else pending, blocks[1..]);
      assert blocks == [blocks[0]] + blocks[1..];
      var ids, rest := set b | b in blocks && b.Use? :: b.id, set b | b in blocks[1..] && b.Use? :: b.id;
      assert ids == (if blocks[0].Use? then {blocks[0].id} else {}) + rest;
    }
  }

  /** Calls that could be opened beside more can be opened beside fewer. */
  lemma {:induction false} AddCallsFewer(pending: set<string>, fewer: set<string>, blocks: seq<Block>)
    requires AddCalls(pending, blocks).Some? && fewer <= pending
    ensures AddCalls(fewer, blocks).Some?
    decreases |blocks|
  {
    if blocks != [] {
      if blocks[0].Use? {
        AddCallsFewer(pending + {blocks[0].id}, fewer + {blocks[0].id}, blocks[1..]);
      } else {
        AddCallsFewer(pending, fewer, blocks[1..]);
      }
    }
  }

  /** An accepted message does to the open calls what its calls and answers say. */
  lemma AcceptedCalls(show: Show, native: bool, pending: set<string>, m: Message)
    requires NextOpen(show, native, Some(pending), m).Some?
    ensures NextOpen(show, native, Some(pending), m).value == NextCalls(pending, m)
    ensures m.result.None? ==> pending !! CallIds(m)
  {
    if Spoken(m) && m.content.Blocks? { AddCallsAre(pending, m.content.blocks); }
  }

  lemma {:induction false} AddCallsApart(pending: set<string>, open: set<string>, blocks: seq<Block>)
    requires AddCalls(pending, blocks).Some? && open !! set b | b in blocks && b.Use? :: b.id
    ensures AddCalls(pending + open, blocks).Some?
    decreases |blocks|
  {
    if blocks != [] {
      assert blocks == [blocks[0]] + blocks[1..];
      if blocks[0].Use? {
        assert blocks[0].id in (set b | b in blocks && b.Use? :: b.id);
        AddCallsApart(pending + {blocks[0].id}, open, blocks[1..]);
        assert pending + {blocks[0].id} + open == pending + open + {blocks[0].id};
      } else {
        AddCallsApart(pending, open, blocks[1..]);
      }
    }
  }

  /** A message that makes calls is accepted when none of them is open. */
  lemma SentBeside(show: Show, native: bool, open: set<string>, m: Message)
    requires Sendable(show, native, m) && m.result.None?
    ensures NextOpen(show, native, Some(open), m).Some? <==> open !! CallIds(m)
    ensures open !! CallIds(m) ==> NextOpen(show, native, Some(open), m) == Some(NextCalls(open, m))
  {
    assert {} + open == open;
    if NextOpen(show, native, Some(open), m).Some? {
      AcceptedCalls(show, native, open, m);
    } else if open !! CallIds(m) && Spoken(m) && m.content.Blocks? {
      AddCallsApart({}, open, m.content.blocks);
    }
  }

  lemma AnsweredBeside(show: Show, native: bool, open: set<string>, m: Message)
    requires m.result.Some?
    ensures NextOpen(show, native, Some(open), m)
            == if ResultId(m) in open || open == {} then Some(NextCalls(open, m)) else None
  {
    if open == {} { assert {} - {ResultId(m)} == {}; }
  }

  lemma {:induction false} AfterIffSettles(show: Show, native: bool, open: set<string>, ms: seq<Message>)
    requires AllSendable(show, native, ms)
    ensures After(show, native, Some(open), ms) == Some({}) <==> Settles(open, ms)
    decreases |ms|
  {
    hide NextOpen, NextCalls, Sendable;
    if ms != [] {
      var m, rest := ms[0], ms[1..];
      assert m in ms && forall x | x in rest :: x in ms;
      if m.result.Some? { AnsweredBeside(show, native, open, m); } else { SentBeside(show, native, open, m); }
      if NextOpen(show, native, Some(open), m).None? {
        AfterNone(show, native, rest);
      } else {
        AfterIffSettles(show, native, NextCalls(open, m), rest);
      }
    }
  }

  /** What an accepted input comes to: every message can be sent, and the calls settle. */
  lemma ReplayableIffSettles(show: Show, native: bool, ms: seq<Message>)
    ensures Replayable(show, native, ms) <==> AllSendable(show, native, ms) && Settles({}, ms)
  {
    hide After, NextOpen, Settles;
    if Replayable(show, native, ms) {
      forall m | m in ms ensures Sendable(show, native, m) {
        var i :| 0 <= i < |ms| && ms[i] == m;
        var pending := AcceptedAt(show, native, ms, i);
        SendableIfSent(show, native, pending, m);
      }
    }
    if AllSendable(show, native, ms) { AfterIffSettles(show, native, {}, ms); }
  }

  lemma SendableIfSent(show: Show, native: bool, pending: set<string>, m: Message)
    requires NextOpen(show, native, Some(pending), m).Some?
    ensures Sendable(show, native, m)
  {
    if m.result.Some? {
      AnsweredBeside(show, native, {}, m);
    } else if Spoken(m) && m.content.Blocks? {
      AddCallsFewer(pending, {}, m.content.blocks);
    }
  }

  // ---------- compaction ----------

  lemma {:induction false} BoundariesSettle(ms: seq<Message>, rest: seq<Message>)
    requires forall m | m in ms :: m.boundary
    ensures Settles({}, ms + rest) <==> Settles({}, rest)
    decreases |ms|
  {
    if ms == [] {
      assert ms + rest == rest;
    } else {
      assert (ms + rest)[1..] == ms[1..] + rest && ms[0] in ms && forall m | m in ms[1..] :: m in ms;
      BoundariesSettle(ms[1..], rest);
      assert CallIds(ms[0]) == {} && NextCalls({}, ms[0]) == {};
    }
  }

  lemma UserSettles(m: Message, rest: seq<Message>)
    ensures Settles({}, [m] + rest) <==> Settles(CallIds(m), rest)
  {
    assert ([m] + rest)[0] == m && ([m] + rest)[1..] == rest;
    assert NextCalls({}, m) == CallIds(m);
  }

  /** The head of a compacted conversation leaves exactly the calls of the carried user message open. */
  lemma HeadSettles(older: seq<Message>, typed: bool, summary: string, rest: seq<Message>)
    ensures Settles({}, Head(older, typed, summary) + rest) <==> Settles(CarriedCalls(older), rest)
  {
    hide Settles, LastUser, Boundaries;
    var user := LastUser(older);
    var kept := Boundaries(older)
              + if exists m | m in older :: !m.boundary then [SummaryMessage(typed, summary)] else [];
    BoundariesAre(older);
    LastUserIs(older);
    if user.Some? && user.value !in kept {
      assert Head(older, typed, summary) + rest == kept + ([user.value] + rest);
      BoundariesSettle(kept, [user.value] + rest);
      UserSettles(user.value, rest);
    } else {
      BoundariesSettle(kept, rest);
      if user.Some? { assert user.value.boundary && CallIds(user.value) == {}; }
    }
  }

  lemma CompactedSendable(show: Show, native: bool, ms: seq<Message>, keep: nat, summary: string)
    requires AllSendable(show, native, ms)
    ensures AllSendable(show, native, Compacted(ms, keep, summary))
  {
    if |ms| > keep + 1 && 0 < Cut(ms, keep) <= |ms| {
      var c := Cut(ms, keep);
      HeadIs(ms[..c], Typed(ms), summary);
      assert Sendable(show, native, SummaryMessage(Typed(ms), summary));
      hide Head, Cut, Sendable;
    }
  }

  /** Compaction leaves a conversation that settles. */
  predicate CompactsWell(ms: seq<Message>, keep: nat) {
    var c := if |ms| <= keep + 1 then 0 else Cut(ms, keep);
    if 0 < c <= |ms| then Settles(CarriedCalls(ms[..c]), ms[c..]) else Settles({}, ms)
  }

  /** Whatever the roles, origins, turns and answers: a compacted conversation can be replayed if and
      only if what is kept settles from the calls of the carried user message. */
  lemma CompactedReplaysIffSettles(show: Show, native: bool, ms: seq<Message>, keep: nat, summary: string)
    requires AllSendable(show, native, ms)
    ensures Replayable(show, native, Compacted(ms, keep, summary)) <==> CompactsWell(ms, keep)
  {
    hide Settles, AllSendable, Replayable, Cut, Typed, Head, CarriedCalls;
    CompactedSendable(show, native, ms, keep, summary);
    ReplayableIffSettles(show, native, Compacted(ms, keep, summary));
    if |ms| > keep + 1 && 0 < Cut(ms, keep) <= |ms| {
      HeadSettles(ms[..Cut(ms, keep)], Typed(ms), summary, ms[Cut(ms, keep)..]);
    }
  }

  // ---------- which stages of the default service compact ----------

  /** The messages that a summary replaces. */
  function Replaceable(ms: seq<Message>): nat {
    if ms == [] then 0 else Replaceable(ms[..|ms| - 1]) + if ms[|ms| - 1].boundary then 0 else 1
  }

  /** The last user message has to be carried: it is no summary. */
  predicate Carries(ms: seq<Message>) {
    LastUser(ms).Some? && !LastUser(ms).value.boundary
  }

  /** There is a cut, and more before it than the summary and the carried user message put back. */
  predicate Shrinks(ms: seq<Message>, keep: nat) {
    |ms| > keep + 1 && Cut(ms, keep) > 0
    && Replaceable(ms[..Cut(ms, keep)]) >= if Carries(ms[..Cut(ms, keep)]) then 3 else 2
  }

  lemma {:induction false} ReplaceableCounts(ms: seq<Message>)
    ensures |Boundaries(ms)| + Replaceable(ms) == |ms|
    ensures Replaceable(ms) > 0 <==> exists m | m in ms :: !m.boundary
  {
    if ms != [] {
      var front, last := ms[..|ms| - 1], ms[|ms| - 1];
      ReplaceableCounts(front);
      assert ms == front + [last];
    }
  }

  lemma HeadLength(older: seq<Message>, typed: bool, summary: string)
    ensures |Head(older, typed, summary)| + Replaceable(older)
            == |older| + (if Replaceable(older) > 0 then 1 else 0) + if Carries(older) then 1 else 0
  {
    hide Boundaries, LastUser, Replaceable;
    ReplaceableCounts(older);
    BoundariesAre(older);
    LastUserIs(older);
    var user := LastUser(older);
    if user.Some? && user.value.boundary { BoundaryKept(older, user.value); }
  }

  /** Compaction changes the conversation exactly when it shrinks it, and that is known before. */
  lemma IfSmallerIff(ms: seq<Message>, keep: nat, summary: string)
    ensures IfSmaller(ms, keep, summary) == if Shrinks(ms, keep) then Compacted(ms, keep, summary) else ms
    ensures |IfSmaller(ms, keep, summary)| < |ms| <==> Shrinks(ms, keep)
  {
    if |ms| > keep + 1 && Cut(ms, keep) > 0 {
      HeadLength(ms[..Cut(ms, keep)], Typed(ms), summary);
      var older := ms[..Cut(ms, keep)];
      if Carries(older) {
        LastUserIs(older);
        ReplaceableCounts(older);
      }
    }
    hide Head, Cut, Typed, Replaceable, Carries;
  }

  function AtLeastOne(keep: nat): nat {
    if keep < 1 then 1 else keep
  }

  /** The window the default service compacts to, if it compacts at all: the fallback keeps at least
      one message, and runs only when nothing was pruned or compacted. */
  function Stage(p: Pruning, ms: seq<Message>, keep: nat, sessionCompacted: bool): Option<nat> {
    if Shrinks(ms, keep) then Some(keep)
    else if ClearsAny(p, ms) || sessionCompacted || !Shrinks(ms, AtLeastOne(keep)) then None
    else Some(AtLeastOne(keep))
  }

  /** The same conversation but for contents and results. */
  ghost predicate SameShape(a: seq<Message>, b: seq<Message>) {
    |a| == |b| && forall i | 0 <= i < |a| ::
      && a[i].role == b[i].role && a[i].turn == b[i].turn && a[i].origin == b[i].origin
      && a[i].boundary == b[i].boundary
      && (a[i].role.User? ==> a[i] == b[i])
  }

  lemma {:induction false} FirstOfSame(a: seq<Message>, b: seq<Message>, turns: set<string>, i: nat, default: nat)
    requires SameShape(a, b) && i <= |a|
    ensures FirstOf(a, turns, i, default) == FirstOf(b, turns, i, default)
    decreases |a| - i
  {
    if i < |a| { FirstOfSame(a, b, turns, i + 1, default); }
  }

  lemma CutSame(a: seq<Message>, b: seq<Message>, keep: nat)
    requires SameShape(a, b) && keep <= |a|
    ensures Cut(a, keep) == Cut(b, keep)
  {
    TypedOneWay(a, b);
    TypedOneWay(b, a);
    var split := |a| - keep;
    assert TurnsOf(a[split..]) == TurnsOf(b[split..]) by {
      var x, y := a[split..], b[split..];
      assert forall i | 0 <= i < |x| :: x[i].turn == y[i].turn;
    }
    FirstOfSame(a, b, TurnsOf(a[split..]), 0, split);
    hide TurnsOf, Typed, FirstOf;
  }

  lemma TypedOneWay(a: seq<Message>, b: seq<Message>)
    requires SameShape(a, b)
    ensures Typed(a) ==> Typed(b)
  {
    if m :| m in a && m.origin.FromModel? {
      var i :| 0 <= i < |a| && a[i] == m;
      assert b[i] in b;
    }
  }

  lemma {:induction false} CountsSame(a: seq<Message>, b: seq<Message>)
    requires SameShape(a, b)
    ensures Replaceable(a) == Replaceable(b) && LastUser(a) == LastUser(b)
  {
    if a != [] { CountsSame(a[..|a| - 1], b[..|b| - 1]); }
  }

  lemma ShrinksSame(a: seq<Message>, b: seq<Message>, keep: nat)
    requires SameShape(a, b)
    ensures Shrinks(a, keep) == Shrinks(b, keep)
  {
    if |a| > keep + 1 {
      CutSame(a, b, keep);
      CountsSame(a[..Cut(a, keep)], b[..Cut(a, keep)]);
    }
    hide Cut, Replaceable, LastUser;
  }

  lemma PrunedShape(p: Pruning, ms: seq<Message>)
    ensures SameShape(ms, Pruned(p, ms))
  {
    hide Clears;
    forall i | 0 <= i < |ms| && Clears(p, ms, i) ensures ms[i].role.Tool? { ClearsTool(p, ms, i); }
  }

  lemma ClearsTool(p: Pruning, ms: seq<Message>, i: nat)
    requires i < |ms| && Clears(p, ms, i)
    ensures ms[i].role.Tool?
  {}

  /** What the default service does, told from the conversation it is given. */
  lemma DefaultCompactedIs(p: Pruning, ms: seq<Message>, keep: nat, summary: string, fallback: string,
                           sessionCompacted: bool)
    ensures var pruned, stage := Pruned(p, ms), Stage(p, ms, keep, sessionCompacted);
            var after := DefaultCompacted(p, ms, keep, summary, fallback, sessionCompacted);
            match stage
            case None => after == pruned
            case Some(k) =>
              |after| < |ms|
              && after == Compacted(pruned, k, if Shrinks(ms, keep) then summary else fallback)
  {
    hide Pruned, Shrinks, ClearsAny, Compacted, IfSmaller, SameShape;
    var pruned := Pruned(p, ms);
    PrunedShape(p, ms);
    PrunedLength(p, ms);
    ShrinksSame(ms, pruned, keep);
    ShrinksSame(ms, pruned, AtLeastOne(keep));
    IfSmallerIff(pruned, keep, summary);
    IfSmallerIff(pruned, AtLeastOne(keep), fallback);
  }

  lemma PrunedLength(p: Pruning, ms: seq<Message>)
    ensures |Pruned(p, ms)| == |ms|
  {}

  // ---------- the default service ----------

  lemma ClearedSendable(show: Show, native: bool, p: Pruning, m: Message)
    ensures Sendable(show, native, Cleared(p, m))
  {}

  lemma PrunedSendable(show: Show, native: bool, p: Pruning, ms: seq<Message>)
    requires AllSendable(show, native, ms)
    ensures AllSendable(show, native, Pruned(p, ms))
  {
    hide Sendable, Cleared, Clears;
    var pruned := Pruned(p, ms);
    forall m | m in pruned ensures Sendable(show, native, m) {
      var i :| 0 <= i < |pruned| && pruned[i] == m;
      if Clears(p, ms, i) { ClearedSendable(show, native, p, ms[i]); }
    }
  }

  /** Whatever a conversation that can be sent holds: after the default service it can be replayed if
      and only if the pruned conversation settles, from where the stage that compacts cuts it. */
  lemma DefaultReplaysIffSettles(show: Show, native: bool, p: Pruning, ms: seq<Message>, keep: nat, summary: string,
                                 fallback: string, sessionCompacted: bool)
    requires AllSendable(show, native, ms)
    ensures var pruned, stage := Pruned(p, ms), Stage(p, ms, keep, sessionCompacted);
            Replayable(show, native, DefaultCompacted(p, ms, keep, summary, fallback, sessionCompacted))
            <==> if stage.Some? then CompactsWell(pruned, stage.value) else Settles({}, pruned)
  {
    hide Pruned, Stage, DefaultCompacted, Compacted, CompactsWell, Settles, AllSendable, Replayable;
    var pruned, stage := Pruned(p, ms), Stage(p, ms, keep, sessionCompacted);
    DefaultCompactedIs(p, ms, keep, summary, fallback, sessionCompacted);
    PrunedSendable(show, native, p, ms);
    ReplayableIffSettles(show, native, pruned);
    if stage.Some? {
      CompactedReplaysIffSettles(show, native, pruned, stage.value, if Shrinks(ms, keep) then summary else fallback);
    }
  }

  /** Tool messages answer calls; they make none. */
  predicate ToolsCallNothing(ms: seq<Message>) {
    forall i | 0 <= i < |ms| && ms[i].role.Tool? :: CallIds(ms[i]) == {}
  }

  /** Two conversations with the same calls and answers. */
  ghost predicate SameCalls(a: seq<Message>, b: seq<Message>) {
    |a| == |b| && forall i | 0 <= i < |a| :: SameCall(a[i], b[i])
  }

  predicate SameCall(a: Message, b: Message) {
    a.result.Some? == b.result.Some? && CallIds(a) == CallIds(b) && (a.result.Some? ==> ResultId(a) == ResultId(b))
  }

  lemma {:induction false} SettlesSame(a: seq<Message>, b: seq<Message>, open: set<string>)
    requires SameCalls(a, b)
    ensures Settles(open, a) == Settles(open, b)
    decreases |a|
  {
    hide CallIds;
    if a != [] {
      assert SameCall(a[0], b[0]);
      SettlesSame(a[1..], b[1..], NextCalls(open, a[0]));
    }
  }

  lemma PrunedCalls(p: Pruning, ms: seq<Message>)
    requires ToolsCallNothing(ms)
    ensures SameCalls(ms, Pruned(p, ms))
  {
    hide Clears, Cleared;
    forall i | 0 <= i < |ms| ensures SameCall(ms[i], Pruned(p, ms)[i]) {
      if Clears(p, ms, i) {
        ClearsTool(p, ms, i);
        ClearedCalls(p, ms[i]);
      }
    }
  }

  lemma ClearedCalls(p: Pruning, m: Message)
    requires CallIds(m) == {}
    ensures SameCall(m, Cleared(p, m))
  {
    assert CallIds(Cleared(p, m)) == {};
  }

  /** Pruning does not matter to what compaction leaves. */
  lemma CompactsWellPruned(p: Pruning, ms: seq<Message>, keep: nat)
    requires ToolsCallNothing(ms)
    ensures CompactsWell(Pruned(p, ms), keep) == CompactsWell(ms, keep)
  {
    var pruned := Pruned(p, ms);
    PrunedShape(p, ms);
    PrunedCalls(p, ms);
    hide Pruned, SameCall, Settles, CallIds;
    SettlesSame(ms, pruned, {});
    if |ms| > keep + 1 {
      CutSame(ms, pruned, keep);
      var c := Cut(ms, keep);
      CountsSame(ms[..c], pruned[..c]);
      SettlesSame(ms[c..], pruned[c..], CarriedCalls(ms[..c]));
    }
    hide Cut, SameShape, SameCalls, LastUser, Replaceable;
  }

  /** After the default service a conversation that could be replayed, and whose tool messages make no
      calls, still can, unless a stage compacts it, and then if and only if what is kept settles
      from the carried calls.  All of it is told from the conversation before; it never grows. */
  lemma DefaultCompactReplaysIff(show: Show, native: bool, p: Pruning, ms: seq<Message>, keep: nat, summary: string,
                                 fallback: string, sessionCompacted: bool)
    requires Replayable(show, native, ms) && ToolsCallNothing(ms)
    ensures var stage := Stage(p, ms, keep, sessionCompacted);
            var after := DefaultCompacted(p, ms, keep, summary, fallback, sessionCompacted);
            && Replayable(show, native, Pruned(p, ms)) && |after| <= |ms|
            && (Replayable(show, native, after) <==> stage.Some? ==> CompactsWell(ms, stage.value))
  {
    hide Pruned, Stage, DefaultCompacted, Compacted, CompactsWell, Settles, AllSendable, Replayable, SameCalls;
    var stage := Stage(p, ms, keep, sessionCompacted);
    ReplayableIffSettles(show, native, ms);
    DefaultCompactedIs(p, ms, keep, summary, fallback, sessionCompacted);
    DefaultReplaysIffSettles(show, native, p, ms, keep, summary, fallback, sessionCompacted);
    PrunedCalls(p, ms);
    SettlesSame(ms, Pruned(p, ms), {});
    PrunedLength(p, ms);
    PrunedSendable(show, native, p, ms);
    ReplayableIffSettles(show, native, Pruned(p, ms));
    if stage.Some? { CompactsWellPruned(p, ms, stage.value); }
  }
}
