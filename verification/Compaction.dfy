/** Compacting a conversation never breaks its replay.

  Compaction cuts old history, replaces it by a summary and clears old tool payloads.  The
  provider refuses a call without its answer, so the cut must never separate the two.  The
  premises are what the recording loop supplies: calls are recorded by the model inside a turn,
  a result carries the turn of its call, and turns do not interleave. */
module Compaction {
  import opened ChunkTree
  import opened Replay

  // ---------- compacting ----------

  predicate Typed(ms: seq<Message>) {
    exists m | m in ms :: m.origin.FromModel?
  }

  function TurnsOf(ms: seq<Message>): set<string> {
    set i | 0 <= i < |ms| && ms[i].turn.Some? :: ms[i].turn.value
  }

  predicate InTurns(m: Message, turns: set<string>) {
    m.turn.Some? && m.turn.value in turns
  }

  /** The first message at or after i of one of the turns, else the default. */
  function FirstOf(ms: seq<Message>, turns: set<string>, i: nat, default: nat): (r: nat)
    requires i <= |ms|
    ensures r == default || i <= r < |ms|
    decreases |ms| - i
  {
    if i == |ms| then default
    else if InTurns(ms[i], turns) then i
    else FirstOf(ms, turns, i + 1, default)
  }

  /** Where history is cut: before the last `keep` messages, moved so that no kept turn is split. */
  function Cut(ms: seq<Message>, keep: nat): (c: nat)
    requires keep <= |ms|
    ensures c <= |ms|
  {
    var split := |ms| - keep;
    if Typed(ms) && split < |ms| then FirstOf(ms, TurnsOf(ms[split..]), 0, split) else split
  }

  function Boundaries(ms: seq<Message>): seq<Message> {
    if ms == [] then [] else Boundaries(ms[..|ms| - 1]) + if ms[|ms| - 1].boundary then [ms[|ms| - 1]] else []
  }

  function LastUser(ms: seq<Message>): Option<Message> {
    if ms == [] then None
    else if ms[|ms| - 1].role.User? then Some(ms[|ms| - 1])
    else LastUser(ms[..|ms| - 1])
  }

  function SummaryMessage(typed: bool, summary: string): Message {
    Message(if typed then User else System, Plain("[Summary of prior context]\n" + summary), None, "", None,
            Elsewhere, true)
  }

  /** What replaces the messages before the cut. */
  function Head(older: seq<Message>, typed: bool, summary: string): seq<Message> {
    var kept := Boundaries(older);
    var head := kept + if exists m | m in older :: !m.boundary then [SummaryMessage(typed, summary)] else [];
    var user := LastUser(older);
    if user.Some? && user.value !in head then head + [user.value] else head
  }

  function Compacted(ms: seq<Message>, keep: nat, summary: string): seq<Message> {
    if |ms| <= keep + 1 then ms
    else
      var cut := Cut(ms, keep);
      if cut == 0 || cut > |ms| then ms else Head(ms[..cut], Typed(ms), summary) + ms[cut..]
  }

  /** Compaction that does not shorten is undone. */
  function IfSmaller(ms: seq<Message>, keep: nat, summary: string): seq<Message> {
    var after := Compacted(ms, keep, summary);
    if |after| >= |ms| then ms else after
  }

  // ---------- pruning ----------

  datatype Pruning = Pruning(keep: nat, tools: set<string>, marker: string)

  /** A tool message that has not been cleared and is of a tool that may be. */
  predicate Prunable(p: Pruning, m: Message) {
    && m.role.Tool? && m.content != Plain(p.marker)
    && (p.tools != {} ==> (if m.result.Some? then m.result.value.tool else "") in p.tools)
  }

  function PrunableCount(p: Pruning, ms: seq<Message>): nat {
    if ms == [] then 0 else (if Prunable(p, ms[0]) then 1 else 0) + PrunableCount(p, ms[1..])
  }

  function Cleared(p: Pruning, m: Message): Message {
    m.(content := Plain(p.marker),
       result := if m.result.Some? then Some(m.result.value.(data := p.marker)) else None)
  }

  /** All but the last `keep` prunable messages are cleared. */
  predicate Clears(p: Pruning, ms: seq<Message>, i: nat)
    requires i < |ms|
  {
    Prunable(p, ms[i]) && PrunableCount(p, ms[i + 1..]) >= p.keep
  }

  function Pruned(p: Pruning, ms: seq<Message>): seq<Message> {
    seq(|ms|, i requires 0 <= i < |ms| => if Clears(p, ms, i) then Cleared(p, ms[i]) else ms[i])
  }

  predicate ClearsAny(p: Pruning, ms: seq<Message>) {
    exists i | 0 <= i < |ms| :: Clears(p, ms, i)
  }

  // ---------- the default service ----------

  /** Prune, then compact, and only when neither did anything compact again keeping at least one. */
  function DefaultCompacted(p: Pruning, ms: seq<Message>, keep: nat, summary: string, fallback: string,
                            sessionCompacted: bool): seq<Message> {
    var pruned := Pruned(p, ms);
    var compacted := IfSmaller(pruned, keep, summary);
    if ClearsAny(p, ms) || |compacted| < |pruned| || sessionCompacted then compacted
    else IfSmaller(compacted, if keep < 1 then 1 else keep, fallback)
  }

  lemma ClearsIs(p: Pruning, ms: seq<Message>, i: nat)
    requires i < |ms|
    ensures Clears(p, ms, i) <==> Prunable(p, ms[i]) && PrunableCount(p, ms[i + 1..]) >= p.keep
  {}

  /** Pruning reaches one message further back. */
  lemma PrunedAt(p: Pruning, ms: seq<Message>, i: nat)
    requires i < |ms|
    ensures |Pruned(p, ms)| == |ms|
    ensures var x := if Clears(p, ms, i) then Cleared(p, ms[i]) else ms[i];
            (ms[..i + 1] + Pruned(p, ms)[i + 1..])[i := x] == ms[..i] + Pruned(p, ms)[i..]
  {
    hide Clears, Cleared;
  }

  class Conversation {
    var messages: seq<Message>

    constructor (messages: seq<Message>)
      ensures this.messages == messages
    {
      this.messages := messages;
    }

    method Compact(keep: nat, summary: string)
      modifies this
      ensures messages == Compacted(old(messages), keep, summary)
    {
      hide Head, TurnsOf, Typed, InTurns;
      if |messages| <= keep + 1 { return; }
      var split := |messages| - keep;
      var typed := Typed(messages);
      if typed && split < |messages| {
        var turns := TurnsOf(messages[split..]);
        var i := 0;
        while i < |messages| && !InTurns(messages[i], turns)
          invariant 0 <= i <= |messages|
          invariant FirstOf(messages, turns, 0, split) == FirstOf(messages, turns, i, split)
        {
          i := i + 1;
        }
        if i < |messages| { split := i; }
      }
      if split == 0 { return; }
      var head := ReplaceOld(messages[..split], typed, summary);
      messages := head + messages[split..];
    }

    method ReplaceOld(older: seq<Message>, typed: bool, summary: string) returns (head: seq<Message>)
      ensures head == Head(older, typed, summary)
    {
      hide Boundaries, LastUser;
      NothingReplaced();
      head := [];
      var user: Option<Message> := None;
      var summarize := false;
      var i := 0;
      while i < |older|
        invariant 0 <= i <= |older|
        invariant head == Boundaries(older[..i]) && user == LastUser(older[..i])
        invariant summarize <==> exists m | m in older[..i] :: !m.boundary
      {
        OneMoreReplaced(older, i);
        if older[i].role.User? { user := Some(older[i]); }
        if older[i].boundary { head := head + [older[i]]; } else { summarize := true; }
        i := i + 1;
      }
      assert older[..|older|] == older;
      if summarize { head := head + [SummaryMessage(typed, summary)]; }
      if user.Some? && user.value !in head { head := head + [user.value]; }
    }

    /** Compact only when the message count shrinks. */
    method CompactIfSmaller(keep: nat, summary: string)
      modifies this
      ensures messages == IfSmaller(old(messages), keep, summary)
    {
      var original := messages;
      Compact(keep, summary);
      if |messages| >= |original| { messages := original; }
    }

    /** Clear old tool payloads from the newest to the oldest; true when something was cleared. */
    method Prune(p: Pruning) returns (cleared: bool)
      modifies this
      ensures messages == Pruned(p, old(messages)) && cleared == ClearsAny(p, old(messages))
    {
      hide Prunable, Cleared, Clears;
      var ms := messages;
      var newer := 0;
      cleared := false;
      var i := |ms|;
      while i > 0
        invariant 0 <= i <= |ms| == |messages| && newer == PrunableCount(p, ms[i..])
        invariant messages == ms[..i] + Pruned(p, ms)[i..]
        invariant cleared <==> exists j | i <= j < |ms| :: Clears(p, ms, j)
      {
        i := i - 1;
        assert ms[i..][1..] == ms[i + 1..];
        ClearsIs(p, ms, i);
        PrunedAt(p, ms, i);
        if Prunable(p, ms[i]) {
          if newer >= p.keep {
            messages := messages[i := Cleared(p, ms[i])];
            cleared := true;
          }
          newer := newer + 1;
        }
      }
    }

    method DefaultCompact(p: Pruning, keep: nat, summary: string, fallback: string, sessionCompacted: bool)
      modifies this
      ensures messages == DefaultCompacted(p, old(messages), keep, summary, fallback, sessionCompacted)
    {
      var cleared := Prune(p);
      var before := |messages|;
      CompactIfSmaller(keep, summary);
      if !cleared && |messages| >= before && !sessionCompacted {
        CompactIfSmaller(if keep < 1 then 1 else keep, fallback);
      }
    }
  }

  lemma NothingReplaced()
    ensures Boundaries([]) == [] && LastUser([]) == None
  {}

  lemma OneMoreReplaced(older: seq<Message>, i: nat)
    requires i < |older|
    ensures Boundaries(older[..i + 1]) == Boundaries(older[..i]) + if older[i].boundary then [older[i]] else []
    ensures LastUser(older[..i + 1]) == if older[i].role.User? then Some(older[i]) else LastUser(older[..i])
    ensures (exists m | m in older[..i + 1] :: !m.boundary)
            <==> (exists m | m in older[..i] :: !m.boundary) || !older[i].boundary
  {
    assert older[..i + 1][..i] == older[..i] && older[..i + 1] == older[..i] + [older[i]];
  }

  // ---------- replay, message by message ----------

  function NextOpen(show: Show, native: bool, pending: Option<set<string>>, m: Message): Option<set<string>> {
    if pending.None? then None
    else
      var t := Take(show, native, pending.value, m);
      if t.None? then None else Some(t.value.pending)
  }

  function After(show: Show, native: bool, pending: Option<set<string>>, ms: seq<Message>): Option<set<string>>
    decreases |ms|
  {
    if ms == [] then pending else After(show, native, NextOpen(show, native, pending, ms[0]), ms[1..])
  }

  predicate Replayable(show: Show, native: bool, ms: seq<Message>) {
    After(show, native, Some({}), ms) == Some({})
  }

  lemma {:induction false} AfterJoin(show: Show, native: bool, pending: Option<set<string>>,
                                     a: seq<Message>, b: seq<Message>)
    ensures After(show, native, pending, a + b) == After(show, native, After(show, native, pending, a), b)
    decreases |a|
  {
    if a == [] {
      assert a + b == b;
    } else {
      assert (a + b)[1..] == a[1..] + b;
      AfterJoin(show, native, NextOpen(show, native, pending, a[0]), a[1..], b);
    }
  }

  lemma {:induction false} AfterNone(show: Show, native: bool, ms: seq<Message>)
    ensures After(show, native, None, ms) == None
    decreases |ms|
  {
    if ms != [] { AfterNone(show, native, ms[1..]); }
  }

  lemma AfterSnoc(show: Show, native: bool, pending: Option<set<string>>, a: seq<Message>, m: Message)
    ensures After(show, native, pending, a + [m]) == NextOpen(show, native, After(show, native, pending, a), m)
  {
    AfterJoin(show, native, pending, a, [m]);
    assert [m][1..] == [];
  }

  lemma {:induction false} AfterIsTakeAll(show: Show, native: bool, ms: seq<Message>)
    ensures var t := TakeAll(show, native, {}, ms);
            After(show, native, Some({}), ms) == if t.None? then None else Some(t.value.pending)
    decreases |ms|
  {
    if ms != [] {
      var front := ms[..|ms| - 1];
      AfterIsTakeAll(show, native, front);
      assert ms == front + [ms[|ms| - 1]];
      AfterSnoc(show, native, Some({}), front, ms[|ms| - 1]);
    }
  }

  /** A conversation is replayable exactly when the provider input can be built from it. */
  lemma ReplayableIsAccepted(show: Show, native: bool, prompt: string, ms: seq<Message>)
    ensures Replayable(show, native, ms) <==> Messages(show, prompt, Some(ms), native).Some?
  {
    AfterIsTakeAll(show, native, ms);
  }

  // ---------- the premises ----------

  predicate Brings(m: Message, id: string) {
    Spoken(m) && m.content.Blocks? && exists b | b in m.content.blocks :: b.Use? && b.id == id
  }

  predicate Answers(m: Message, id: string) {
    m.result.Some? && ResultId(m) == id
  }

  /** Calls come from the model inside a turn; user messages and summaries carry no results. */
  ghost predicate WellRecorded(m: Message) {
    && (forall id | Brings(m, id) :: m.role.Assistant? && m.origin.FromModel? && m.turn.Some?)
    && (m.role.User? || m.boundary ==> m.result.None?)
    && (m.boundary ==> m.turn.None?)
  }

  /** Message j is the first after i that answers the identifier. */
  predicate AnswersFirst(ms: seq<Message>, i: nat, j: nat, id: string)
    requires i < j < |ms|
  {
    Answers(ms[j], id) && forall k | i < k < j :: !Answers(ms[k], id)
  }

  /** A call and the first later result for it belong to the same turn. */
  ghost predicate SharedTurns(ms: seq<Message>) {
    forall i, j, id | 0 <= i < j < |ms| && Brings(ms[i], id) && AnswersFirst(ms, i, j, id) ::
      ms[i].turn == ms[j].turn
  }

  /** Between two messages of one turn there is no message of another. */
  ghost predicate Contiguous(ms: seq<Message>) {
    forall i, j, k | 0 <= i < j < k < |ms| && ms[i].turn.Some? && ms[i].turn == ms[k].turn && ms[j].turn.Some? ::
      ms[j].turn == ms[i].turn
  }

  /** Calls are made inside turns, and turns are what the cut respects: some message is the model's. */
  ghost predicate CallsInTurns(ms: seq<Message>) {
    forall i, id | 0 <= i < |ms| && Brings(ms[i], id) :: ms[i].turn.Some? && Typed(ms)
  }

  ghost predicate Disciplined(ms: seq<Message>) {
    (forall i | 0 <= i < |ms| :: WellRecorded(ms[i])) && SharedTurns(ms) && Contiguous(ms)
  }

  // ---------- nothing is open at the cut ----------

  lemma {:induction false} AddCallsOpens(pending: set<string>, blocks: seq<Block>, id: string)
    requires AddCalls(pending, blocks).Some? && id in AddCalls(pending, blocks).value
    ensures id in pending || exists b | b in blocks :: b.Use? && b.id == id
    decreases |blocks|
  {
    if blocks != [] {
      assert blocks[0] in blocks;
      AddCallsOpens(if blocks[0].Use? then pending + {blocks[0].id} else pending, blocks[1..], id);
      if b :| b in blocks[1..] && b.Use? && b.id == id { assert b in blocks; }
    }
  }

  lemma {:induction false} AddCallsKeeps(pending: set<string>, blocks: seq<Block>)
    requires AddCalls(pending, blocks).Some?
    ensures pending <= AddCalls(pending, blocks).value
    ensures (forall b | b in blocks :: !b.Use?) ==> AddCalls(pending, blocks).value == pending
    decreases |blocks|
  {
    if blocks != [] {
      assert blocks[0] in blocks;
      AddCallsKeeps(if blocks[0].Use? then pending + {blocks[0].id} else pending, blocks[1..]);
      assert forall b | b in blocks[1..] :: b in blocks;
    }
  }

  /** What one message does to one identifier. */
  lemma TakeOne(show: Show, native: bool, pending: set<string>, m: Message, id: string)
    requires Take(show, native, pending, m).Some?
    ensures var now := Take(show, native, pending, m).value.pending;
            && (id in now ==> !(id in pending && Answers(m, id)) && (id in pending || Brings(m, id)))
            && (id in pending ==> id in now || Answers(m, id))
  {
    if Spoken(m) && m.content.Blocks? {
      AddCallsKeeps(pending, m.content.blocks);
      if id in AddCalls(pending, m.content.blocks).value { AddCallsOpens(pending, m.content.blocks, id); }
    }
  }

  /** An open identifier was brought by some message and not answered since. */
  lemma {:induction false} OpenWasBrought(show: Show, native: bool, ms: seq<Message>, n: nat, id: string)
      returns (i: nat)
    requires n <= |ms| && After(show, native, Some({}), ms[..n]).Some?
    requires id in After(show, native, Some({}), ms[..n]).value
    ensures i < n && Brings(ms[i], id) && forall k | i < k < n :: !Answers(ms[k], id)
    decreases n
  {
    i := 0;
    if n > 0 {
      assert ms[..n] == ms[..n - 1] + [ms[n - 1]];
      AfterSnoc(show, native, Some({}), ms[..n - 1], ms[n - 1]);
      var before := After(show, native, Some({}), ms[..n - 1]);
      TakeOne(show, native, before.value, ms[n - 1], id);
      if Brings(ms[n - 1], id) {
        i := n - 1;
      } else {
        i := OpenWasBrought(show, native, ms, n - 1, id);
      }
    }
  }

  /** An open identifier that is closed in the end is answered by some later message. */
  lemma {:induction false} OpenIsAnswered(show: Show, native: bool, pending: set<string>, ms: seq<Message>,
                                          c: nat, id: string)
      returns (j: nat)
    requires c <= |ms| && After(show, native, Some(pending), ms[c..]) == Some({}) && id in pending
    ensures c <= j < |ms| && Answers(ms[j], id) && forall k | c <= k < j :: !Answers(ms[k], id)
    decreases |ms| - c
  {
    j := c;
    if c < |ms| {
      assert ms[c..][1..] == ms[c + 1..];
      if !Answers(ms[c], id) {
        var next := NextOpen(show, native, Some(pending), ms[c]);
        if next.None? { AfterNone(show, native, ms[c + 1..]); }
        TakeOne(show, native, pending, ms[c], id);
        j := OpenIsAnswered(show, native, next.value, ms, c + 1, id);
      }
    }
  }

  lemma {:induction false} FirstOfIs(ms: seq<Message>, turns: set<string>, i: nat, default: nat)
    requires i <= |ms|
    ensures var f := FirstOf(ms, turns, i, default);
            && ((f == default && (forall k | i <= k < |ms| :: !InTurns(ms[k], turns)))
                || (i <= f < |ms| && InTurns(ms[f], turns) && forall k | i <= k < f :: !InTurns(ms[k], turns)))
    decreases |ms| - i
  {
    if i < |ms| { FirstOfIs(ms, turns, i + 1, default); }
  }

  /** No call made in a turn before the cut has its answer after it. */
  lemma CutSplitsNoPair(ms: seq<Message>, keep: nat, i: nat, j: nat, id: string)
    requires SharedTurns(ms) && Contiguous(ms) && CallsInTurns(ms) && keep <= |ms| && i < j < |ms|
    requires Brings(ms[i], id) && AnswersFirst(ms, i, j, id)
    ensures !(i < Cut(ms, keep) <= j)
  {
    assert ms[i].turn.Some? && ms[i].turn == ms[j].turn;
    var c, split := Cut(ms, keep), |ms| - keep;
    if split < |ms| {
      var turns := TurnsOf(ms[split..]);
      FirstOfIs(ms, turns, 0, split);
      if j >= split {
        assert ms[split..][j - split] == ms[j];
        assert InTurns(ms[j], turns);
      }
    }
  }

  lemma NothingOpenAtCut(show: Show, native: bool, ms: seq<Message>, keep: nat)
    requires SharedTurns(ms) && Contiguous(ms) && CallsInTurns(ms)
    requires Replayable(show, native, ms) && keep <= |ms| && Cut(ms, keep) <= |ms|
    ensures After(show, native, Some({}), ms[..Cut(ms, keep)]) == Some({})
    ensures After(show, native, Some({}), ms[Cut(ms, keep)..]) == Some({})
  {
    var c := Cut(ms, keep);
    assert ms == ms[..c] + ms[c..];
    AfterJoin(show, native, Some({}), ms[..c], ms[c..]);
    var open := After(show, native, Some({}), ms[..c]);
    if open.None? {
      AfterNone(show, native, ms[c..]);
    } else if open.value != {} {
      var id :| id in open.value;
      var i := OpenWasBrought(show, native, ms, c, id);
      var j := OpenIsAnswered(show, native, open.value, ms, c, id);
      CutSplitsNoPair(ms, keep, i, j, id);
    }
  }

  // ---------- what replaces the old messages ----------

  /** Every message of a replayable conversation was accepted at its place. */
  lemma AcceptedAt(show: Show, native: bool, ms: seq<Message>, i: nat) returns (pending: set<string>)
    requires i < |ms| && Replayable(show, native, ms)
    ensures NextOpen(show, native, Some(pending), ms[i]).Some?
  {
    assert ms == ms[..i] + ([ms[i]] + ms[i + 1..]);
    AfterJoin(show, native, Some({}), ms[..i], [ms[i]] + ms[i + 1..]);
    var before := After(show, native, Some({}), ms[..i]);
    pending := if before.Some? then before.value else {};
    if before.None? { AfterNone(show, native, [ms[i]] + ms[i + 1..]); }
    assert ([ms[i]] + ms[i + 1..])[1..] == ms[i + 1..];
    if NextOpen(show, native, before, ms[i]).None? { AfterNone(show, native, ms[i + 1..]); }
  }

  lemma {:induction false} BoundariesAre(ms: seq<Message>)
    ensures forall m | m in Boundaries(ms) :: m in ms && m.boundary
  {
    if ms != [] {
      BoundariesAre(ms[..|ms| - 1]);
      assert forall m | m in ms[..|ms| - 1] :: m in ms;
    }
  }

  lemma {:induction false} LastUserIs(ms: seq<Message>)
    ensures LastUser(ms).Some? ==> LastUser(ms).value in ms && LastUser(ms).value.role.User?
  {
    if ms != [] && !ms[|ms| - 1].role.User? {
      LastUserIs(ms[..|ms| - 1]);
      assert forall m | m in ms[..|ms| - 1] :: m in ms;
    }
  }

  /** The head is made of old summaries, the new one, and at most one old user message. */
  lemma HeadIs(older: seq<Message>, typed: bool, summary: string)
    ensures forall m | m in Head(older, typed, summary) ::
              m == SummaryMessage(typed, summary) || (m in older && (m.boundary || m.role.User?))
    ensures var head := Head(older, typed, summary);
            forall i | 0 <= i < |head| - 1 :: head[i].boundary
  {
    BoundariesAre(older);
    LastUserIs(older);
    var kept := Boundaries(older);
    assert forall i | 0 <= i < |kept| :: kept[i] in kept;
  }

  // ---------- the premises survive ----------

  ghost predicate HeadOk(head: seq<Message>) {
    && (forall i | 0 <= i < |head| :: WellRecorded(head[i]) && (head[i].boundary || head[i].role.User?))
    && (forall i | 0 <= i < |head| - 1 :: head[i].boundary)
  }

  lemma HeadIsOk(ms: seq<Message>, c: nat, typed: bool, summary: string)
    requires (forall i | 0 <= i < |ms| :: WellRecorded(ms[i])) && c <= |ms|
    ensures HeadOk(Head(ms[..c], typed, summary))
    ensures var head := Head(ms[..c], typed, summary);
            forall i | 0 <= i < |head| && head[i].turn.Some? :: exists u | 0 <= u < c :: ms[u] == head[i]
  {
    HeadIs(ms[..c], typed, summary);
    var head := Head(ms[..c], typed, summary);
    forall i | 0 <= i < |head|
      ensures WellRecorded(head[i]) && (head[i].boundary || head[i].role.User?)
      ensures head[i].turn.Some? ==> exists u | 0 <= u < c :: ms[u] == head[i]
    {
      assert head[i] in head;
      if head[i] != SummaryMessage(typed, summary) {
        var u :| 0 <= u < c && ms[..c][u] == head[i];
        assert ms[u] == head[i];
      }
    }
  }

  lemma HeadBringsNothing(head: seq<Message>, tail: seq<Message>, id: string)
    requires HeadOk(head)
    ensures forall i | 0 <= i < |head| :: !Brings((head + tail)[i], id)
  {
    forall i | 0 <= i < |head| ensures !Brings(head[i], id) { assert WellRecorded(head[i]); }
  }

  lemma TailPairShares(head: seq<Message>, ms: seq<Message>, c: nat, i: nat, j: nat, id: string)
    requires SharedTurns(ms) && c <= |ms| && |head| <= i < j < |head| + |ms| - c
    requires var all := head + ms[c..]; Brings(all[i], id) && AnswersFirst(all, i, j, id)
    ensures (head + ms[c..])[i].turn == (head + ms[c..])[j].turn
  {
    hide Brings, Answers;
    var all, i', j' := head + ms[c..], i - |head| + c, j - |head| + c;
    assert all[i] == ms[i'] && all[j] == ms[j'];
    assert AnswersFirst(ms, i', j', id) by {
      forall k | i' < k < j' ensures !Answers(ms[k], id) { assert all[k - c + |head|] == ms[k]; }
    }
    hide AnswersFirst;
  }

  lemma TailSharesTurns(head: seq<Message>, ms: seq<Message>, c: nat)
    requires HeadOk(head) && SharedTurns(ms) && c <= |ms|
    ensures SharedTurns(head + ms[c..])
  {
    hide Brings, Answers, WellRecorded, AnswersFirst;
    var all := head + ms[c..];
    forall i, j, id | 0 <= i < j < |all| && Brings(all[i], id) && AnswersFirst(all, i, j, id)
      ensures all[i].turn == all[j].turn
    {
      HeadBringsNothing(head, ms[c..], id);
      TailPairShares(head, ms, c, i, j, id);
    }
  }

  lemma TailContiguous(head: seq<Message>, ms: seq<Message>, c: nat)
    requires HeadOk(head) && Contiguous(ms) && c <= |ms|
    requires forall i | 0 <= i < |head| && head[i].turn.Some? :: exists u | 0 <= u < c :: ms[u] == head[i]
    ensures Contiguous(head + ms[c..])
  {
    var all, n := head + ms[c..], |head|;
    forall i, j, k | 0 <= i < j < k < |all| && all[i].turn.Some? && all[i].turn == all[k].turn && all[j].turn.Some?
      ensures all[j].turn == all[i].turn
    {
      if i < n {
        assert all[i] == head[i] && WellRecorded(head[i]);
        assert i == n - 1;
        var u :| 0 <= u < c && ms[u] == head[i];
        assert all[j] == ms[j - n + c] && all[k] == ms[k - n + c];
      } else {
        assert all[i] == ms[i - n + c] && all[j] == ms[j - n + c] && all[k] == ms[k - n + c];
      }
    }
  }

  lemma CompactedKeepsDiscipline(ms: seq<Message>, keep: nat, summary: string)
    requires Disciplined(ms)
    ensures Disciplined(Compacted(ms, keep, summary))
  {
    hide Head, Cut, SharedTurns, Contiguous, WellRecorded;
    if |ms| > keep + 1 {
      var c := Cut(ms, keep);
      if 0 < c <= |ms| {
        var head := Head(ms[..c], Typed(ms), summary);
        HeadIsOk(ms, c, Typed(ms), summary);
        TailSharesTurns(head, ms, c);
        TailContiguous(head, ms, c);
        var all := head + ms[c..];
        forall i | 0 <= i < |all| ensures WellRecorded(all[i]) {
          if i >= |head| { assert all[i] == ms[i - |head| + c]; }
        }
      }
    }
  }

  // ---------- pruning ----------

  /** Two messages with the same turn, calls and answers, the second well recorded. */
  ghost predicate Alike(a: Message, b: Message) {
    && a.turn == b.turn && WellRecorded(b)
    && (forall id :: Brings(b, id) == Brings(a, id) && Answers(b, id) == Answers(a, id))
  }

  /** Clearing a payload changes nothing about calls, results and turns. */
  lemma ClearedIsAlike(p: Pruning, m: Message)
    requires WellRecorded(m) && Prunable(p, m)
    ensures Alike(m, Cleared(p, m))
  {}

  lemma PrunedIsAlike(p: Pruning, ms: seq<Message>)
    requires forall i | 0 <= i < |ms| :: WellRecorded(ms[i])
    ensures forall i | 0 <= i < |ms| :: Alike(ms[i], Pruned(p, ms)[i])
  {
    hide Prunable, Cleared, WellRecorded, Brings, Answers;
    forall i | 0 <= i < |ms| ensures Alike(ms[i], Pruned(p, ms)[i]) {
      if Clears(p, ms, i) { ClearedIsAlike(p, ms[i]); }
    }
  }

  lemma AlikeDisciplined(a: seq<Message>, b: seq<Message>)
    requires |a| == |b| && (forall i | 0 <= i < |a| :: Alike(a[i], b[i])) && Disciplined(a)
    ensures Disciplined(b)
  {
    hide Brings, Answers, WellRecorded;
    forall i, j, id | 0 <= i < j < |b| && Brings(b[i], id) && AnswersFirst(b, i, j, id)
      ensures b[i].turn == b[j].turn
    {
      assert Alike(a[i], b[i]) && Alike(a[j], b[j]);
      forall k | i < k < j ensures !Answers(a[k], id) { assert Alike(a[k], b[k]); }
      assert AnswersFirst(a, i, j, id);
    }
    forall i | 0 <= i < |b| ensures WellRecorded(b[i]) && a[i].turn == b[i].turn {
      assert Alike(a[i], b[i]);
    }
  }

  // ---------- what survives ----------

  lemma {:induction false} BoundariesJoin(a: seq<Message>, b: seq<Message>)
    ensures Boundaries(a + b) == Boundaries(a) + Boundaries(b)
    decreases |b|
  {
    if b == [] {
      assert a + b == a;
    } else {
      assert (a + b)[..|a + b| - 1] == a + b[..|b| - 1];
      BoundariesJoin(a, b[..|b| - 1]);
    }
  }

  lemma {:induction false} BoundariesTwice(ms: seq<Message>)
    ensures Boundaries(Boundaries(ms)) == Boundaries(ms)
  {
    if ms != [] {
      BoundariesTwice(ms[..|ms| - 1]);
      var last := ms[|ms| - 1];
      BoundariesJoin(Boundaries(ms[..|ms| - 1]), if last.boundary then [last] else []);
      assert Boundaries([last]) == Boundaries([]) + if last.boundary then [last] else [];
    }
  }

  lemma {:induction false} LastUserJoin(a: seq<Message>, b: seq<Message>)
    ensures LastUser(a + b) == if LastUser(b).Some? then LastUser(b) else LastUser(a)
    decreases |b|
  {
    if b == [] {
      assert a + b == a;
    } else {
      assert (a + b)[..|a + b| - 1] == a + b[..|b| - 1];
      LastUserJoin(a, b[..|b| - 1]);
    }
  }

  lemma {:induction false} BoundaryKept(ms: seq<Message>, m: Message)
    requires m in ms && m.boundary
    ensures m in Boundaries(ms)
  {
    if m != ms[|ms| - 1] {
      var i :| 0 <= i < |ms| && ms[i] == m;
      assert m == ms[..|ms| - 1][i];
      BoundaryKept(ms[..|ms| - 1], m);
    }
  }

  lemma BoundariesOfOne(m: Message)
    ensures Boundaries([]) == [] && Boundaries([m]) == if m.boundary then [m] else []
  {
    assert [m][..0] == [];
  }

  lemma HeadBoundaries(older: seq<Message>, typed: bool, summary: string)
    ensures Boundaries(Head(older, typed, summary))
            == Boundaries(older)
               + if exists m | m in older :: !m.boundary then [SummaryMessage(typed, summary)] else []
  {
    hide Boundaries, LastUser;
    var added := if exists m | m in older :: !m.boundary then [SummaryMessage(typed, summary)] else [];
    BoundariesTwice(older);
    BoundariesJoin(Boundaries(older), added);
    BoundariesOfOne(SummaryMessage(typed, summary));
    assert Boundaries(added) == added;
    assert Boundaries(Boundaries(older) + added) == Boundaries(older) + added;
    LastUserIs(older);
    var user := LastUser(older);
    if user.Some? {
      BoundariesJoin(Boundaries(older) + added, [user.value]);
      BoundariesOfOne(user.value);
      if user.value.boundary { BoundaryKept(older, user.value); }
    }
  }

  /** No earlier summary is dropped or reordered, one summary is added for what was cut, and the
      last thing the user said is still there. */
  lemma CompactedKeepsMemory(ms: seq<Message>, keep: nat, summary: string)
    ensures var after := Compacted(ms, keep, summary);
            && (LastUser(ms).Some? ==> LastUser(ms).value in after)
            && (after != ms ==>
                  var c := Cut(ms, keep);
                  0 < c <= |ms| && after[|after| - (|ms| - c)..] == ms[c..]
                  && Boundaries(after) == Boundaries(ms[..c])
                     + (if exists m | m in ms[..c] :: !m.boundary then [SummaryMessage(Typed(ms), summary)] else [])
                     + Boundaries(ms[c..]))
  {
    hide Head, Boundaries, LastUser, Typed, Cut;
    LastUserIs(ms);
    if |ms| > keep + 1 {
      var c := Cut(ms, keep);
      if 0 < c <= |ms| {
        var head := Head(ms[..c], Typed(ms), summary);
        assert ms == ms[..c] + ms[c..];
        assert forall m | m in ms[..c] :: m in ms;
        LastUserJoin(ms[..c], ms[c..]);
        LastUserIs(ms[c..]);
        LastUserKept(ms[..c], Typed(ms), summary);
        HeadBoundaries(ms[..c], Typed(ms), summary);
        BoundariesJoin(head, ms[c..]);
        assert (head + ms[c..])[|head|..] == ms[c..];
      }
    }
  }

  lemma LastUserKept(older: seq<Message>, typed: bool, summary: string)
    ensures LastUser(older).Some? ==> LastUser(older).value in Head(older, typed, summary)
  {}

  function Spared(p: Pruning, ms: seq<Message>): nat {
    if ms == [] then 0
    else (if Prunable(p, ms[0]) && !Clears(p, ms, 0) then 1 else 0) + Spared(p, ms[1..])
  }

  /** Pruning leaves exactly the newest `keep` prunable results, or all when there are fewer. */
  lemma {:induction false} PruneSparesRecent(p: Pruning, ms: seq<Message>)
    ensures Spared(p, ms) == if PrunableCount(p, ms) < p.keep then PrunableCount(p, ms) else p.keep
    decreases |ms|
  {
    if ms != [] { PruneSparesRecent(p, ms[1..]); }
  }

  lemma {:induction false} CountFalls(p: Pruning, ms: seq<Message>, i: nat, j: nat)
    requires i < j < |ms| && Prunable(p, ms[j])
    ensures PrunableCount(p, ms[i + 1..]) > PrunableCount(p, ms[j + 1..])
    decreases j - i
  {
    assert ms[i + 1..][1..] == ms[i + 2..];
    if i + 1 < j { CountFalls(p, ms, i + 1, j); }
  }

  /** What is cleared is older than what is spared. */
  lemma ClearedAreOlder(p: Pruning, ms: seq<Message>, i: nat, j: nat)
    requires i < j < |ms| && Prunable(p, ms[i]) && Clears(p, ms, j)
    ensures Clears(p, ms, i)
  {
    CountFalls(p, ms, i, j);
  }
}
