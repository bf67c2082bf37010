/** What the provider is told: everything that was said, by whom it was said, in order.

  `Conveys` gives, on the fields of one recorded message, what is sent for it; `EverythingIsSaid` that
  an accepted input is the prompt, that of every message in turn, and the closing line. */
module ReplayContent {
  import opened ChunkTree
  import opened Replay
  import opened Compaction
  import opened CompactionFlow
  import opened CompactionExact

  // ---------- what is sent for one message ----------

  /** The texts among the blocks, joined. */
  function TextOf(blocks: seq<Block>): string {
    if blocks == [] then ""
    else
      var n := |blocks| - 1;
      TextOf(blocks[..n]) + if blocks[n].Text? then blocks[n].text else ""
  }

  /** The calls among the blocks. */
  function UsesOf(blocks: seq<Block>): seq<Block> {
    if blocks == [] then []
    else
      var n := |blocks| - 1;
      UsesOf(blocks[..n]) + if blocks[n].Use? then [blocks[n]] else []
  }

  /** What is sent for a recorded message while `open` are the calls without an answer.  A result answers
      its open call, or is sent as text; summaries and system messages are sent as prior context; what
      the user, the model or the host said goes as it is, by whom it was said. */
  predicate Conveys(show: Show, native: bool, open: set<string>, m: Message, rs: seq<Reply>) {
    if m.result.Some? then
      var id := if m.result.value.callId != "" then m.result.value.callId else m.callId;
      var text := show.result(m.result.value);
      if id !in open then rs == [Reply(User, Said("[TOOL RESULT " + m.result.value.tool + "] " + text))]
      else if native then rs == [Reply(User, Native([Answer(id, text)]))]
      else rs == [Reply(Tool, ToolReply(id, text))]
    else if m.boundary || m.role == System then
      rs == [Reply(User, Said("[PRIOR CONTEXT, NOT VERIFIED FACTS] " + show.content(m.content)))]
    else if m.role != User && m.origin != FromModel && m.origin != FromHost then rs == []
    else if m.content.Plain? then rs == [Reply(m.role, Said(m.content.text))]
    else if native then rs == [Reply(m.role, Native(m.content.blocks))]
    else
      var text := TextOf(m.content.blocks);
      rs == [Reply(m.role, Translated(if text == "" then None else Some(text), UsesOf(m.content.blocks)))]
  }

  lemma {:induction false} TextSnoc(front: seq<Block>, b: Block)
    ensures JoinText(front + [b]) == JoinText(front) + if b.Text? then b.text else ""
    ensures Calls(front + [b]) == Calls(front) + if b.Use? then [b] else []
    decreases |front|
  {
    hide JoinText, Calls;
    if front == [] {
      assert [] + [b] == [b] && [b] + [] == [b];
      NothingJoined();
      TextCons(b, []);
      CallsCons(b, []);
    } else {
      var first, rest := front[0], front[1..];
      TextSnoc(rest, b);
      assert front == [first] + rest && front + [b] == [first] + (rest + [b]);
      TextCons(first, rest);
      CallsCons(first, rest);
      TextCons(first, rest + [b]);
      CallsCons(first, rest + [b]);
    }
  }

  lemma NothingJoined()
    ensures JoinText([]) == "" && Calls([]) == []
  {}

  lemma TextCons(b: Block, rest: seq<Block>)
    ensures JoinText([b] + rest) == (if b.Text? then b.text else "") + JoinText(rest)
  {
    assert ([b] + rest)[1..] == rest;
  }

  lemma {:induction false} JoinedIsTextOf(blocks: seq<Block>)
    ensures JoinText(blocks) == TextOf(blocks) && Calls(blocks) == UsesOf(blocks)
  {
    if blocks != [] {
      var n := |blocks| - 1;
      JoinedIsTextOf(blocks[..n]);
      TextSnoc(blocks[..n], blocks[n]);
      assert blocks == blocks[..n] + [blocks[n]];
    }
  }

  lemma TakeConveys(show: Show, native: bool, pending: set<string>, m: Message)
    requires Take(show, native, pending, m).Some?
    ensures Conveys(show, native, pending, m, Take(show, native, pending, m).value.replies)
  {
    if m.content.Blocks? { JoinedIsTextOf(m.content.blocks); }
    hide JoinText, TextOf, Calls, UsesOf, AddCalls;
  }

  // ---------- the whole input ----------

  function Joined(parts: seq<seq<Reply>>): seq<Reply> {
    if parts == [] then [] else Joined(parts[..|parts| - 1]) + parts[|parts| - 1]
  }

  lemma {:induction false} TakenIsOpen(show: Show, native: bool, ms: seq<Message>)
    requires TakeAll(show, native, {}, ms).Some?
    ensures TakeAll(show, native, {}, ms).value.pending == OpenCalls({}, ms)
    decreases |ms|
  {
    if ms != [] {
      var front, m := ms[..|ms| - 1], ms[|ms| - 1];
      TakenIsOpen(show, native, front);
      var pending := TakeAll(show, native, {}, front).value.pending;
      assert NextOpen(show, native, Some(pending), m).Some?;
      AcceptedCalls(show, native, pending, m);
      OpenSnoc({}, front, m);
      assert ms == front + [m];
    }
  }

  lemma {:induction false} OpenSnoc(open: set<string>, front: seq<Message>, m: Message)
    ensures OpenCalls(open, front + [m]) == NextCalls(OpenCalls(open, front), m)
    decreases |front|
  {
    hide NextCalls;
    if front == [] {
      assert front + [m] == [m] && [m][1..] == [];
    } else {
      assert (front + [m])[1..] == front[1..] + [m];
      OpenSnoc(NextCalls(open, front[0]), front[1..], m);
    }
  }

  /** What is sent for each message of a conversation. */
  ghost predicate PartsOf(show: Show, native: bool, ms: seq<Message>, parts: seq<seq<Reply>>) {
    && |parts| == |ms|
    && forall i | 0 <= i < |ms| :: Conveys(show, native, OpenCalls({}, ms[..i]), ms[i], parts[i])
  }

  lemma {:induction false} TakenInParts(show: Show, native: bool, ms: seq<Message>) returns (parts: seq<seq<Reply>>)
    requires TakeAll(show, native, {}, ms).Some?
    ensures PartsOf(show, native, ms, parts) && TakeAll(show, native, {}, ms).value.replies == Joined(parts)
    decreases |ms|
  {
    hide Take, Conveys, OpenCalls;
    parts := [];
    if ms != [] {
      var front, m := ms[..|ms| - 1], ms[|ms| - 1];
      var before := TakenInParts(show, native, front);
      TakenIsOpen(show, native, front);
      var pending := TakeAll(show, native, {}, front).value.pending;
      TakeConveys(show, native, pending, m);
      var last := Take(show, native, pending, m).value.replies;
      parts := before + [last];
      assert parts[..|parts| - 1] == before;
      forall i | 0 <= i < |ms| ensures Conveys(show, native, OpenCalls({}, ms[..i]), ms[i], parts[i]) {
        if i < |front| { assert front[..i] == ms[..i] && front[i] == ms[i] && parts[i] == before[i]; }
      }
    }
  }

  /** The input before merging: the prompt, what is sent for every message, and the closing line when the
      last word was not the user's. */
  function Spelled(prompt: string, parts: seq<seq<Reply>>): seq<Reply> {
    var said := [Reply(User, Said(prompt))] + Joined(parts);
    said + if said[|said| - 1].role == User then [] else [Reply(User, Said("Continue the task."))]
  }

  // ---------- merging keeps who said what ----------

  /** Blocks with the role they are sent under; a plain text is one block. */
  function Tag(role: Role, blocks: seq<Block>): seq<(Role, Block)> {
    seq(|blocks|, i requires 0 <= i < |blocks| => (role, blocks[i]))
  }

  function Tags(r: Reply): seq<(Role, Block)> {
    match r.body
    case Said(text) => [(r.role, Text(text))]
    case Native(blocks) => Tag(r.role, blocks)
    case Translated(_, calls) => Tag(r.role, calls)
    case ToolReply(id, text) => [(r.role, Answer(id, text))]
  }

  function Tagged(rs: seq<Reply>): seq<(Role, Block)> {
    if rs == [] then [] else Tagged(rs[..|rs| - 1]) + Tags(rs[|rs| - 1])
  }

  lemma TagsAre(r: Reply)
    ensures Tags(r) == Tag(r.role, AsBlocks(r.body))
  {}

  lemma TagJoin(role: Role, a: seq<Block>, b: seq<Block>)
    ensures Tag(role, a + b) == Tag(role, a) + Tag(role, b)
  {}

  lemma TaggedSnoc(rs: seq<Reply>, r: Reply)
    ensures Tagged(rs + [r]) == Tagged(rs) + Tags(r)
  {
    assert (rs + [r])[..|rs|] == rs;
  }

  lemma MergeOneTags(merged: seq<Reply>, r: Reply)
    ensures Tagged(MergeOne(merged, r)) == Tagged(merged) + Tags(r)
  {
    hide Tagged, Tags, Tag, AsBlocks;
    if merged != [] && merged[|merged| - 1].role == r.role {
      var front, last := merged[..|merged| - 1], merged[|merged| - 1];
      var joined := Reply(r.role, Native(AsBlocks(last.body) + AsBlocks(r.body)));
      assert merged == front + [last];
      TaggedSnoc(front, last);
      TaggedSnoc(front, joined);
      TagsAre(last);
      TagsAre(r);
      TagsOfNative(r.role, AsBlocks(last.body) + AsBlocks(r.body));
      TagJoin(r.role, AsBlocks(last.body), AsBlocks(r.body));
      assert Tagged(front) + (Tags(last) + Tags(r)) == (Tagged(front) + Tags(last)) + Tags(r);
    } else {
      TaggedSnoc(merged, r);
    }
  }

  lemma TagsOfNative(role: Role, blocks: seq<Block>)
    ensures Tags(Reply(role, Native(blocks))) == Tag(role, blocks)
  {}

  lemma {:induction false} MergeTags(rs: seq<Reply>)
    ensures Tagged(Merge(rs)) == Tagged(rs)
  {
    hide Tags, MergeOne;
    if rs != [] {
      MergeTags(rs[..|rs| - 1]);
      MergeOneTags(Merge(rs[..|rs| - 1]), rs[|rs| - 1]);
    }
  }

  /** An accepted input says exactly this, in this order: the prompt, for every recorded message what its
      fields convey, and the closing line.  In native form neighbours of one role are merged, which
      changes neither a block nor who says it. */
  lemma EverythingIsSaid(show: Show, prompt: string, ms: seq<Message>, native: bool) returns (parts: seq<seq<Reply>>)
    requires Messages(show, prompt, Some(ms), native).Some?
    ensures PartsOf(show, native, ms, parts)
    ensures var rs := Messages(show, prompt, Some(ms), native).value;
            if native then Tagged(rs) == Tagged(Spelled(prompt, parts)) && Alternates(rs)
            else rs == Spelled(prompt, parts)
  {
    hide TakeAll, Merge, Joined, Tagged, PartsOf;
    parts := TakenInParts(show, native, ms);
    var said := [Reply(User, Said(prompt))] + Joined(parts);
    assert Ended(said) == Spelled(prompt, parts) by { assert said + [] == said; }
    MergeTags(Ended(said));
    MergeKeeps(Ended(said));
  }

  /** Without a recorded conversation only the prompt is sent. */
  lemma PromptAlone(show: Show, prompt: string, native: bool)
    ensures Messages(show, prompt, None, native) == Some([Reply(User, Said(prompt))])
  {}

  // ---------- which messages can be sent at all ----------

  lemma {:induction false} AddCallsIff(pending: set<string>, blocks: seq<Block>)
    ensures AddCalls(pending, blocks).Some? <==>
              && (forall i | 0 <= i < |blocks| && blocks[i].Use? :: blocks[i].id != "" && blocks[i].id !in pending)
              && forall i, j | 0 <= i < j < |blocks| && blocks[i].Use? && blocks[j].Use? :: blocks[i].id != blocks[j].id
    decreases |blocks|
  {
    if blocks != [] {
      var b, rest := blocks[0], blocks[1..];
      var next := if b.Use? then pending + {b.id} else pending;
      AddCallsIff(next, rest);
      assert forall i | 0 < i < |blocks| :: blocks[i] == rest[i - 1];
      hide AddCalls;
    }
  }

  /** A message can be sent when nothing is open, unless it is replayed as it is and names a call badly or
      twice, or holds what this form cannot carry. */
  lemma SendableIff(show: Show, native: bool, m: Message)
    ensures Sendable(show, native, m) <==>
              || m.result.Some? || m.boundary || m.role == System
              || (m.role != User && m.origin != FromModel && m.origin != FromHost)
              || m.content.Plain?
              || (var blocks := m.content.blocks;
                  && (forall i | 0 <= i < |blocks| && blocks[i].Use? :: blocks[i].id != "")
                  && (forall i, j | 0 <= i < j < |blocks| && blocks[i].Use? && blocks[j].Use? ::
                        blocks[i].id != blocks[j].id)
                  && (native || forall i | 0 <= i < |blocks| :: blocks[i].Use? || blocks[i].Text?))
  {
    if m.content.Blocks? { AddCallsIff({}, m.content.blocks); }
    hide AddCalls, JoinText, Calls;
  }
}
