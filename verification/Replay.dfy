/** Replaying a recorded conversation to a provider, which insists that every tool call is answered. */
module Replay {
  import opened ChunkTree

  datatype Role = System | User | Assistant | Tool

  datatype Origin = FromModel | FromHost | Elsewhere

  /** One content block, by the type the provider sees. */
  datatype Block = Use(id: string, name: string, input: string) | Text(text: string)
                 | Answer(id: string, text: string) | Opaque(kind: string)

  datatype Content = Plain(text: string) | Blocks(blocks: seq<Block>)

  datatype ToolResult = ToolResult(callId: string, tool: string, data: string)

  /** A recorded message; an empty id stands for a missing one. */
  datatype Message = Message(
    role: Role, content: Content, result: Option<ToolResult>, callId: string,
    turn: Option<string>, origin: Origin, boundary: bool)

  /** How contents and results are rendered as text. */
  datatype Show = Show(content: Content -> string, result: ToolResult -> string)

  datatype Body = Said(text: string) | Native(blocks: seq<Block>)
                | Translated(spoken: Option<string>, calls: seq<Block>) | ToolReply(id: string, text: string)

  datatype Reply = Reply(role: Role, body: Body)

  // ---------- one message ----------

  function ResultId(m: Message): string
    requires m.result.Some?
  {
    if m.result.value.callId != "" then m.result.value.callId else m.callId
  }

  /** Only what the user, the model or the host said is replayed as it is. */
  predicate Spoken(m: Message) {
    m.result.None? && !m.boundary && !m.role.System? && (m.role.User? || !m.origin.Elsewhere?)
  }

  /** Register tool calls; None when an identifier is missing or already open. */
  function AddCalls(pending: set<string>, blocks: seq<Block>): Option<set<string>>
    decreases |blocks|
  {
    if blocks == [] then Some(pending)
    else if blocks[0].Use? then
      (if blocks[0].id == "" || blocks[0].id in pending then None
       else AddCalls(pending + {blocks[0].id}, blocks[1..]))
    else AddCalls(pending, blocks[1..])
  }

  function Calls(blocks: seq<Block>): seq<Block> {
    if blocks == [] then [] else (if blocks[0].Use? then [blocks[0]] else []) + Calls(blocks[1..])
  }

  function JoinText(blocks: seq<Block>): string {
    if blocks == [] then "" else (if blocks[0].Text? then blocks[0].text else "") + JoinText(blocks[1..])
  }

  function Translate(blocks: seq<Block>): Option<Body> {
    if exists b | b in blocks :: !b.Use? && !b.Text? then None
    else Some(Translated(if JoinText(blocks) == "" then None else Some(JoinText(blocks)), Calls(blocks)))
  }

  datatype Taken = Taken(pending: set<string>, replies: seq<Reply>)

  function TakeResult(show: Show, native: bool, pending: set<string>, m: Message): Option<Taken>
    requires m.result.Some?
  {
    var id, text := ResultId(m), show.result(m.result.value);
    if id in pending then
      Some(Taken(pending - {id}, [if native then Reply(User, Native([Answer(id, text)]))
                                  else Reply(Tool, ToolReply(id, text))]))
    else if pending != {} then None
    else Some(Taken(pending, [Reply(User, Said("[TOOL RESULT " + m.result.value.tool + "] " + text))]))
  }

  /** What one recorded message adds; None where Looplet refuses. */
  function Take(show: Show, native: bool, pending: set<string>, m: Message): Option<Taken> {
    if m.result.Some? then TakeResult(show, native, pending, m)
    else if m.boundary || m.role.System? then
      Some(Taken(pending, [Reply(User, Said("[PRIOR CONTEXT, NOT VERIFIED FACTS] " + show.content(m.content)))]))
    else if !Spoken(m) then Some(Taken(pending, []))
    else match m.content
      case Plain(text) => Some(Taken(pending, [Reply(m.role, Said(text))]))
      case Blocks(blocks) =>
        var now := AddCalls(pending, blocks);
        if now.None? then None
        else if native then Some(Taken(now.value, [Reply(m.role, Native(blocks))]))
        else
          var body := Translate(blocks);
          if body.None? then None else Some(Taken(now.value, [Reply(m.role, body.value)]))
  }

  function TakeAll(show: Show, native: bool, pending: set<string>, ms: seq<Message>): Option<Taken> {
    if ms == [] then Some(Taken(pending, []))
    else
      var front := TakeAll(show, native, pending, ms[..|ms| - 1]);
      if front.None? then None
      else
        var last := Take(show, native, front.value.pending, ms[|ms| - 1]);
        if last.None? then None
        else Some(Taken(last.value.pending, front.value.replies + last.value.replies))
  }

  // ---------- the whole input ----------

  /** What is said for the user when the last word was not the user's. */
  const CONTINUE := "Continue the task."

  function AsBlocks(b: Body): seq<Block> {
    match b
    case Said(text) => [Text(text)]
    case Native(blocks) => blocks
    case Translated(_, calls) => calls
    case ToolReply(id, text) => [Answer(id, text)]
  }

  /** Add a reply, joining it to the last one when the role is the same. */
  function MergeOne(merged: seq<Reply>, r: Reply): seq<Reply> {
    if merged != [] && merged[|merged| - 1].role == r.role then
      var last := merged[|merged| - 1];
      merged[..|merged| - 1] + [Reply(r.role, Native(AsBlocks(last.body) + AsBlocks(r.body)))]
    else merged + [r]
  }

  function Merge(rs: seq<Reply>): seq<Reply> {
    if rs == [] then [] else MergeOne(Merge(rs[..|rs| - 1]), rs[|rs| - 1])
  }

  function Ended(rs: seq<Reply>): seq<Reply> {
    if rs != [] && rs[|rs| - 1].role.User? then rs else rs + [Reply(User, Said(CONTINUE))]
  }

  /** The input sent to the provider; None is the terminal error. */
  function Messages(show: Show, prompt: string, snapshot: Option<seq<Message>>, native: bool): Option<seq<Reply>> {
    var first := [Reply(User, Said(prompt))];
    if snapshot.None? then Some(first)
    else
      var taken := TakeAll(show, native, {}, snapshot.value);
      if taken.None? || taken.value.pending != {} then None
      else
        var rs := Ended(first + taken.value.replies);
        Some(if native then Merge(rs) else rs)
  }

  method ConversationMessages(show: Show, prompt: string, snapshot: Option<seq<Message>>, native: bool)
      returns (r: Option<seq<Reply>>)
    ensures r == Messages(show, prompt, snapshot, native)
  {
    hide Take, Merge, TakeAll;
    NothingTaken(show, native);
    var messages := [Reply(User, Said(prompt))];
    if snapshot.None? { return Some(messages); }
    var pending: set<string> := {};
    var i := 0;
    var ms := snapshot.value;
    while i < |ms|
      invariant 0 <= i <= |ms|
      invariant var taken := TakeAll(show, native, {}, ms[..i]);
                taken.Some? && taken.value.pending == pending
                && messages == [Reply(User, Said(prompt))] + taken.value.replies
    {
      TakeAllStep(show, native, ms, i);
      var taken := Take(show, native, pending, ms[i]);
      if taken.None? {
        RefusalStays(show, native, ms, i + 1);
        return None;
      }
      pending, messages := taken.value.pending, messages + taken.value.replies;
      i := i + 1;
    }
    assert ms[..|ms|] == ms;
    if pending != {} { return None; }
    if !messages[|messages| - 1].role.User? {
      messages := messages + [Reply(User, Said(CONTINUE))];
    }
    if !native { return Some(messages); }
    var merged := MergeAll(messages);
    r := Some(merged);
  }

  method MergeAll(messages: seq<Reply>) returns (merged: seq<Reply>)
    ensures merged == Merge(messages)
  {
    merged := [];
    var j := 0;
    while j < |messages|
      invariant 0 <= j <= |messages| && merged == Merge(messages[..j])
    {
      assert messages[..j + 1][..j] == messages[..j];
      var m := messages[j];
      var n := |merged|;
      if n > 0 && m.role == merged[n - 1].role {
        merged := merged[n - 1 := Reply(m.role, Native(AsBlocks(merged[n - 1].body) + AsBlocks(m.body)))];
      } else {
        merged := merged + [m];
      }
      j := j + 1;
    }
    assert messages[..|messages|] == messages;
  }

  lemma NothingTaken(show: Show, native: bool)
    ensures TakeAll(show, native, {}, []) == Some(Taken({}, []))
  {}

  lemma TakeAllStep(show: Show, native: bool, ms: seq<Message>, i: nat)
    requires i < |ms| && TakeAll(show, native, {}, ms[..i]).Some?
    ensures var front := TakeAll(show, native, {}, ms[..i]).value;
            var last := Take(show, native, front.pending, ms[i]);
            TakeAll(show, native, {}, ms[..i + 1])
            == if last.None? then None else Some(Taken(last.value.pending, front.replies + last.value.replies))
  {
    hide Take;
    assert ms[..i + 1][..i] == ms[..i];
  }

  lemma {:induction false} RefusalStays(show: Show, native: bool, ms: seq<Message>, i: nat)
    requires i <= |ms| && TakeAll(show, native, {}, ms[..i]).None?
    ensures TakeAll(show, native, {}, ms).None?
    decreases |ms|
  {
    if i < |ms| {
      assert ms[..|ms| - 1][..i] == ms[..i];
      RefusalStays(show, native, ms[..|ms| - 1], i);
    } else {
      assert ms[..i] == ms;
    }
  }

  // ---------- tool calls are answered ----------

  /** What a provider checks of one block: a call must be new, an answer must answer an open call. */
  function OpenNext(pending: Option<set<string>>, b: Block): Option<set<string>> {
    if pending.None? then None
    else if b.Use? then (if b.id in pending.value then None else Some(pending.value + {b.id}))
    else if b.Answer? then (if b.id in pending.value then Some(pending.value - {b.id}) else None)
    else pending
  }

  /** The calls still open after all blocks; None when the provider objects. */
  function Open(pending: Option<set<string>>, blocks: seq<Block>): Option<set<string>>
    decreases |blocks|
  {
    if blocks == [] then pending else Open(OpenNext(pending, blocks[0]), blocks[1..])
  }

  function Flatten(rs: seq<Reply>): seq<Block> {
    if rs == [] then [] else Flatten(rs[..|rs| - 1]) + AsBlocks(rs[|rs| - 1].body)
  }

  /** Every call is answered exactly once before its identifier is used again, and every answer
      answers a call. */
  predicate Paired(rs: seq<Reply>) {
    Open(Some({}), Flatten(rs)) == Some({})
  }

  /** A replayed message that brings tool results of its own as raw blocks. */
  predicate Raw(m: Message) {
    Spoken(m) && m.content.Blocks? && exists b | b in m.content.blocks :: b.Answer?
  }

  /** The provider's open calls against the translator's: the same until a raw answer was sent,
      strictly fewer ever after. */
  ghost predicate Tracks(open: Option<set<string>>, pending: set<string>, raw: bool) {
    if raw then open.None? || open.value < pending else open == Some(pending)
  }

  predicate HasAnswer(blocks: seq<Block>) {
    exists b | b in blocks :: b.Answer?
  }

  lemma {:induction false} OpenNone(blocks: seq<Block>)
    ensures Open(None, blocks) == None
    decreases |blocks|
  {
    if blocks != [] { OpenNone(blocks[1..]); }
  }

  lemma {:induction false} BlocksTrack(open: Option<set<string>>, pending: set<string>, raw: bool, blocks: seq<Block>)
    requires Tracks(open, pending, raw) && AddCalls(pending, blocks).Some?
    ensures Tracks(Open(open, blocks), AddCalls(pending, blocks).value, raw || HasAnswer(blocks))
    decreases |blocks|
  {
    if blocks != [] {
      var b, rest := blocks[0], blocks[1..];
      assert HasAnswer(blocks) <==> b.Answer? || HasAnswer(rest) by {
        assert blocks == [b] + rest;
      }
      BlocksTrack(OpenNext(open, b), if b.Use? then pending + {b.id} else pending, raw || b.Answer?, rest);
    }
  }

  lemma {:induction false} OpenJoin(pending: Option<set<string>>, a: seq<Block>, b: seq<Block>)
    ensures Open(pending, a + b) == Open(Open(pending, a), b)
    decreases |a|
  {
    if a == [] {
      assert a + b == b;
    } else {
      assert (a + b)[1..] == a[1..] + b;
      OpenJoin(OpenNext(pending, a[0]), a[1..], b);
    }
  }

  /** A translated message carries the same calls in the same order. */
  lemma {:induction false} CallsTrack(pending: Option<set<string>>, blocks: seq<Block>)
    requires forall b | b in blocks :: b.Use? || b.Text?
    ensures Open(pending, Calls(blocks)) == Open(pending, blocks)
    decreases |blocks|
  {
    if blocks != [] {
      var b, rest := blocks[0], blocks[1..];
      assert forall c | c in rest :: c in blocks;
      CallsTrack(OpenNext(pending, b), rest);
      if b.Use? {
        assert Calls(blocks)[1..] == Calls(rest);
      } else {
        assert Calls(blocks) == Calls(rest);
      }
    }
  }

  lemma OpenOne(pending: Option<set<string>>, b: Block)
    ensures Open(pending, [b]) == OpenNext(pending, b)
  {
    assert Open(OpenNext(pending, b), []) == OpenNext(pending, b);
  }

  lemma FlattenOne(r: Reply)
    ensures Flatten([r]) == AsBlocks(r.body)
  {
    assert Flatten([]) == [];
    assert [r][..0] == [];
  }

  lemma TakeTracks(show: Show, native: bool, open: Option<set<string>>, pending: set<string>, raw: bool, m: Message)
    requires Tracks(open, pending, raw) && Take(show, native, pending, m).Some?
    ensures var t := Take(show, native, pending, m).value;
            Tracks(Open(open, Flatten(t.replies)), t.pending, raw || Raw(m))
  {
    if Spoken(m) && m.content.Blocks? {
      SpokenTracks(show, native, open, pending, raw, m);
    } else {
      OtherTracks(show, native, open, pending, raw, m);
    }
    hide Tracks, Open, Take, Flatten;
  }

  lemma SpokenTracks(show: Show, native: bool, open: Option<set<string>>, pending: set<string>, raw: bool, m: Message)
    requires Tracks(open, pending, raw) && Take(show, native, pending, m).Some? && Spoken(m) && m.content.Blocks?
    ensures var t := Take(show, native, pending, m).value;
            Tracks(Open(open, Flatten(t.replies)), t.pending, raw || Raw(m))
  {
    hide Flatten, Open, Tracks, AddCalls, JoinText, Calls;
    var t := Take(show, native, pending, m).value;
    FlattenOne(t.replies[0]);
    assert t.replies == [t.replies[0]];
    BlocksTrack(open, pending, raw, m.content.blocks);
    if !native { CallsTrack(open, m.content.blocks); }
  }

  lemma OtherTracks(show: Show, native: bool, open: Option<set<string>>, pending: set<string>, raw: bool, m: Message)
    requires Tracks(open, pending, raw) && Take(show, native, pending, m).Some? && !(Spoken(m) && m.content.Blocks?)
    ensures var t := Take(show, native, pending, m).value;
            Tracks(Open(open, Flatten(t.replies)), t.pending, raw || Raw(m))
  {
    hide Flatten, AddCalls, JoinText, Calls;
    var t := Take(show, native, pending, m).value;
    if t.replies == [] {
      FlattenNothing();
      assert Open(open, []) == open;
    } else {
      FlattenOne(t.replies[0]);
      assert t.replies == [t.replies[0]];
      OpenOne(open, AsBlocks(t.replies[0].body)[0]);
      if raw && open.Some? {
        var y :| y in pending && y !in open.value;
        assert m.result.Some? ==> y in pending && y !in open.value - {ResultId(m)};
      }
    }
  }

  lemma FlattenSnoc(rs: seq<Reply>, r: Reply)
    ensures Flatten(rs + [r]) == Flatten(rs) + AsBlocks(r.body)
  {
    assert (rs + [r])[..|rs|] == rs;
  }

  lemma FlattenNothing()
    ensures Flatten([]) == []
  {}

  lemma {:induction false} FlattenJoin(a: seq<Reply>, b: seq<Reply>)
    ensures Flatten(a + b) == Flatten(a) + Flatten(b)
    decreases |b|
  {
    hide Flatten, AsBlocks;
    FlattenNothing();
    if b == [] {
      assert a + b == a;
    } else {
      var front, r := b[..|b| - 1], b[|b| - 1];
      FlattenJoin(a, front);
      FlattenSnoc(a + front, r);
      FlattenSnoc(front, r);
      assert a + b == (a + front) + [r] && b == front + [r];
      assert (Flatten(a) + Flatten(front)) + AsBlocks(r.body) == Flatten(a) + (Flatten(front) + AsBlocks(r.body));
    }
  }

  predicate AnyRaw(ms: seq<Message>) {
    exists m | m in ms :: Raw(m)
  }

  lemma OneMoreTracks(show: Show, native: bool, front: seq<Message>, f: Taken, m: Message, l: Taken)
    requires Tracks(Open(Some({}), Flatten(f.replies)), f.pending, AnyRaw(front))
    requires Take(show, native, f.pending, m) == Some(l)
    ensures Tracks(Open(Some({}), Flatten(f.replies + l.replies)), l.pending, AnyRaw(front + [m]))
  {
    TakeTracks(show, native, Open(Some({}), Flatten(f.replies)), f.pending, AnyRaw(front), m);
    FlattenJoin(f.replies, l.replies);
    OpenJoin(Some({}), Flatten(f.replies), Flatten(l.replies));
    RawSnoc(front, m);
    hide *;
  }

  lemma RawSnoc(front: seq<Message>, m: Message)
    ensures AnyRaw(front + [m]) <==> AnyRaw(front) || Raw(m)
  {
    hide Raw;
    assert (front + [m])[|front|] == m;
    if n :| n in front && Raw(n) { assert n in front + [m]; }
  }

  lemma {:induction false} AllTrack(show: Show, native: bool, ms: seq<Message>)
    requires TakeAll(show, native, {}, ms).Some?
    ensures var t := TakeAll(show, native, {}, ms).value;
            Tracks(Open(Some({}), Flatten(t.replies)), t.pending, AnyRaw(ms))
    decreases |ms|
  {
    hide Take, Raw, Tracks;
    if ms == [] {
      NothingTracks();
    } else {
      hide Flatten, Open, AnyRaw;
      var front, m := ms[..|ms| - 1], ms[|ms| - 1];
      AllTrack(show, native, front);
      var f := TakeAll(show, native, {}, front).value;
      assert ms == front + [m];
      OneMoreTracks(show, native, front, f, m, Take(show, native, f.pending, m).value);
    }
  }

  lemma NothingTracks()
    ensures Tracks(Open(Some({}), Flatten([])), {}, AnyRaw([]))
  {}

  // ---------- merging ----------

  predicate Alternates(rs: seq<Reply>) {
    forall i | 0 < i < |rs| :: rs[i].role != rs[i - 1].role
  }

  /** Merging keeps every block in order, makes roles alternate, and keeps both ends. */
  lemma {:induction false} MergeKeeps(rs: seq<Reply>)
    ensures Flatten(Merge(rs)) == Flatten(rs) && Alternates(Merge(rs))
    ensures rs != [] ==> var m := Merge(rs);
              m != [] && m[0].role == rs[0].role && m[|m| - 1].role == rs[|rs| - 1].role
    decreases |rs|
  {
    hide MergeOne, AsBlocks;
    if rs != [] {
      var front, r := rs[..|rs| - 1], rs[|rs| - 1];
      MergeKeeps(front);
      MergeOneKeeps(Merge(front), r);
      assert rs == front + [r];
      FlattenSnoc(front, r);
      hide Flatten, Alternates;
    }
  }

  lemma MergeOneKeeps(merged: seq<Reply>, r: Reply)
    requires Alternates(merged)
    ensures var m := MergeOne(merged, r);
            && Flatten(m) == Flatten(merged) + AsBlocks(r.body) && Alternates(m)
            && m != [] && m[|m| - 1].role == r.role && m[0].role == (if merged != [] then merged[0].role else r.role)
  {
    hide Flatten, AsBlocks;
    if merged != [] && merged[|merged| - 1].role == r.role {
      var front, last := merged[..|merged| - 1], merged[|merged| - 1];
      assert merged == front + [last];
      FlattenSnoc(front, last);
      FlattenSnoc(front, Reply(r.role, Native(AsBlocks(last.body) + AsBlocks(r.body))));
      JoinedBlocks(last.body, r);
    } else {
      FlattenSnoc(merged, r);
    }
  }

  lemma JoinedBlocks(last: Body, r: Reply)
    ensures AsBlocks(Native(AsBlocks(last) + AsBlocks(r.body))) == AsBlocks(last) + AsBlocks(r.body)
  {}

  // ---------- what an accepted input looks like ----------

  lemma EndedEnds(rs: seq<Reply>)
    requires rs != []
    ensures Ended(rs) != [] && Ended(rs)[0] == rs[0] && Ended(rs)[|Ended(rs)| - 1].role.User?
  {}

  /** It starts and ends with the user; in native form roles alternate. */
  lemma AcceptedShape(show: Show, prompt: string, snapshot: Option<seq<Message>>, native: bool)
    requires Messages(show, prompt, snapshot, native).Some?
    ensures var rs := Messages(show, prompt, snapshot, native).value;
            rs != [] && rs[0].role.User? && rs[|rs| - 1].role.User? && (native ==> Alternates(rs))
  {
    if snapshot.Some? {
      var taken := TakeAll(show, native, {}, snapshot.value);
      EndedEnds([Reply(User, Said(prompt))] + taken.value.replies);
      MergeKeeps(Ended([Reply(User, Said(prompt))] + taken.value.replies));
      hide TakeAll, Ended, Merge, Flatten;
    }
  }

  /** The prompt and the closing line open and answer nothing. */
  lemma WrappedOpens(prompt: string, rs: seq<Reply>)
    ensures Open(Some({}), Flatten(Ended([Reply(User, Said(prompt))] + rs))) == Open(Some({}), Flatten(rs))
  {
    var first, last := Reply(User, Said(prompt)), Reply(User, Said(CONTINUE));
    FlattenJoin([first], rs);
    FlattenOne(first);
    OpenJoin(Some({}), [Text(prompt)], Flatten(rs));
    OpenOne(Some({}), Text(prompt));
    FlattenSnoc([first] + rs, last);
    OpenJoin(Some({}), Flatten([first] + rs), [Text(CONTINUE)]);
    OpenOne(Open(Some({}), Flatten([first] + rs)), Text(CONTINUE));
    hide Open, Flatten;
  }

  /** Every call in an accepted input is answered exactly once before its identifier is used
      again, if and only if no replayed message brought raw tool results of its own. */
  lemma AcceptedIsPaired(show: Show, prompt: string, ms: seq<Message>, native: bool)
    requires Messages(show, prompt, Some(ms), native).Some?
    ensures Paired(Messages(show, prompt, Some(ms), native).value) <==> !AnyRaw(ms)
  {
    hide TakeAll, Ended, Merge, Flatten, Open, AnyRaw, Take;
    var t := TakeAll(show, native, {}, ms).value;
    AllTrack(show, native, ms);
    WrappedOpens(prompt, t.replies);
    MergeKeeps(Ended([Reply(User, Said(prompt))] + t.replies));
  }

  /** Such a message is accepted: a user message that brings an answer to no call is passed on. */
  lemma RawIsAccepted(show: Show, prompt: string)
    ensures var ms := [Message(User, Blocks([Answer("x", "y")]), None, "", None, Elsewhere, false)];
            && Messages(show, prompt, Some(ms), true).Some?
            && !Paired(Messages(show, prompt, Some(ms), true).value)
  {
    var m := Message(User, Blocks([Answer("x", "y")]), None, "", None, Elsewhere, false);
    var blocks := m.content.blocks;
    assert blocks[1..] == [] && [m][..0] == [];
    assert Take(show, true, {}, m) == Some(Taken({}, [Reply(User, Native(blocks))]));
    TakeAllStep(show, true, [m], 0);
    assert [m][..1] == [m] && TakeAll(show, true, {}, [m]).value.pending == {};
    assert m in [m] && blocks[0] in blocks && Raw(m);
    assert AnyRaw([m]);
    hide TakeAll, Take, Raw, Ended, Merge, Paired, AnyRaw;
    AcceptedIsPaired(show, prompt, [m], true);
  }

  // ---------- no call is lost or invented ----------

  lemma CallsCons(b: Block, rest: seq<Block>)
    ensures Calls([b] + rest) == (if b.Use? then [b] else []) + Calls(rest)
  {
    assert ([b] + rest)[1..] == rest;
  }

  lemma {:induction false} CallsJoin(a: seq<Block>, b: seq<Block>)
    ensures Calls(a + b) == Calls(a) + Calls(b)
    decreases |a|
  {
    hide Calls;
    if a == [] {
      NothingCalled();
      assert a + b == b && Calls(b) == [] + Calls(b);
    } else {
      var one := if a[0].Use? then [a[0]] else [];
      CallsJoin(a[1..], b);
      CallsCons(a[0], a[1..] + b);
      CallsCons(a[0], a[1..]);
      assert a + b == [a[0]] + (a[1..] + b) && a == [a[0]] + a[1..];
      assert one + (Calls(a[1..]) + Calls(b)) == (one + Calls(a[1..])) + Calls(b);
    }
  }

  lemma {:induction false} CallsTwice(blocks: seq<Block>)
    ensures Calls(Calls(blocks)) == Calls(blocks)
    decreases |blocks|
  {
    if blocks != [] {
      CallsTwice(blocks[1..]);
      CallsJoin(if blocks[0].Use? then [blocks[0]] else [], Calls(blocks[1..]));
      assert blocks[0].Use? ==> Calls([blocks[0]]) == [blocks[0]] + Calls([]);
    }
  }

  /** The calls a recorded message makes when it is replayed. */
  function CallsOf(m: Message): seq<Block> {
    if Spoken(m) && m.content.Blocks? then Calls(m.content.blocks) else []
  }

  function AllCalls(ms: seq<Message>): seq<Block> {
    if ms == [] then [] else AllCalls(ms[..|ms| - 1]) + CallsOf(ms[|ms| - 1])
  }

  lemma TakeConserves(show: Show, native: bool, pending: set<string>, m: Message)
    requires Take(show, native, pending, m).Some?
    ensures Calls(Flatten(Take(show, native, pending, m).value.replies)) == CallsOf(m)
  {
    hide AddCalls, Calls, Flatten;
    var replies := Take(show, native, pending, m).value.replies;
    NothingCalled();
    if replies != [] {
      FlattenOne(replies[0]);
      assert replies == [replies[0]];
      if Spoken(m) && m.content.Blocks? {
        CallsTwice(m.content.blocks);
      } else {
        OneCalled(AsBlocks(replies[0].body)[0]);
      }
    }
  }

  lemma OneCalled(b: Block)
    ensures Calls([b]) == if b.Use? then [b] else []
  {
    assert [b][1..] == [] && Calls([]) == [];
  }

  lemma {:induction false} TakeAllConserves(show: Show, native: bool, ms: seq<Message>)
    requires TakeAll(show, native, {}, ms).Some?
    ensures Calls(Flatten(TakeAll(show, native, {}, ms).value.replies)) == AllCalls(ms)
    decreases |ms|
  {
    hide Take, Calls, Flatten, CallsOf;
    if ms == [] {
      NothingCalled();
    } else {
      var front := TakeAll(show, native, {}, ms[..|ms| - 1]).value;
      var last := Take(show, native, front.pending, ms[|ms| - 1]).value;
      TakeAllConserves(show, native, ms[..|ms| - 1]);
      TakeConserves(show, native, front.pending, ms[|ms| - 1]);
      FlattenJoin(front.replies, last.replies);
      CallsJoin(Flatten(front.replies), Flatten(last.replies));
    }
  }

  lemma NothingCalled()
    ensures Flatten([]) == [] && Calls([]) == []
  {}

  /** The calls the provider sees are those of the recorded messages, all of them, in order. */
  lemma CallsConserved(show: Show, prompt: string, ms: seq<Message>, native: bool)
    requires Messages(show, prompt, Some(ms), native).Some?
    ensures Calls(Flatten(Messages(show, prompt, Some(ms), native).value)) == AllCalls(ms)
  {
    var t := TakeAll(show, native, {}, ms).value;
    TakeAllConserves(show, native, ms);
    WrappedCalls(prompt, t.replies);
    MergeKeeps(Ended([Reply(User, Said(prompt))] + t.replies));
    hide TakeAll, Ended, Merge, Flatten, Calls, AllCalls;
  }

  lemma WrappedCalls(prompt: string, rs: seq<Reply>)
    ensures Calls(Flatten(Ended([Reply(User, Said(prompt))] + rs))) == Calls(Flatten(rs))
  {
    var first, last := Reply(User, Said(prompt)), Reply(User, Said(CONTINUE));
    FlattenJoin([first], rs);
    FlattenOne(first);
    CallsJoin([Text(prompt)], Flatten(rs));
    FlattenSnoc([first] + rs, last);
    CallsJoin(Flatten([first] + rs), [Text(CONTINUE)]);
    assert Calls([Text(prompt)]) == [] && Calls([Text(CONTINUE)]) == [];
    hide Flatten, Calls;
  }
}
