/** Conversations that compaction makes unreplayable, one that it leaves replayable although its cut
    separates a call from its answer, and one that a stray answer rescues. */
module CompactionCases {
  import opened ChunkTree
  import opened Replay
  import opened Compaction
  import opened CompactionExact
  import opened CompactionFlow

  function Call(role: Role, id: string, turn: Option<string>): Message {
    Message(role, Blocks([Use(id, "f", "x")]), None, "", turn, if role.User? then Elsewhere else FromHost, false)
  }

  function Reply(id: string, turn: Option<string>): Message {
    Message(Tool, Plain(""), Some(ToolResult(id, "f", "y")), "", turn, Elsewhere, false)
  }

  function Words(role: Role, turn: Option<string>, origin: Origin): Message {
    Message(role, Plain("ok"), None, "", turn, origin, false)
  }

  // ---------- one message at a time ----------

  lemma CallIs(show: Show, native: bool, open: set<string>, role: Role, id: string, turn: Option<string>)
    requires (role.User? || role.Assistant?) && id != "" && id !in open
    ensures NextOpen(show, native, Some(open), Call(role, id, turn)) == Some(open + {id})
    ensures NextCalls(open, Call(role, id, turn)) == open + {id}
    ensures CallIds(Call(role, id, turn)) == {id}
  {
    var m := Call(role, id, turn);
    var blocks := m.content.blocks;
    assert blocks[1..] == [] && blocks[0] == Use(id, "f", "x");
    assert AddCalls(open, blocks) == AddCalls(open + {id}, []);
    assert CallIds(m) == {id} by {
      assert blocks[0] in blocks;
    }
  }

  lemma ReplyIs(show: Show, native: bool, open: set<string>, id: string, turn: Option<string>)
    requires id != "" && id in open
    ensures NextOpen(show, native, Some(open), Reply(id, turn)) == Some(open - {id})
    ensures NextCalls(open, Reply(id, turn)) == open - {id}
  {}

  lemma WordsAre(show: Show, native: bool, open: set<string>, role: Role, turn: Option<string>, origin: Origin)
    ensures NextOpen(show, native, Some(open), Words(role, turn, origin)) == Some(open)
    ensures NextCalls(open, Words(role, turn, origin)) == open
  {}

  lemma Unfold(show: Show, native: bool, pending: Option<set<string>>, open: set<string>, dropped: set<string>,
               m: Message, rest: seq<Message>)
    ensures After(show, native, pending, [m] + rest)
            == After(show, native, NextOpen(show, native, pending, m), rest)
    ensures OpenCalls(open, [m] + rest) == OpenCalls(NextCalls(open, m), rest)
    ensures ResultsPaired(open, [m] + rest)
            <==> (m.result.Some? ==> ResultId(m) in open) && ResultsPaired(NextCalls(open, m), rest)
    ensures Orphaned(open, dropped, [m] + rest)
            <==> if m.result.Some? && ResultId(m) in dropped then
                   open != {} || Orphaned(open, dropped - {ResultId(m)}, rest)
                 else Orphaned(NextCalls(open, m), dropped, rest)
  {
    assert ([m] + rest)[0] == m && ([m] + rest)[1..] == rest;
  }

  // ---------- a call made by the user message that is carried ----------

  const FIRST := Some("t1")
  const NEXT := Some("t2")

  function UserCalls(): seq<Message> {
    [Call(User, "a", FIRST)] + [Reply("a", FIRST)] + Later()
  }

  function Later(): seq<Message> {
    [Words(Assistant, NEXT, FromModel), Words(Assistant, NEXT, FromModel)]
  }

  lemma LaterOpensNothing(show: Show, native: bool)
    ensures After(show, native, Some({}), Later()) == Some({}) && ResultsPaired({}, Later())
  {
    var m := Words(Assistant, NEXT, FromModel);
    WordsAre(show, native, {}, Assistant, NEXT, FromModel);
    Unfold(show, native, Some({}), {}, {}, m, [m]);
    Unfold(show, native, Some({}), {}, {}, m, []);
    assert Later() == [m] + [m] && [m] == [m] + [];
    hide NextOpen, NextCalls;
  }

  lemma UserCallsRun(show: Show, native: bool)
    ensures Replayable(show, native, UserCalls()) && ResultsPaired({}, UserCalls())
    ensures OpenCalls({}, UserCalls()[..2]) == {}
  {
    hide NextOpen, NextCalls;
    var call, reply := Call(User, "a", FIRST), Reply("a", FIRST);
    CallIs(show, native, {}, User, "a", FIRST);
    ReplyIs(show, native, {"a"}, "a", FIRST);
    assert {} + {"a"} == {"a"} && {"a"} - {"a"} == {};
    LaterOpensNothing(show, native);
    Unfold(show, native, Some({}), {}, {}, call, [reply] + Later());
    Unfold(show, native, Some({"a"}), {"a"}, {}, reply, Later());
    Unfold(show, native, Some({}), {}, {}, call, [reply]);
    Unfold(show, native, Some({"a"}), {"a"}, {}, reply, []);
    assert UserCalls() == [call] + ([reply] + Later());
    assert UserCalls()[..2] == [call] + [reply] && [reply] + [] == [reply];
  }

  lemma UserCallsCut()
    ensures |UserCalls()| == 4 && Cut(UserCalls(), 1) == 2
  {
    var ms := UserCalls();
    var window := ms[3..];
    assert window == [Words(Assistant, NEXT, FromModel)] && window[0].turn == NEXT;
    assert TurnsOf(window) == {"t2"};
    assert ms[3] in ms && Typed(ms);
    FirstOfIs(ms, TurnsOf(window), 0, 3);
    assert !InTurns(ms[0], {"t2"}) && !InTurns(ms[1], {"t2"}) && InTurns(ms[2], {"t2"});
  }

  lemma UserCallsShare()
    ensures SharedTurns(UserCalls()) && Contiguous(UserCalls())
  {
    var ms := UserCalls();
    forall i, j, id | 0 <= i < j < |ms| && Brings(ms[i], id) && AnswersFirst(ms, i, j, id)
      ensures ms[i].turn == ms[j].turn
    {
      assert j == 1;
    }
  }

  /** The last user message is carried over the cut without what answered it: a call in it would be
      left open, although turns are shared and contiguous and no pair straddles the cut. */
  lemma UserCallsBreakReplay(show: Show, native: bool, summary: string)
    ensures var ms := UserCalls();
            && SharedTurns(ms) && Contiguous(ms) && Replayable(show, native, ms) && ResultsPaired({}, ms)
            && OpenCalls({}, ms[..Cut(ms, 1)]) == {}
            && !Replayable(show, native, Compacted(ms, 1, summary))
  {
    var ms := UserCalls();
    UserCallsShare();
    UserCallsRun(show, native);
    UserCallsCut();
    CallIs(show, native, {}, User, "a", FIRST);
    var older := ms[..2];
    assert older[..1] == [Call(User, "a", FIRST)] && older[1].role.Tool?;
    assert LastUser(older) == LastUser(older[..1]) == Some(older[0]);
    hide Replayable, Compacted, ResultsPaired, OpenCalls, SharedTurns, Contiguous, CallIds, Cut, LastUser;
    assert "a" in CarriedCalls(older);
    WholePairsReplayIff(show, native, ms, 1, summary);
  }

  // ---------- a cut between two calls of the host and their answers ----------

  function HostCalls(): seq<Message> {
    [Words(User, None, Elsewhere)] + [Call(Assistant, "a", FIRST)] + HostRest()
  }

  function HostRest(): seq<Message> {
    [Call(Assistant, "b", FIRST)] + [Reply("a", FIRST)] + [Reply("b", FIRST)]
  }

  lemma BothAnswered(show: Show, native: bool)
    ensures var answers := [Reply("a", FIRST)] + [Reply("b", FIRST)];
            After(show, native, Some({"a", "b"}), answers) == Some({}) && ResultsPaired({"a", "b"}, answers)
  {
    hide NextOpen, NextCalls;
    var ra, rb := Reply("a", FIRST), Reply("b", FIRST);
    ReplyIs(show, native, {"a", "b"}, "a", FIRST);
    ReplyIs(show, native, {"b"}, "b", FIRST);
    assert {"a", "b"} - {"a"} == {"b"} && {"b"} - {"b"} == {};
    Unfold(show, native, Some({"a", "b"}), {"a", "b"}, {}, ra, [rb]);
    Unfold(show, native, Some({"b"}), {"b"}, {}, rb, []);
    assert [rb] + [] == [rb];
  }

  lemma HostRestRuns(show: Show, native: bool)
    ensures After(show, native, Some({"a"}), HostRest()) == Some({}) && ResultsPaired({"a"}, HostRest())
  {
    hide NextOpen, NextCalls, OpenCalls, Orphaned;
    var b, ra, rb := Call(Assistant, "b", FIRST), Reply("a", FIRST), Reply("b", FIRST);
    CallIs(show, native, {"a"}, Assistant, "b", FIRST);
    assert {"a"} + {"b"} == {"a", "b"};
    BothAnswered(show, native);
    Unfold(show, native, Some({"a"}), {"a"}, {}, b, [ra] + [rb]);
    assert HostRest() == [b] + ([ra] + [rb]);
  }

  lemma HostCallsRun(show: Show, native: bool)
    ensures Replayable(show, native, HostCalls()) && ResultsPaired({}, HostCalls())
  {
    hide NextOpen, NextCalls, OpenCalls, Orphaned, HostRest;
    var a, words := Call(Assistant, "a", FIRST), Words(User, None, Elsewhere);
    WordsAre(show, native, {}, User, None, Elsewhere);
    CallIs(show, native, {}, Assistant, "a", FIRST);
    assert {} + {"a"} == {"a"};
    HostRestRuns(show, native);
    Unfold(show, native, Some({}), {}, {}, words, [a] + HostRest());
    Unfold(show, native, Some({}), {}, {}, a, HostRest());
    assert HostCalls() == [words] + ([a] + HostRest());
  }

  lemma HostRestOrphaned(show: Show, native: bool)
    ensures Orphaned({}, {"a"}, HostRest())
  {
    hide NextOpen, NextCalls;
    var b, ra, rb := Call(Assistant, "b", FIRST), Reply("a", FIRST), Reply("b", FIRST);
    CallIs(show, native, {}, Assistant, "b", FIRST);
    assert {} + {"b"} == {"b"};
    Unfold(show, native, Some({}), {}, {"a"}, b, [ra] + [rb]);
    Unfold(show, native, Some({}), {"b"}, {"a"}, ra, [rb]);
    assert HostRest() == [b] + ([ra] + [rb]);
  }

  lemma HostCallsCut(show: Show, native: bool)
    ensures var ms := HostCalls();
            && |ms| == 5 && Cut(ms, 3) == 2 && ms[2..] == HostRest()
            && OpenCalls({}, ms[..2]) == {"a"} && CarriedCalls(ms[..2]) == {}
  {
    var ms := HostCalls();
    assert forall m | m in ms :: !m.origin.FromModel?;
    var words, call := Words(User, None, Elsewhere), Call(Assistant, "a", FIRST);
    WordsAre(show, native, {}, User, None, Elsewhere);
    CallIs(show, native, {}, Assistant, "a", FIRST);
    assert {} + {"a"} == {"a"};
    Unfold(show, native, Some({}), {}, {}, words, [call]);
    Unfold(show, native, Some({}), {}, {}, call, []);
    var older := ms[..2];
    assert older == [words] + [call] && [call] + [] == [call];
    assert older[..1] == [words] && LastUser(older) == LastUser(older[..1]) == Some(words);
  }

  lemma OneTurnShares(ms: seq<Message>, turn: Option<string>)
    requires forall i | 0 <= i < |ms| ::
               ms[i].turn == turn || (ms[i].turn == None && ms[i].content.Plain? && ms[i].result == None)
    ensures SharedTurns(ms) && Contiguous(ms)
  {
    hide AnswersFirst, Spoken;
    forall i, j, id | 0 <= i < j < |ms| && Brings(ms[i], id) && AnswersFirst(ms, i, j, id)
      ensures ms[i].turn == ms[j].turn
    {
      AnswerIs(ms, i, j, id);
    }
  }

  lemma AnswerIs(ms: seq<Message>, i: nat, j: nat, id: string)
    requires i < j < |ms| && AnswersFirst(ms, i, j, id)
    ensures ms[j].result.Some?
  {}

  lemma HostCallsShare()
    ensures SharedTurns(HostCalls()) && Contiguous(HostCalls())
  {
    hide SharedTurns, Contiguous;
    OneTurnShares(HostCalls(), FIRST);
  }

  /** No user message makes a call here, and turns are shared and contiguous; but nothing came from
      the model, so the cut does not respect turns, and the answer to the call before it arrives while
      the call after it is open. */
  lemma HostCallsBreakReplay(show: Show, native: bool, summary: string)
    ensures var ms := HostCalls();
            && SharedTurns(ms) && Contiguous(ms) && Replayable(show, native, ms) && ResultsPaired({}, ms)
            && CarriedCalls(ms[..Cut(ms, 3)]) == {}
            && !Replayable(show, native, Compacted(ms, 3, summary))
  {
    var ms := HostCalls();
    HostCallsShare();
    HostCallsRun(show, native);
    HostRestOrphaned(show, native);
    HostCallsCut(show, native);
    hide Replayable, Compacted, ResultsPaired, OpenCalls, SharedTurns, Contiguous, CarriedCalls, Cut, Orphaned;
    CompactedReplaysIff(show, native, ms, 3, summary);
    assert {"a"} - {} == {"a"};
  }

  // ---------- a pair that straddles the cut without harm ----------

  function LoneCall(): seq<Message> {
    [Words(User, None, Elsewhere)] + [Words(User, None, Elsewhere)] + [Call(Assistant, "a", FIRST)]
    + [Reply("a", FIRST)]
  }

  lemma LoneCallRun(show: Show, native: bool)
    ensures Replayable(show, native, LoneCall()) && ResultsPaired({}, LoneCall())
    ensures OpenCalls({}, LoneCall()[..3]) == {"a"} && !Orphaned({}, {"a"}, [Reply("a", FIRST)])
  {
    hide NextOpen, NextCalls;
    var words, call, reply := Words(User, None, Elsewhere), Call(Assistant, "a", FIRST), Reply("a", FIRST);
    WordsAre(show, native, {}, User, None, Elsewhere);
    CallIs(show, native, {}, Assistant, "a", FIRST);
    ReplyIs(show, native, {"a"}, "a", FIRST);
    assert {} + {"a"} == {"a"} && {"a"} - {"a"} == {};
    Unfold(show, native, Some({}), {}, {}, words, [words] + [call] + [reply]);
    Unfold(show, native, Some({}), {}, {}, words, [call] + [reply]);
    Unfold(show, native, Some({}), {}, {}, call, [reply]);
    Unfold(show, native, Some({"a"}), {"a"}, {}, reply, []);
    Unfold(show, native, Some({}), {}, {}, words, [words] + [call]);
    Unfold(show, native, Some({}), {}, {}, words, [call]);
    Unfold(show, native, Some({}), {}, {}, call, []);
    Unfold(show, native, Some({}), {}, {"a"}, reply, []);
    assert LoneCall() == [words] + ([words] + [call] + [reply]);
    assert [words] + [call] + [reply] == [words] + ([call] + [reply]) && [reply] + [] == [reply];
    assert LoneCall()[..3] == [words] + ([words] + [call]) && [call] + [] == [call];
  }

  /** A pair that straddles the cut does not always break replay: an answer that arrives while no
      call is open is sent as text. */
  lemma StraddlingCanReplay(show: Show, native: bool, summary: string)
    ensures var ms := LoneCall();
            && Replayable(show, native, ms) && ResultsPaired({}, ms)
            && |ms| == 4 && Cut(ms, 1) == 3 && OpenCalls({}, ms[..3]) == {"a"}
            && Replayable(show, native, Compacted(ms, 1, summary))
  {
    var ms := LoneCall();
    LoneCallRun(show, native);
    LoneCallCut();
    hide Replayable, Compacted, ResultsPaired, OpenCalls, CarriedCalls, Cut, Orphaned;
    CompactedReplaysIff(show, native, ms, 1, summary);
    assert {"a"} - {} == {"a"};
  }

  lemma LoneCallCut()
    ensures var ms := LoneCall();
            |ms| == 4 && Cut(ms, 1) == 3 && ms[3..] == [Reply("a", FIRST)] && CarriedCalls(ms[..3]) == {}
  {
    var ms := LoneCall();
    assert forall m | m in ms :: !m.origin.FromModel?;
    var older := ms[..3];
    assert older[..2] == [ms[0], ms[1]] && LastUser(older) == LastUser(older[..2]) == Some(ms[1]);
  }

  // ---------- an answer to no call ----------

  /** The answer to the call comes, and later comes again. */
  function AnsweredTwice(): seq<Message> {
    [Call(User, "a", FIRST)] + [Reply("a", FIRST)] + [Words(Assistant, NEXT, FromModel)] + [Reply("a", NEXT)]
  }

  lemma AnsweredTwiceSendable(show: Show, native: bool)
    ensures AllSendable(show, native, AnsweredTwice())
  {
    CallIs(show, native, {}, User, "a", FIRST);
    WordsAre(show, native, {}, Assistant, NEXT, FromModel);
    assert Sendable(show, native, Reply("a", FIRST)) && Sendable(show, native, Reply("a", NEXT));
    assert Sendable(show, native, Call(User, "a", FIRST));
    assert Sendable(show, native, Words(Assistant, NEXT, FromModel));
    hide Sendable, Call, Reply, Words;
  }

  lemma AnsweredTwiceSettles(show: Show, native: bool)
    ensures Settles({}, AnsweredTwice())
  {
    var call, reply, words, again := Call(User, "a", FIRST), Reply("a", FIRST), Words(Assistant, NEXT, FromModel),
      Reply("a", NEXT);
    CallIs(show, native, {}, User, "a", FIRST);
    ReplyIs(show, native, {"a"}, "a", FIRST);
    WordsAre(show, native, {}, Assistant, NEXT, FromModel);
    assert {} + {"a"} == {"a"} && {"a"} - {"a"} == {} && CallIds(words) == {} && NextCalls({}, again) == {};
    hide NextOpen, NextCalls, CallIds, Settles;
    SettlesOne({}, call, [reply] + [words] + [again]);
    SettlesOne({"a"}, reply, [words] + [again]);
    SettlesOne({}, words, [again]);
    SettlesOne({}, again, []);
    SettledAtEnd();
    assert AnsweredTwice() == [call] + ([reply] + [words] + [again]) && [again] + [] == [again];
    assert [reply] + [words] + [again] == [reply] + ([words] + [again]);
  }

  lemma SettledAtEnd()
    ensures Settles({}, [])
  {}

  lemma AnsweredTwiceUnpaired(show: Show, native: bool)
    ensures OpenCalls({}, AnsweredTwice()[..2]) == {} && !ResultsPaired({}, AnsweredTwice())
  {
    var call, reply, words, again := Call(User, "a", FIRST), Reply("a", FIRST), Words(Assistant, NEXT, FromModel),
      Reply("a", NEXT);
    CallIs(show, native, {}, User, "a", FIRST);
    ReplyIs(show, native, {"a"}, "a", FIRST);
    WordsAre(show, native, {}, Assistant, NEXT, FromModel);
    assert {} + {"a"} == {"a"} && {"a"} - {"a"} == {};
    hide NextOpen, NextCalls;
    Unfold(show, native, None, {}, {}, call, [reply] + [words] + [again]);
    Unfold(show, native, None, {"a"}, {}, reply, [words] + [again]);
    Unfold(show, native, None, {}, {}, words, [again]);
    Unfold(show, native, None, {}, {}, again, []);
    Unfold(show, native, None, {}, {}, call, [reply]);
    Unfold(show, native, None, {"a"}, {}, reply, []);
    assert AnsweredTwice() == [call] + ([reply] + [words] + [again]) && [again] + [] == [again];
    assert [reply] + [words] + [again] == [reply] + ([words] + [again]);
    assert AnsweredTwice()[..2] == [call] + [reply] && [reply] + [] == [reply];
  }

  lemma SettlesOne(open: set<string>, m: Message, rest: seq<Message>)
    ensures Settles(open, [m] + rest) <==>
              (if m.result.Some? then ResultId(m) in open || open == {} else open !! CallIds(m))
              && Settles(NextCalls(open, m), rest)
  {
    assert ([m] + rest)[0] == m && ([m] + rest)[1..] == rest;
  }

  lemma AnsweredTwiceCut()
    ensures var ms := AnsweredTwice();
            |ms| == 4 && Cut(ms, 1) == 2 && CarriedCalls(ms[..2]) == {"a"}
            && ms[2..] == [Words(Assistant, NEXT, FromModel)] + [Reply("a", NEXT)]
  {
    var ms := AnsweredTwice();
    var window, older := ms[3..], ms[..2];
    assert window == [Reply("a", NEXT)] && window[0].turn == NEXT;
    assert TurnsOf(window) == {"t2"};
    assert ms[2] in ms && Typed(ms);
    FirstOfIs(ms, TurnsOf(window), 0, 3);
    assert !InTurns(ms[0], {"t2"}) && !InTurns(ms[1], {"t2"}) && InTurns(ms[2], {"t2"});
    hide Typed, TurnsOf, FirstOf;
    var call := Call(User, "a", FIRST);
    assert older[..1] == [call] && LastUser(older) == LastUser(older[..1]) == Some(call);
    assert call.content.blocks[0] in call.content.blocks && CallIds(call) == {"a"};
  }

  /** Where an answer is to no open call, what is not safe to compact may still be replayed: the call
      that is carried without its answer is closed by the stray one. */
  lemma StrayAnswerCloses(show: Show, native: bool, summary: string)
    ensures var ms := AnsweredTwice();
            && Replayable(show, native, ms) && !ResultsPaired({}, ms) && !SafeToCompact(ms, 1)
            && Replayable(show, native, Compacted(ms, 1, summary))
  {
    var ms := AnsweredTwice();
    AnsweredTwiceSendable(show, native);
    AnsweredTwiceSettles(show, native);
    AnsweredTwiceUnpaired(show, native);
    AnsweredTwiceCut();
    var words, again := Words(Assistant, NEXT, FromModel), Reply("a", NEXT);
    WordsAre(show, native, {"a"}, Assistant, NEXT, FromModel);
    assert CallIds(words) == {} && {"a"} - {"a"} == {};
    SettlesOne({"a"}, words, [again]);
    SettlesOne({"a"}, again, []);
    assert [again] + [] == [again] && Settles({}, []);
    hide Replayable, Compacted, ResultsPaired, OpenCalls, CallIds, Cut, LastUser, Settles, AllSendable, Orphaned,
         CarriedCalls, NextOpen;
    ReplayableIffSettles(show, native, ms);
    CompactedReplaysIffSettles(show, native, ms, 1, summary);
    assert "a" in {"a"};
  }
}
