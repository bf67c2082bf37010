/** Nested model requests: invoking threads, the event loop and a canceller over one pending set.

  Every block that runs under the lock is one step, except settling, whose two writes are two
  steps with the lock held between them.  The canceller's wait and its return take no lock, so
  they may fall anywhere. */
module NestedRequests {
  import opened ChunkTree

  /** Where the invoking thread is. */
  datatype Invoker = Idle | Refused | Generating | Answered | Responded

  /** The asyncio task of the response; `Dropped` found itself aborted before it began. */
  datatype Task = NoTask | Queued | Running | Done | Dropped

  /** `later` is a response that can only be cancelled on the loop, not closed at once. */
  datatype Request = Request(
    invoker: Invoker, later: bool, task: Task, started: bool, aborted: bool, completed: bool, settles: nat)

  datatype Canceller = NotCalled | Draining(waiting: set<nat>) | Returned(waited: set<nat>, left: set<nat>)

  /** `settling` is the request between the two writes of its settling; it holds the lock. */
  datatype World = World(
    requests: seq<Request>, pending: set<nat>, closed: bool, settling: Option<nat>, canceller: Canceller)

  datatype Outcome = Plain | Raised | Awaitable(later: bool)

  datatype Action =
    | Join(r: nat)
    | Generate(r: nat, outcome: Outcome)
    | Schedule(r: nat)
    | CloseUnstarted(r: nat)
    | Start(r: nat)
    | End(r: nat)
    | Settle(r: nat)
    | Release
    | Cancel
    | Return

  const FRESH := Request(Idle, false, NoTask, false, false, false, 0)

  function Initial(n: nat): World {
    World(seq(n, i => FRESH), {}, false, None, NotCalled)
  }

  predicate Joined(q: Request) {
    q.invoker.Generating? || q.invoker.Answered? || q.invoker.Responded?
  }

  function Put(w: World, r: nat, q: Request): World
    requires r < |w.requests|
  {
    w.(requests := w.requests[r := q])
  }

  /** The first write of settling; settling a completed request again does nothing. */
  function BeginSettle(w: World, r: nat): World
    requires r < |w.requests|
  {
    var q := w.requests[r];
    if q.completed then w
    else Put(w, r, q.(completed := true, settles := q.settles + 1)).(settling := Some(r))
  }

  /** A request settles when it has a plain answer, when its task is done, or when the response
      of an aborted one has been cancelled. */
  predicate MaySettle(q: Request) {
    q.invoker.Answered? || q.task.Done? || (q.aborted && q.later)
  }

  /** The steps of one request that need the lock. */
  function Locked(w: World, a: Action): World {
    match a
    case Join(r) =>
      if r >= |w.requests| || !w.requests[r].invoker.Idle? then w
      else if w.closed then Put(w, r, w.requests[r].(invoker := Refused))
      else Put(w, r, w.requests[r].(invoker := Generating)).(pending := w.pending + {r})
    case Schedule(r) =>
      if r >= |w.requests| || w.closed then w
      else
        var q := w.requests[r];
        if !q.invoker.Responded? || !q.task.NoTask? || q.aborted then w else Put(w, r, q.(task := Queued))
    case CloseUnstarted(r) =>
      if r >= |w.requests| || !w.requests[r].invoker.Responded? || w.requests[r].started then w
      else
        var w' := Put(w, r, w.requests[r].(aborted := true));
        if w.requests[r].later then w' else BeginSettle(w', r)
    case Start(r) =>
      if r >= |w.requests| || !w.requests[r].task.Queued? then w
      else if w.requests[r].aborted then Put(w, r, w.requests[r].(task := Dropped))
      else Put(w, r, w.requests[r].(task := Running, started := true))
    case Settle(r) =>
      if r >= |w.requests| || !MaySettle(w.requests[r]) then w else BeginSettle(w, r)
    case Cancel =>
      if w.canceller.Draining? then w else w.(closed := true, canceller := Draining(w.pending))
    case _ => w
  }

  /** The steps that need no lock. */
  function Unlocked(w: World, a: Action): World {
    match a
    case Generate(r, outcome) =>
      if r >= |w.requests| || !w.requests[r].invoker.Generating? then w
      else Put(w, r, if outcome.Awaitable? then w.requests[r].(invoker := Responded, later := outcome.later)
                     else w.requests[r].(invoker := Answered))
    case End(r) =>
      if r >= |w.requests| || !w.requests[r].task.Running? then w else Put(w, r, w.requests[r].(task := Done))
    case Release =>
      if w.settling.None? then w else w.(pending := w.pending - {w.settling.value}, settling := None)
    case Return =>
      if !w.canceller.Draining? || exists r <- w.canceller.waiting :: r >= |w.requests| || !w.requests[r].completed
      then w
      else w.(canceller := Returned(w.canceller.waiting, w.pending))
    case _ => w
  }

  function Next(w: World, a: Action): World {
    if a.Generate? || a.End? || a.Release? || a.Return? then Unlocked(w, a)
    else if w.settling.Some? then w
    else Locked(w, a)
  }

  function Run(w: World, actions: seq<Action>): World {
    if actions == [] then w else Next(Run(w, actions[..|actions| - 1]), actions[|actions| - 1])
  }

  // ---------- the invariant ----------

  ghost predicate RequestOk(q: Request) {
    && !(q.started && q.aborted)
    && (q.started <==> q.task.Running? || q.task.Done?)
    && (q.aborted || !q.task.NoTask? ==> q.invoker.Responded?)
    && q.settles == (if q.completed then 1 else 0)
    && (q.completed ==> Joined(q) && (q.invoker.Answered? || q.task.Done? || q.aborted))
    && (q.aborted && !q.later ==> q.completed)
    && (q.task.Dropped? ==> q.aborted)
  }

  ghost predicate Inv(w: World) {
    && (forall r | 0 <= r < |w.requests| :: RequestOk(w.requests[r])
          && (r in w.pending <==> Joined(w.requests[r]) && (w.requests[r].completed ==> w.settling == Some(r))))
    && (forall r <- w.pending :: r < |w.requests|)
    && (w.settling.Some? ==> w.settling.value in w.pending && w.requests[w.settling.value].completed)
    && (w.closed <==> !w.canceller.NotCalled?)
    && (w.canceller.Draining? ==>
          (w.pending <= w.canceller.waiting
           && forall r <- w.canceller.waiting :: r < |w.requests| && Joined(w.requests[r])))
  }

  lemma BeginSettleKeepsInv(w: World, r: nat)
    requires Inv(w) && w.settling.None? && r < |w.requests| && Joined(w.requests[r])
    requires w.requests[r].invoker.Answered? || w.requests[r].task.Done? || w.requests[r].aborted
    ensures Inv(BeginSettle(w, r))
  {}

  lemma LockedKeepsInv(w: World, a: Action)
    requires Inv(w) && w.settling.None?
    ensures Inv(Locked(w, a))
  {
    match a
    case CloseUnstarted(r) => CloseUnstartedKeepsInv(w, r);
    case Settle(r) =>
      if r < |w.requests| && MaySettle(w.requests[r]) { BeginSettleKeepsInv(w, r); }
    case _ =>
  }

  lemma CloseUnstartedKeepsInv(w: World, r: nat)
    requires Inv(w) && w.settling.None?
    ensures Inv(Locked(w, CloseUnstarted(r)))
  {}

  lemma NextKeepsInv(w: World, a: Action)
    requires Inv(w)
    ensures Inv(Next(w, a))
  {
    if a.Generate? || a.End? || a.Release? || a.Return? {
    } else if w.settling.None? {
      LockedKeepsInv(w, a);
    }
  }

  lemma {:induction false} RunKeepsInv(n: nat, actions: seq<Action>)
    ensures Inv(Run(Initial(n), actions))
  {
    if actions != [] {
      RunKeepsInv(n, actions[..|actions| - 1]);
      NextKeepsInv(Run(Initial(n), actions[..|actions| - 1]), actions[|actions| - 1]);
    }
  }

  // ---------- the promises ----------

  /** Under every interleaving no request is both started and aborted, none is settled twice, and
      the pending set holds exactly the joined requests whose settling is not over. */
  lemma EveryInterleaving(n: nat, actions: seq<Action>, r: nat)
    requires r < |Run(Initial(n), actions).requests|
    ensures var w := Run(Initial(n), actions);
            var q := w.requests[r];
            && !(q.started && q.aborted)
            && q.settles <= 1 && (q.settles == 1 <==> q.completed)
            && (r in w.pending <==> Joined(q) && (q.settles == 0 || w.settling == Some(r)))
  {
    RunKeepsInv(n, actions);
  }

  /** After closing nobody joins: the pending set only shrinks, and who tries is refused. */
  lemma ClosedOnlyShrinks(w: World, a: Action)
    requires Inv(w) && w.closed
    ensures Next(w, a).closed && Next(w, a).pending <= w.pending
    ensures a.Join? && a.r < |w.requests| && w.requests[a.r].invoker.Idle? && w.settling.None? ==>
              Next(w, a) == w.(requests := w.requests[a.r := w.requests[a.r].(invoker := Refused)])
  {}

  /** Before closing, who joins is pending until it is settled; a plain or raised answer lets it settle at
      once, a response only when its task is done or it is aborted. */
  lemma AnswersSettle(w: World, r: nat, outcome: Outcome)
    requires Inv(w) && r < |w.requests| && !w.closed && w.settling.None? && w.requests[r].invoker.Idle?
    ensures var w' := Next(Next(w, Join(r)), Generate(r, outcome));
            && r in w'.pending && w'.pending == w.pending + {r}
            && (MaySettle(w'.requests[r]) <==> !outcome.Awaitable?)
            && (!outcome.Awaitable? ==>
                  Next(Next(w', Settle(r)), Release).pending == w.pending
                  && Next(w', Settle(r)).requests[r].settles == 1)
  {
    assert RequestOk(w.requests[r]);
  }

  /** When the canceller returns, everything it waited for is completed, and what is left pending
      is exactly the request whose settling is between its two writes, if there is one. */
  lemma ReturnLeaves(n: nat, actions: seq<Action>)
    requires var w := Run(Initial(n), actions);
             w.canceller.Draining? && Next(w, Return).canceller.Returned?
    ensures var w := Run(Initial(n), actions);
            var c := Next(w, Return).canceller;
            && (forall r <- c.waited :: w.requests[r].completed)
            && c.left == (if w.settling.Some? then {w.settling.value} else {})
  {
    RunKeepsInv(n, actions);
    var w := Run(Initial(n), actions);
    forall r <- w.pending ensures w.settling == Some(r) { assert r in w.canceller.waiting; }
  }

  /** The pending set is empty on return if and only if no settling is in progress. */
  lemma EmptyOnReturn(n: nat, actions: seq<Action>)
    requires var w := Run(Initial(n), actions);
             w.canceller.Draining? && Next(w, Return).canceller.Returned?
    ensures var w := Run(Initial(n), actions);
            Next(w, Return).canceller.left == {} <==> w.settling.None?
  {
    ReturnLeaves(n, actions);
  }

  /** It need not be empty: a worker answers at once and has written its completion, but has not
      yet left the set, when the canceller stops waiting. */
  lemma ReturnsTooEarly()
    ensures var actions := [Join(0), Generate(0, Plain), Cancel, Settle(0), Return];
            Run(Initial(1), actions).canceller == Returned({0}, {0})
  {
    var a := [Join(0), Generate(0, Plain), Cancel, Settle(0), Return];
    var w0 := Initial(1);
    var w1, w2 := Next(w0, a[0]), Next(Next(w0, a[0]), a[1]);
    var w3 := Next(w2, a[2]);
    var w4 := Next(w3, a[3]);
    assert Run(w0, a[..0]) == w0;
    assert a[..1][..0] == a[..0] && a[..2][..1] == a[..1] && a[..3][..2] == a[..2] && a[..4][..3] == a[..3];
    assert Run(w0, a[..1]) == w1;
    assert Run(w0, a[..2]) == w2;
    assert Run(w0, a[..3]) == w3;
    assert w3.canceller == Draining({0}) && w4.requests[0].completed && w4.pending == {0};
    assert Run(w0, a[..4]) == w4;
    assert a[..5] == a && a[..5][..4] == a[..4];
  }

  // ---------- nobody is left behind ----------

  /** How far a joined request is from being settled. */
  function Distance(q: Request): nat {
    if q.completed then 0
    else if q.invoker.Generating? then 5
    else if q.invoker.Answered? || q.task.Done? || q.aborted then 1
    else if q.task.Running? then 2
    else if q.task.Queued? then 3
    else 4
  }

  /** The step that brings a request closer. */
  function Forward(w: World, r: nat): Action
    requires r < |w.requests|
  {
    var q := w.requests[r];
    if q.invoker.Generating? then Generate(r, Plain)
    else if MaySettle(q) then Settle(r)
    else if q.task.Running? then End(r)
    else if q.task.Queued? then Start(r)
    else if w.closed then CloseUnstarted(r)
    else Schedule(r)
  }

  /** A step that helps a request on; generating helps whatever it returns or raises. */
  predicate Helpful(w: World, a: Action, r: nat) {
    && r < |w.requests| && Joined(w.requests[r]) && !w.requests[r].completed && w.settling.None?
    && (a == Forward(w, r) || (w.requests[r].invoker.Generating? && a.Generate? && a.r == r))
  }

  /** Every helpful step, with any outcome, brings the request closer; and unless the lock is held,
      there is one. */
  lemma ForwardHelps(w: World, a: Action, r: nat)
    requires Inv(w) && Helpful(w, a, r)
    ensures var w' := Next(w, a);
            |w'.requests| == |w.requests| && Joined(w'.requests[r])
            && Distance(w'.requests[r]) < Distance(w.requests[r])
  {}

  /** No step of anybody takes a joined request further from being settled. */
  lemma NobodyHinders(w: World, a: Action, r: nat)
    requires Inv(w) && r < |w.requests| && Joined(w.requests[r])
    ensures var w' := Next(w, a);
            |w'.requests| == |w.requests| && Joined(w'.requests[r])
            && Distance(w'.requests[r]) <= Distance(w.requests[r])
  {
    hide Locked, Unlocked, Distance, Inv;
    if a.Generate? || a.End? || a.Release? || a.Return? {
      UnlockedHindersNobody(w, a, r);
    } else if w.settling.None? {
      LockedHindersNobody(w, a, r);
    }
  }

  lemma LockedHindersNobody(w: World, a: Action, r: nat)
    requires Inv(w) && r < |w.requests| && Joined(w.requests[r]) && w.settling.None?
    ensures var w' := Locked(w, a);
            |w'.requests| == |w.requests| && Joined(w'.requests[r])
            && Distance(w'.requests[r]) <= Distance(w.requests[r])
  {}

  lemma UnlockedHindersNobody(w: World, a: Action, r: nat)
    requires Inv(w) && r < |w.requests| && Joined(w.requests[r])
    ensures var w' := Unlocked(w, a);
            |w'.requests| == |w.requests| && Joined(w'.requests[r])
            && Distance(w'.requests[r]) <= Distance(w.requests[r])
  {}

  lemma RunSnoc(w: World, actions: seq<Action>, a: Action)
    ensures Run(w, actions + [a]) == Next(Run(w, actions), a)
  {
    assert (actions + [a])[..|actions|] == actions;
  }

  /** From every reachable state every joined request can still be settled: no interleaving of
      cancelling, starting and answering strands one. */
  lemma {:induction false} CanAlwaysSettle(n: nat, before: seq<Action>, r: nat) returns (after: seq<Action>)
    requires var w := Run(Initial(n), before); r < |w.requests| && Joined(w.requests[r])
    ensures var w := Run(Initial(n), before + after);
            r < |w.requests| && w.requests[r].settles == 1 && r !in w.pending
    decreases Distance(Run(Initial(n), before).requests[r]), if Run(Initial(n), before).settling.Some? then 1 else 0
  {
    RunKeepsInv(n, before);
    var w := Run(Initial(n), before);
    hide Locked, Run, MaySettle;
    if w.settling.Some? {
      RunSnoc(Initial(n), before, Release);
      NobodyHinders(w, Release, r);
      var rest := CanAlwaysSettle(n, before + [Release], r);
      after := [Release] + rest;
      assert before + after == before + [Release] + rest;
    } else if w.requests[r].completed {
      after := [];
      assert before + after == before;
    } else {
      var a := Forward(w, r);
      RunSnoc(Initial(n), before, a);
      ForwardHelps(w, a, r);
      var rest := CanAlwaysSettle(n, before + [a], r);
      after := [a] + rest;
      assert before + after == before + [a] + rest;
    }
  }

  /** How many steps of a run from w are helpful to a request. */
  function HelpfulSteps(w: World, actions: seq<Action>, r: nat): nat {
    if actions == [] then 0
    else
      var front, last := actions[..|actions| - 1], actions[|actions| - 1];
      HelpfulSteps(w, front, r) + if Helpful(Run(w, front), last, r) then 1 else 0
  }

  /** A fair run settles every joined request: whatever anybody does and whatever the requests answer,
      no run holds more than five steps helpful to it, and after every run either it is completed,
      or the lock is held and can be released, or the next helpful step is there to be taken. */
  lemma {:induction false} FairRunSettles(n: nat, before: seq<Action>, actions: seq<Action>, r: nat)
    requires var w := Run(Initial(n), before); r < |w.requests| && Joined(w.requests[r])
    ensures var w, w' := Run(Initial(n), before), Run(Run(Initial(n), before), actions);
            && r < |w'.requests| && Joined(w'.requests[r]) && Inv(w')
            && HelpfulSteps(w, actions, r) + Distance(w'.requests[r]) <= Distance(w.requests[r]) <= 5
            && (w'.requests[r].completed || Helpful(w', Forward(w', r), r)
                || (w'.settling.Some? && Next(w', Release).settling.None?))
    decreases |actions|
  {
    RunKeepsInv(n, before);
    var w := Run(Initial(n), before);
    if actions != [] {
      var front, last := actions[..|actions| - 1], actions[|actions| - 1];
      FairRunSettles(n, before, front, r);
      var now := Run(w, front);
      hide Locked, Unlocked, MaySettle, Inv, Distance, Helpful, Forward;
      NextKeepsInv(now, last);
      if Helpful(now, last, r) { ForwardHelps(now, last, r); } else { NobodyHinders(now, last, r); }
      AlwaysHelp(Run(w, actions), r);
    } else {
      AlwaysHelp(w, r);
    }
  }

  lemma AlwaysHelp(w: World, r: nat)
    requires Inv(w) && r < |w.requests| && Joined(w.requests[r])
    ensures w.requests[r].completed || Helpful(w, Forward(w, r), r)
            || (w.settling.Some? && Next(w, Release).settling.None?)
    ensures Distance(w.requests[r]) <= 5
  {}
}
