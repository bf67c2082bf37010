/** Admission of model requests: counted and marked pending before they are sent. */
module Admission {
  import opened ChunkTree

  /** A pending call: the turn it belongs to and its number. */
  datatype Call = Call(turn: nat, number: nat)

  /** What is saved as pending; `Inherited` is a marker an earlier process left behind. */
  datatype Marker = Inherited | Calls(first: Call, all: seq<Call>)

  datatype Denial = UnsupportedContext | Cancelled | DeadlineExceeded | ModelCallBudget

  /** The cancel token and the clock, as admission sees them. */
  datatype Conditions = Conditions(cancelled: bool, expired: bool)

  datatype Turns = Turns(
    modelCalls: nat,
    cap: Option<nat>,
    pending: seq<Call>,
    active: set<nat>,
    safe: set<nat>,
    marker: Option<Marker>)

  function Numbers(calls: seq<Call>): set<nat> {
    set i | 0 <= i < |calls| :: calls[i].number
  }

  function Without(calls: seq<Call>, n: nat): seq<Call> {
    if calls == [] then []
    else (if calls[0].number == n then [] else [calls[0]]) + Without(calls[1..], n)
  }

  /** A single pending call is saved alone, several with the list of all. */
  function MarkerOf(pending: seq<Call>): Option<Marker> {
    if pending == [] then None
    else Some(Calls(pending[0], if |pending| == 1 then [] else pending))
  }

  /** The saved marker names the call. */
  predicate MarkerShows(marker: Option<Marker>, n: nat) {
    marker.Some? && marker.value.Calls?
    && (marker.value.first.number == n || exists c | c in marker.value.all :: c.number == n)
  }

  /** The marker names exactly the pending calls, and there is none when nothing is pending. */
  lemma MarkerNames(pending: seq<Call>)
    ensures MarkerOf(pending).None? <==> pending == []
    ensures forall n :: MarkerShows(MarkerOf(pending), n) <==> n in Numbers(pending)
  {
    forall n ensures MarkerShows(MarkerOf(pending), n) <==> n in Numbers(pending) {
      if i :| 0 <= i < |pending| && pending[i].number == n { assert pending[i] in pending; }
    }
  }

  function Check(t: Turns, now: Conditions, allowInflight: bool): Option<Denial> {
    if t.marker.Some? && !(allowInflight && t.active != {} && t.active == Numbers(t.pending) && t.active == t.safe)
    then Some(UnsupportedContext)
    else if now.cancelled then Some(Cancelled)
    else if now.expired then Some(DeadlineExceeded)
    else if t.cap.Some? && t.modelCalls >= t.cap.value then Some(ModelCallBudget)
    else None
  }

  /** Count the call and mark it pending; the caller has checked. */
  function Enter(t: Turns, turn: nat, allowInflight: bool): Turns {
    var n := t.modelCalls + 1;
    var pending := t.pending + [Call(turn, n)];
    t.(modelCalls := n, pending := pending, active := t.active + {n},
       safe := if allowInflight then t.safe + {n} else t.safe, marker := MarkerOf(pending))
  }

  /** The call will not be sent, but stays pending: it may have been saved as such. */
  function Abandon(t: Turns, n: nat): Turns {
    t.(active := t.active - {n}, safe := t.safe - {n})
  }

  function Acknowledge(t: Turns, n: nat): Turns {
    var pending := Without(t.pending, n);
    t.(active := t.active - {n}, safe := t.safe - {n}, pending := pending, marker := MarkerOf(pending))
  }

  /** A process that starts from a saved state, with the cap of its own configuration. */
  function Restored(modelCalls: nat, cap: Option<nat>, marked: bool): Turns {
    Turns(modelCalls, cap, [], {}, {}, if marked then Some(Inherited) else None)
  }

  /** The cap of a resumed process: the configured one, or the saved one when none is configured.
      None where Looplet raises, which is exactly where the configuration would raise the saved cap. */
  function ResumedCap(saved: nat, configured: Option<nat>): (cap: Option<nat>)
    ensures cap.Some? ==> cap.value <= saved && (configured.Some? ==> cap == configured)
    ensures cap.None? <==> configured.Some? && saved < configured.value
    ensures configured.None? ==> cap == Some(saved)
  {
    var cap := configured.GetOr(saved);
    if cap > saved then None else Some(cap)
  }

  // ---------- the object ----------

  datatype Admitted = Admitted(number: nat) | Denied(reason: Denial) | NotSaved(number: nat)

  class AssistantTurns {
    var modelCalls: nat
    const cap: Option<nat>
    var pending: seq<Call>
    var active: set<nat>
    var safe: set<nat>
    var marker: Option<Marker>

    ghost function Now(): Turns
      reads this
    {
      Turns(modelCalls, cap, pending, active, safe, marker)
    }

    constructor (modelCalls: nat, cap: Option<nat>, marked: bool)
      ensures Now() == Restored(modelCalls, cap, marked)
    {
      this.modelCalls, this.cap, pending, active, safe := modelCalls, cap, [], {}, {};
      marker := if marked then Some(Inherited) else None;
    }

    method CheckAdmission(now: Conditions, allowInflight: bool) returns (r: Option<Denial>)
      ensures r == Check(Now(), now, allowInflight)
    {
      if marker.Some? {
        if !(allowInflight && active != {} && active == Numbers(pending) && active == safe) {
          return Some(UnsupportedContext);
        }
      }
      if now.cancelled { return Some(Cancelled); }
      if now.expired { return Some(DeadlineExceeded); }
      if cap.Some? && modelCalls >= cap.value { return Some(ModelCallBudget); }
      r := None;
    }

    method UpdatePendingCalls()
      modifies this`marker
      ensures marker == MarkerOf(pending)
    {
      if |pending| == 0 {
        marker := None;
      } else if |pending| == 1 {
        marker := Some(Calls(pending[0], []));
      } else {
        marker := Some(Calls(pending[0], pending));
      }
    }

    /** `saved` is the outcome of the checkpoint that admission itself makes. */
    method Admit(now: Conditions, turn: nat, allowInflight: bool, saved: bool) returns (r: Admitted)
      modifies this
      ensures var denial := Check(old(Now()), now, allowInflight);
              var entered := Enter(old(Now()), turn, allowInflight);
              if denial.Some? then r == Denied(denial.value) && Now() == old(Now())
              else if saved then r == Admitted(modelCalls) && Now() == entered
              else r == NotSaved(modelCalls) && Now() == Abandon(entered, modelCalls)
      ensures !r.Denied? ==>
                && modelCalls == old(modelCalls) + 1 && pending == old(pending) + [Call(turn, modelCalls)]
                && (forall m :: m in active <==> m in old(active) - {modelCalls} || (saved && m == modelCalls))
                && (forall m :: m in safe <==>
                      m in old(safe) - {modelCalls} || (saved && m == modelCalls && (allowInflight || m in old(safe))))
                && forall m :: MarkerShows(marker, m) <==> m in Numbers(pending)
    {
      var denial := CheckAdmission(now, allowInflight);
      if denial.Some? { return Denied(denial.value); }
      modelCalls := modelCalls + 1;
      pending := pending + [Call(turn, modelCalls)];
      active := active + {modelCalls};
      if allowInflight { safe := safe + {modelCalls}; }
      UpdatePendingCalls();
      MarkerNames(pending);
      if !saved {
        GiveUp(modelCalls);
        return NotSaved(modelCalls);
      }
      r := Admitted(modelCalls);
    }

    /** The call alone is no longer served; it stays pending and marked. */
    method GiveUp(n: nat)
      modifies this`active, this`safe
      ensures Now() == Abandon(old(Now()), n)
      ensures forall m :: m in active <==> m in old(active) && m != n
      ensures forall m :: m in safe <==> m in old(safe) && m != n
    {
      active, safe := active - {n}, safe - {n};
    }

    /** The call alone is gone, and the marker names what is still pending. */
    method Settle(n: nat)
      modifies this`active, this`safe, this`pending, this`marker
      ensures Now() == Acknowledge(old(Now()), n)
      ensures forall c :: c in pending <==> c in old(pending) && c.number != n
      ensures forall m :: m in active <==> m in old(active) && m != n
      ensures forall m :: m in safe <==> m in old(safe) && m != n
      ensures marker.None? <==> pending == []
      ensures forall m :: MarkerShows(marker, m) <==> m in Numbers(pending)
    {
      hide Without, MarkerOf, MarkerShows, Numbers;
      WithoutKeeps(pending, n);
      active, safe := active - {n}, safe - {n};
      pending := Without(pending, n);
      UpdatePendingCalls();
      MarkerNames(pending);
    }
  }

  // ---------- what holds in every reachable state ----------

  datatype Event =
    | TryAdmit(now: Conditions, turn: nat, allowInflight: bool, saved: bool)
    | AbandonCall(n: nat)
    | AcknowledgeCall(n: nat)

  /** The state together with the calls that were admitted as safe to overlap. */
  datatype History = History(turns: Turns, admittedSafe: set<nat>)

  function Step(h: History, e: Event): History {
    match e
    case TryAdmit(now, turn, allowInflight, saved) =>
      if Check(h.turns, now, allowInflight).Some? then h
      else
        var t := Enter(h.turns, turn, allowInflight);
        History(if saved then t else Abandon(t, t.modelCalls),
                if allowInflight then h.admittedSafe + {t.modelCalls} else h.admittedSafe)
    case AbandonCall(n) => h.(turns := Abandon(h.turns, n))
    case AcknowledgeCall(n) => h.(turns := Acknowledge(h.turns, n))
  }

  function Run(h: History, events: seq<Event>): History {
    if events == [] then h else Step(Run(h, events[..|events| - 1]), events[|events| - 1])
  }

  /** Call numbers are handed out in order and never again. */
  ghost predicate Numbered(t: Turns) {
    && (forall i | 0 <= i < |t.pending| :: t.pending[i].number <= t.modelCalls)
    && (forall i, j | 0 <= i < j < |t.pending| :: t.pending[i].number < t.pending[j].number)
  }

  ghost predicate Inv(h: History) {
    var t := h.turns;
    && Numbered(t)
    && t.safe <= t.active <= Numbers(t.pending)
    && t.safe <= h.admittedSafe
    && (|t.pending| >= 2 ==> Numbers(t.pending) <= h.admittedSafe)
    && (t.marker == MarkerOf(t.pending) || (t.pending == [] && t.marker == Some(Inherited)))
  }

  lemma NumbersSnoc(calls: seq<Call>, c: Call)
    ensures Numbers(calls + [c]) == Numbers(calls) + {c.number}
  {
    var all := calls + [c];
    forall n | n in Numbers(calls) ensures n in Numbers(all) {
      var i :| 0 <= i < |calls| && calls[i].number == n;
      assert all[i].number == n;
    }
    assert all[|calls|].number == c.number;
  }

  lemma {:induction false} WithoutKeeps(calls: seq<Call>, n: nat)
    ensures forall c :: c in Without(calls, n) <==> c in calls && c.number != n
    ensures |Without(calls, n)| <= |calls|
    ensures (forall i, j | 0 <= i < j < |calls| :: calls[i].number < calls[j].number) ==>
              forall i, j | 0 <= i < j < |Without(calls, n)| ::
                Without(calls, n)[i].number < Without(calls, n)[j].number
  {
    if calls != [] {
      WithoutKeeps(calls[1..], n);
      var rest := Without(calls[1..], n);
      forall i | 0 <= i < |rest| ensures rest[i] in calls[1..] { assert rest[i] in rest; }
    }
  }

  lemma NumbersWithout(calls: seq<Call>, n: nat)
    ensures Numbers(Without(calls, n)) == Numbers(calls) - {n}
  {
    WithoutKeeps(calls, n);
    var rest := Without(calls, n);
    forall m | m in Numbers(calls) - {n} ensures m in Numbers(rest) {
      var i :| 0 <= i < |calls| && calls[i].number == m;
      assert calls[i] in rest;
    }
    forall m | m in Numbers(rest) ensures m in Numbers(calls) - {n} {
      var i :| 0 <= i < |rest| && rest[i].number == m;
      assert rest[i] in rest;
    }
  }

  lemma EnterKeepsInv(h: History, now: Conditions, turn: nat, allowInflight: bool)
    requires Inv(h) && Check(h.turns, now, allowInflight).None?
    ensures var t := Enter(h.turns, turn, allowInflight);
            Inv(History(t, if allowInflight then h.admittedSafe + {t.modelCalls} else h.admittedSafe))
  {
    var n := h.turns.modelCalls + 1;
    NumbersSnoc(h.turns.pending, Call(turn, n));
    JoinsOnlySafe(h, now, allowInflight);
    hide Numbers, MarkerOf, Check;
  }

  /** A request is admitted beside others only where all of them, and itself, may overlap. */
  lemma JoinsOnlySafe(h: History, now: Conditions, allowInflight: bool)
    requires Inv(h) && Check(h.turns, now, allowInflight).None?
    ensures h.turns.pending == [] || (allowInflight && Numbers(h.turns.pending) <= h.admittedSafe)
    ensures h.turns.pending == [] ==> Numbers(h.turns.pending) == {}
  {}

  lemma AcknowledgeKeepsInv(h: History, n: nat)
    requires Inv(h)
    ensures Inv(h.(turns := Acknowledge(h.turns, n)))
  {
    NumbersWithout(h.turns.pending, n);
    WithoutKeeps(h.turns.pending, n);
    var rest := Without(h.turns.pending, n);
    forall i | 0 <= i < |rest| ensures rest[i].number <= h.turns.modelCalls { assert rest[i] in rest; }
  }

  lemma StepKeepsInv(h: History, e: Event)
    requires Inv(h)
    ensures Inv(Step(h, e))
  {
    match e
    case TryAdmit(now, turn, allowInflight, saved) =>
      if Check(h.turns, now, allowInflight).None? { EnterKeepsInv(h, now, turn, allowInflight); }
    case AbandonCall(_) =>
    case AcknowledgeCall(n) => AcknowledgeKeepsInv(h, n);
  }

  /** In every reachable state overlap-safe calls are active, active calls are pending, several
      pending calls were all admitted overlap-safe, and the saved marker says exactly what is
      pending, unless it was inherited and nothing has been admitted since. */
  lemma {:induction false} ReachableInv(modelCalls: nat, cap: Option<nat>, marked: bool, events: seq<Event>)
    ensures Inv(Run(History(Restored(modelCalls, cap, marked), {}), events))
  {
    if events != [] {
      ReachableInv(modelCalls, cap, marked, events[..|events| - 1]);
      StepKeepsInv(Run(History(Restored(modelCalls, cap, marked), {}), events[..|events| - 1]), events[|events| - 1]);
    }
  }

  /** No call goes over the cap. */
  lemma {:induction false} CapHolds(modelCalls: nat, cap: nat, marked: bool, events: seq<Event>)
    ensures var t := Run(History(Restored(modelCalls, Some(cap), marked), {}), events).turns;
            t.cap == Some(cap) && modelCalls <= t.modelCalls <= (if modelCalls > cap then modelCalls else cap)
  {
    if events != [] { CapHolds(modelCalls, cap, marked, events[..|events| - 1]); }
  }

  ghost predicate Stuck(h: History, n: nat) {
    n in Numbers(h.turns.pending) && n !in h.turns.active
  }

  lemma StuckStays(h: History, n: nat, e: Event)
    requires Inv(h) && Stuck(h, n) && e != AcknowledgeCall(n)
    ensures Stuck(Step(h, e), n)
    ensures e.TryAdmit? ==> Check(h.turns, e.now, e.allowInflight) == Some(UnsupportedContext) && Step(h, e) == h
  {
    if e.AcknowledgeCall? { NumbersWithout(h.turns.pending, e.n); }
  }

  /** One abandoned call blocks every later admission, whatever else happens; only its own
      acknowledgement would lift the block, and an abandoned call is never acknowledged. */
  lemma {:induction false} AbandonedBlocks(h: History, n: nat, events: seq<Event>, now: Conditions, allowInflight: bool)
    requires Inv(h) && Stuck(h, n) && AcknowledgeCall(n) !in events
    ensures Inv(Run(h, events)) && Stuck(Run(h, events), n)
    ensures Check(Run(h, events).turns, now, allowInflight) == Some(UnsupportedContext)
    ensures Run(h, events).turns.modelCalls == h.turns.modelCalls
  {
    if events != [] {
      var front, last := events[..|events| - 1], events[|events| - 1];
      assert last in events;
      AbandonedBlocks(h, n, front, now, allowInflight);
      StepKeepsInv(Run(h, front), last);
      StuckStays(Run(h, front), n, last);
    }
  }

  /** An inherited marker blocks every admission too: nothing is pending that could be acknowledged. */
  lemma {:induction false} InheritedBlocks(modelCalls: nat, cap: Option<nat>, events: seq<Event>)
    requires forall e | e in events :: !e.AcknowledgeCall?
    ensures Run(History(Restored(modelCalls, cap, true), {}), events).turns == Restored(modelCalls, cap, true)
  {
    if events != [] {
      assert events[|events| - 1] in events;
      InheritedBlocks(modelCalls, cap, events[..|events| - 1]);
    }
  }

  // ---------- when a request is denied ----------

  /** A call is overlap-safe exactly while it is active and was admitted as such; the numbers of
      such calls have all been counted. */
  ghost predicate SafeAsAdmitted(h: History) {
    h.turns.safe == h.turns.active * h.admittedSafe && forall n <- h.admittedSafe :: n <= h.turns.modelCalls
  }

  lemma StepKeepsSafe(h: History, e: Event)
    requires Inv(h) && SafeAsAdmitted(h)
    ensures SafeAsAdmitted(Step(h, e))
  {}

  lemma {:induction false} ReachableSafe(modelCalls: nat, cap: Option<nat>, marked: bool, events: seq<Event>)
    ensures SafeAsAdmitted(Run(History(Restored(modelCalls, cap, marked), {}), events))
  {
    if events != [] {
      ReachableInv(modelCalls, cap, marked, events[..|events| - 1]);
      ReachableSafe(modelCalls, cap, marked, events[..|events| - 1]);
      StepKeepsSafe(Run(History(Restored(modelCalls, cap, marked), {}), events[..|events| - 1]), events[|events| - 1]);
    }
  }

  /** A pending call that others may join: still being served, and admitted as safe to overlap. */
  predicate Joinable(h: History, c: Call) {
    c.number in h.turns.active && c.number in h.admittedSafe
  }

  lemma AllJoinable(h: History)
    requires Inv(h) && SafeAsAdmitted(h)
    ensures h.turns.active == Numbers(h.turns.pending) && h.turns.active == h.turns.safe
            <==> forall c | c in h.turns.pending :: Joinable(h, c)
  {
    var t := h.turns;
    forall c | c in t.pending ensures c.number in Numbers(t.pending) {
      var i :| 0 <= i < |t.pending| && t.pending[i] == c;
    }
    if forall c | c in t.pending :: Joinable(h, c) {
      forall n | n in Numbers(t.pending) ensures n in t.active && n in h.admittedSafe {
        var i :| 0 <= i < |t.pending| && t.pending[i].number == n;
        assert Joinable(h, t.pending[i]);
      }
    }
  }

  /** After any run of a process that started unmarked, a request is turned away for its context if
      and only if some pending call may not be joined, or this request may not join any; and it is
      admitted if and only if that, the token, the deadline and the cap all allow it.  The token
      comes before the deadline, and both before the cap. */
  lemma AdmittedIff(modelCalls: nat, cap: Option<nat>, events: seq<Event>, now: Conditions, allowInflight: bool)
    ensures var h := Run(History(Restored(modelCalls, cap, false), {}), events);
            var joins := forall c | c in h.turns.pending :: allowInflight && Joinable(h, c);
            && (Check(h.turns, now, allowInflight) == Some(UnsupportedContext) <==> !joins)
            && (Check(h.turns, now, allowInflight).None? <==>
                  joins && !now.cancelled && !now.expired && (cap.Some? ==> h.turns.modelCalls < cap.value))
            && (Check(h.turns, now, allowInflight) == Some(Cancelled) <==> joins && now.cancelled)
            && (Check(h.turns, now, allowInflight) == Some(DeadlineExceeded) <==>
                  joins && !now.cancelled && now.expired)
  {
    ReachableInv(modelCalls, cap, false, events);
    ReachableSafe(modelCalls, cap, false, events);
    var h := Run(History(Restored(modelCalls, cap, false), {}), events);
    StartSettles(modelCalls, cap, events);
    AllJoinable(h);
    hide Run, Joinable, Inv, SafeAsAdmitted;
    if h.turns.pending != [] { assert h.turns.pending[0] in h.turns.pending; }
  }

  /** Acknowledging a call lifts its block and no other: after it a request is admitted if and only if
      every call that is still pending may be joined, and the rest allows it. */
  lemma AcknowledgedIff(modelCalls: nat, cap: Option<nat>, events: seq<Event>, n: nat, now: Conditions,
                        allowInflight: bool)
    ensures var h := Run(History(Restored(modelCalls, cap, false), {}), events);
            var after := Step(h, AcknowledgeCall(n)).turns;
            var joins := forall c | c in h.turns.pending && c.number != n :: allowInflight && Joinable(h, c);
            && (forall c :: c in after.pending <==> c in h.turns.pending && c.number != n)
            && after.modelCalls == h.turns.modelCalls
            && (Check(after, now, allowInflight).None? <==>
                  joins && !now.cancelled && !now.expired && (cap.Some? ==> h.turns.modelCalls < cap.value))
  {
    var start := History(Restored(modelCalls, cap, false), {});
    var h := Run(start, events);
    assert (events + [AcknowledgeCall(n)])[..|events|] == events;
    AdmittedIff(modelCalls, cap, events + [AcknowledgeCall(n)], now, allowInflight);
    WithoutKeeps(h.turns.pending, n);
    assert Run(start, events + [AcknowledgeCall(n)]) == Step(h, AcknowledgeCall(n));
    hide Run, Check;
    forall c | c in h.turns.pending && c.number != n
      ensures Joinable(h, c) <==> Joinable(Step(h, AcknowledgeCall(n)), c)
    {}
  }

  /** An unmarked process never shows an inherited marker, and its cap stays. */
  lemma {:induction false} StartSettles(modelCalls: nat, cap: Option<nat>, events: seq<Event>)
    ensures var t := Run(History(Restored(modelCalls, cap, false), {}), events).turns;
            t.cap == cap && t.marker == MarkerOf(t.pending) && t.active <= Numbers(t.pending)
  {
    ReachableInv(modelCalls, cap, false, events);
    if events != [] { StartSettles(modelCalls, cap, events[..|events| - 1]); }
  }

  /** A call that is given up, or whose own checkpoint could not be saved, is no longer served, yet
      it stays in the saved marker and turns every later request away, until it is acknowledged. */
  lemma GivenUpStaysMarked(h: History, n: nat, events: seq<Event>, now: Conditions, allowInflight: bool)
    requires Inv(h) && n in Numbers(h.turns.pending) && AcknowledgeCall(n) !in events
    ensures var t := Run(Step(h, AbandonCall(n)), events).turns;
            && n in Numbers(t.pending) && n !in t.active && MarkerShows(t.marker, n)
            && Check(t, now, allowInflight) == Some(UnsupportedContext)
  {
    StepKeepsInv(h, AbandonCall(n));
    var given := Step(h, AbandonCall(n));
    AbandonedBlocks(given, n, events, now, allowInflight);
    MarkerNames(Run(given, events).turns.pending);
    hide Run, MarkerShows, Check;
  }

  lemma FailedSaveIsGivenUp(h: History, now: Conditions, turn: nat, allowInflight: bool)
    requires Inv(h) && Check(h.turns, now, allowInflight).None?
    ensures var n, e := h.turns.modelCalls + 1, TryAdmit(now, turn, allowInflight, true);
            && n in Numbers(Step(h, e).turns.pending)
            && Step(h, e.(saved := false)) == Step(Step(h, e), AbandonCall(n))
  {
    NumbersSnoc(h.turns.pending, Call(turn, h.turns.modelCalls + 1));
  }
}
