/** Slices of a list: which positions a slice names, and what assigning to them or deleting them
    does to a plain list. */
module Slices {
  import opened ChunkTree

  /** A slice as written. */
  datatype Slice = Slice(start: Option<int>, stop: Option<int>, step: Option<int>)
  {
    function Step(): int { step.GetOr(1) }

    /** An end counted from the back when negative, and clamped to the list. */
    function Clamped(x: int, length: nat): int {
      var i := if x < 0 then x + length else x;
      if i < 0 then (if Step() < 0 then -1 else 0)
      else if i >= length then (if Step() < 0 then length - 1 else length)
      else i
    }

    function Start(length: nat): int {
      match start
      case Some(x) => Clamped(x, length)
      case None => if Step() < 0 then length - 1 else 0
    }

    function Stop(length: nat): int {
      match stop
      case Some(x) => Clamped(x, length)
      case None => if Step() < 0 then -1 else length
    }

    function Positions(length: nat): seq<int>
      requires Step() != 0
    {
      Range(Start(length), Stop(length), Step())
    }
  }

  predicate Past(i: int, stop: int, step: int) {
    if step > 0 then i >= stop else i <= stop
  }

  function Range(i: int, stop: int, step: int): seq<int>
    requires step != 0
    decreases if Past(i, stop, step) then 0 else if step > 0 then stop - i else i - stop
  {
    if Past(i, stop, step) then [] else [i] + Range(i + step, stop, step)
  }

  /** The k-th position is k steps from the start, short of the stop. */
  lemma {:induction false} RangeAt(i: int, stop: int, step: int, k: nat)
    requires step != 0 && k < |Range(i, stop, step)|
    ensures Range(i, stop, step)[k] == i + k * step
    ensures if step > 0 then i <= Range(i, stop, step)[k] < stop else stop < Range(i, stop, step)[k] <= i
    decreases k
  {
    if k > 0 {
      RangeAt(i + step, stop, step, k - 1);
      assert (k - 1) * step + step == k * step;
    }
  }

  /** Every position of a slice is in the list, and they run strictly up or strictly down. */
  lemma PositionsInside(s: Slice, length: nat)
    requires s.Step() != 0
    ensures var ps := s.Positions(length);
            && (forall k | 0 <= k < |ps| :: 0 <= ps[k] < length)
            && (forall j, k | 0 <= j < k < |ps| :: if s.Step() > 0 then ps[j] < ps[k] else ps[j] > ps[k])
  {
    var ps, start, stop, step := s.Positions(length), s.Start(length), s.Stop(length), s.Step();
    forall k | 0 <= k < |ps| ensures 0 <= ps[k] < length { RangeAt(start, stop, step, k); }
    forall j, k | 0 <= j < k < |ps| ensures if step > 0 then ps[j] < ps[k] else ps[j] > ps[k] {
      RangeAt(start, stop, step, j);
      RangeAt(start, stop, step, k);
      FartherIsFarther(j, k, step);
    }
  }

  lemma FartherIsFarther(j: nat, k: nat, step: int)
    requires j < k
    ensures step > 0 ==> j * step < k * step
    ensures step < 0 ==> j * step > k * step
  {
    assert k * step == j * step + (k - j) * step;
  }

  lemma OneRemainder(q: int, r: int, q': int, r': int, d: nat)
    requires q * d + r == q' * d + r' && 0 <= r < d && 0 <= r' < d
    ensures r == r'
  {
    if q > q' { MulAtLeast(q - q', d); }
    if q < q' { MulAtLeast(q' - q, d); }
    assert (q - q') * d == q * d - q' * d && (q' - q) * d == q' * d - q * d;
  }

  lemma ModStep(x: nat, d: nat)
    requires d > 0
    ensures x % d == 0 <==> x == 0 || (x >= d && (x - d) % d == 0)
  {
    if x >= d {
      var q, q' := x / d, (x - d) / d;
      assert x == q * d + x % d && x - d == q' * d + (x - d) % d;
      assert (q' + 1) * d == q' * d + d;
      OneRemainder(q, x % d, q' + 1, (x - d) % d, d);
    }
  }

  lemma {:induction false} RangeMembers(i: int, stop: int, step: int, p: int)
    requires step != 0
    ensures step > 0 ==> (p in Range(i, stop, step) <==> i <= p < stop && (p - i) % step == 0)
    ensures step < 0 ==> (p in Range(i, stop, step) <==> stop < p <= i && (i - p) % -step == 0)
    decreases if Past(i, stop, step) then 0 else if step > 0 then stop - i else i - stop
  {
    if !Past(i, stop, step) {
      RangeMembers(i + step, stop, step, p);
      if step > 0 && p >= i { ModStep(p - i, step); }
      if step < 0 && p <= i { ModStep(i - p, -step); }
    }
  }

  /** Whether a slice as written names a position: ends count from the back when negative, a missing one
      leaves that side open, and steps are counted from the first position inside the list. */
  predicate Names(s: Slice, length: nat, p: int) {
    var step := if s.step.None? then 1 else s.step.value;
    var from := if s.start.None? then (if step > 0 then 0 else length - 1)
                else if s.start.value < 0 then s.start.value + length else s.start.value;
    var to := if s.stop.None? then (if step > 0 then length else -1)
              else if s.stop.value < 0 then s.stop.value + length else s.stop.value;
    && step != 0 && 0 <= p < length
    && if step > 0 then from <= p < to && (p - if from < 0 then 0 else from) % step == 0
       else to < p <= from && ((if from < length then from else length - 1) - p) % -step == 0
  }

  /** A slice names exactly these positions; `PositionsInside` says in which order. */
  lemma PositionsAre(s: Slice, length: nat)
    requires s.Step() != 0
    ensures forall p :: p in s.Positions(length) <==> Names(s, length, p)
  {
    forall p ensures p in s.Positions(length) <==> Names(s, length, p) {
      RangeMembers(s.Start(length), s.Stop(length), s.Step(), p);
    }
  }

  // ---------- deleting ----------

  function Members(ps: seq<int>): set<int> {
    set p | p in ps
  }

  /** The positions of a slice from the highest to the lowest. */
  function Downward(ps: seq<int>, step: int): seq<int> {
    if step > 0 then seq(|ps|, m requires 0 <= m < |ps| => ps[|ps| - 1 - m]) else ps
  }

  lemma DownwardFalls(ps: seq<int>, step: int)
    requires forall j, k | 0 <= j < k < |ps| :: if step > 0 then ps[j] < ps[k] else ps[j] > ps[k]
    ensures var down := Downward(ps, step);
            && Members(down) == Members(ps) && |down| == |ps|
            && (forall j, k | 0 <= j < k < |down| :: down[j] > down[k])
            && (forall k | 0 <= k < |down| :: down[k] in ps)
  {
    var down := Downward(ps, step);
    forall p | p in ps ensures p in down {
      var k :| 0 <= k < |ps| && ps[k] == p;
      assert down[if step > 0 then |ps| - 1 - k else k] == p;
    }
  }

  lemma OneMoreGone(down: seq<int>, k: nat)
    requires k < |down| && forall i, j | 0 <= i < j < |down| :: down[i] > down[j]
    ensures Members(down[..k + 1]) == Members(down[..k]) + {down[k]}
    ensures forall q <- Members(down[..k]) :: q > down[k]
  {
    assert down[..k + 1] == down[..k] + [down[k]];
  }

  /** The elements whose positions are not gone. */
  function Others<T>(s: seq<T>, gone: set<int>): seq<T> {
    if s == [] then []
    else Others(s[..|s| - 1], gone) + if |s| - 1 in gone then [] else [s[|s| - 1]]
  }

  lemma {:induction false} NoneGone<T>(s: seq<T>, gone: set<int>)
    requires forall p <- gone :: p >= |s|
    ensures Others(s, gone) == s
  {
    if s != [] { NoneGone(s[..|s| - 1], gone); }
  }

  lemma {:induction false} SameGone<T>(s: seq<T>, a: set<int>, b: set<int>)
    requires forall p | 0 <= p < |s| :: p in a <==> p in b
    ensures Others(s, a) == Others(s, b)
  {
    if s != [] { SameGone(s[..|s| - 1], a, b); }
  }

  /** Deleting from the back: a deletion in front of all earlier ones hits the same element. */
  lemma {:induction false} DeleteNext<T>(s: seq<T>, gone: set<int>, p: nat)
    requires p < |s| && forall q <- gone :: q > p
    ensures var rest := Others(s, gone);
            p < |rest| && rest[p] == s[p] && rest[..p] + rest[p + 1..] == Others(s, gone + {p})
  {
    hide Others;
    var n := |s| - 1;
    var front := s[..n];
    OthersSnoc(s, gone);
    OthersSnoc(s, gone + {p});
    if p == n {
      NoneGone(front, gone);
      NoneGone(front, gone + {p});
      assert front + [] == front;
    } else {
      DeleteNext(front, gone, p);
      CutBefore(Others(front, gone), p, if n in gone then [] else [s[n]]);
    }
  }

  lemma OthersSnoc<T>(s: seq<T>, gone: set<int>)
    requires s != []
    ensures var n := |s| - 1;
            Others(s, gone) == Others(s[..n], gone) + if n in gone then [] else [s[n]]
  {}

  lemma CutBefore<T>(rest: seq<T>, p: nat, last: seq<T>)
    requires p < |rest|
    ensures (rest + last)[p] == rest[p]
    ensures (rest + last)[..p] + (rest + last)[p + 1..] == (rest[..p] + rest[p + 1..]) + last
  {}

  /** Deleting a contiguous run leaves what is before it and what is after it. */
  lemma {:induction false} OthersOfRun<T>(s: seq<T>, gone: set<int>, lo: nat, hi: nat)
    requires lo <= hi <= |s| && forall p | 0 <= p < |s| :: p in gone <==> lo <= p < hi
    ensures Others(s, gone) == s[..lo] + s[hi..]
    decreases |s|
  {
    if hi < |s| {
      OthersOfRun(s[..|s| - 1], gone, lo, hi);
      assert s[..lo] + s[hi..|s| - 1] + [s[|s| - 1]] == s[..lo] + s[hi..];
    } else if lo < hi {
      OthersOfRun(s[..|s| - 1], gone, lo, hi - 1);
    } else {
      NoneGoneInside(s, gone);
    }
  }

  lemma NoneGoneInside<T>(s: seq<T>, gone: set<int>)
    requires forall p | 0 <= p < |s| :: p !in gone
    ensures Others(s, gone) == s
  {
    NoneGone(s, {});
    SameGone(s, gone, {});
  }

  // ---------- assigning ----------

  /** Assign the first n values, one position after the other. */
  function Assigned<T>(s: seq<T>, ps: seq<int>, values: seq<T>, n: nat): (r: seq<T>)
    requires n <= |ps| == |values| && forall k | 0 <= k < |ps| :: 0 <= ps[k] < |s|
    ensures |r| == |s|
  {
    if n == 0 then s else Assigned(s, ps, values, n - 1)[ps[n - 1] := values[n - 1]]
  }

  /** Each position holds its value, all other elements are untouched. */
  lemma {:induction false} AssignedAt<T>(s: seq<T>, ps: seq<int>, values: seq<T>, n: nat)
    requires n <= |ps| == |values| && forall k | 0 <= k < |ps| :: 0 <= ps[k] < |s|
    requires forall j, k | 0 <= j < k < |ps| :: ps[j] != ps[k]
    ensures forall k | 0 <= k < n :: Assigned(s, ps, values, n)[ps[k]] == values[k]
    ensures forall p | 0 <= p < |s| && p !in ps[..n] :: Assigned(s, ps, values, n)[p] == s[p]
  {
    if n > 0 {
      AssignedAt(s, ps, values, n - 1);
      assert ps[..n] == ps[..n - 1] + [ps[n - 1]];
    }
  }

  // ---------- contiguous slices ----------

  /** Where a slice of step one ends; not before its start. */
  function RunEnd(s: Slice, length: nat): int {
    if s.Stop(length) < s.Start(length) then s.Start(length) else s.Stop(length)
  }

  lemma {:induction false} RangeIsRun(i: int, stop: int)
    ensures |Range(i, stop, 1)| == (if stop < i then 0 else stop - i)
    ensures forall k | 0 <= k < |Range(i, stop, 1)| :: Range(i, stop, 1)[k] == i + k
    decreases stop - i
  {
    if i < stop { RangeIsRun(i + 1, stop); }
  }

  /** A slice of step one names a contiguous run. */
  lemma RunPositions(s: Slice, length: nat)
    requires s.Step() == 1
    ensures var ps, lo, hi := s.Positions(length), s.Start(length), RunEnd(s, length);
            && 0 <= lo <= hi <= length && |ps| == hi - lo
            && (forall k | 0 <= k < |ps| :: ps[k] == lo + k)
            && (forall p :: p in ps <==> lo <= p < hi)
  {
    RangeIsRun(s.Start(length), s.Stop(length));
    var ps, lo := s.Positions(length), s.Start(length);
    forall p | lo <= p < RunEnd(s, length) ensures p in ps { assert ps[p - lo] == p; }
  }

  /** Where the run begins, also when it is empty and values are only put in. */
  lemma RunStart(s: Slice, length: nat)
    requires s.Step() == 1
    ensures s.Start(length)
            == if s.start.None? then 0
               else if s.start.value >= length then length
               else if s.start.value >= 0 then s.start.value
               else if s.start.value + length > 0 then s.start.value + length
               else 0
  {}

  lemma {:induction false} AssignedRun<T>(s: seq<T>, ps: seq<int>, values: seq<T>, lo: nat, n: nat)
    requires n <= |ps| == |values| && lo + |ps| <= |s| && forall k | 0 <= k < |ps| :: ps[k] == lo + k
    ensures Assigned(s, ps, values, n) == s[..lo] + values[..n] + s[lo + n..]
  {
    if n > 0 {
      AssignedRun(s, ps, values, lo, n - 1);
      assert values[..n] == values[..n - 1] + [values[n - 1]];
    } else {
      assert s[..lo] + values[..0] + s[lo..] == s;
    }
  }

  lemma CutAround<T>(s: seq<T>, lo: nat, hi: nat)
    requires lo <= hi <= |s|
    ensures (s[..lo] + s[hi..])[..lo] == s[..lo] && (s[..lo] + s[hi..])[lo..] == s[hi..]
  {}

  lemma MembersOfRun(ps: seq<int>, lo: int, hi: int)
    requires forall p :: p in ps <==> lo <= p < hi
    ensures forall p :: p in Members(ps) <==> lo <= p < hi
  {}
}
