/** Stable sorting of positions by key. */
module StableSort {

  ghost predicate Permutation(order: seq<nat>, n: nat) {
    && |order| == n
    && (forall k | 0 <= k < n :: order[k] < n)
    && (forall j, k | 0 <= j < k < n :: order[j] != order[k])
    && (forall p: nat | p < n :: p in order)
  }

  function Pick<T>(s: seq<T>, order: seq<nat>): seq<T>
    requires forall k | 0 <= k < |order| :: order[k] < |s|
  {
    seq(|order|, k requires 0 <= k < |order| => s[order[k]])
  }

  // ---------- comparing keys ----------

  /** What comparing keys has to be: nothing comes both before and after another, and what comes
      between two keys comes after the first or before the second. */
  ghost predicate WeakOrder<K(!new)>(less: (K, K) -> bool) {
    && (forall a, b | less(a, b) :: !less(b, a))
    && (forall a, b, c | less(a, c) :: less(a, b) || less(b, c))
  }

  predicate Precedes<K>(keys: seq<K>, less: (K, K) -> bool, reverse: bool, a: nat, b: nat)
    requires a < |keys| && b < |keys|
  {
    if reverse then less(keys[b], keys[a]) else less(keys[a], keys[b])
  }

  /** Sorted, and equal keys keep their places, also when reversed. */
  ghost predicate InOrder<K>(keys: seq<K>, less: (K, K) -> bool, reverse: bool, a: nat, b: nat) {
    && a < |keys| && b < |keys|
    && (Precedes(keys, less, reverse, a, b) || (!Precedes(keys, less, reverse, b, a) && a < b))
  }

  lemma InOrderTwice<K(!new)>(keys: seq<K>, less: (K, K) -> bool, reverse: bool, a: nat, b: nat, c: nat)
    requires WeakOrder(less)
    requires InOrder(keys, less, reverse, a, b) && InOrder(keys, less, reverse, b, c)
    ensures InOrder(keys, less, reverse, a, c)
  {
    var x, y, z := keys[a], keys[b], keys[c];
    assert less(x, y) ==> less(x, z) || less(z, y);
    assert less(y, z) ==> less(y, x) || less(x, z);
    assert less(z, x) ==> less(z, y) || less(y, x);
    assert less(y, x) ==> less(y, z) || less(z, x);
    assert less(z, y) ==> less(z, x) || less(x, y);
    assert less(x, z) ==> less(x, y) || less(y, z);
  }

  // ---------- insertion sort of the positions ----------

  /** Put index x, the largest so far, behind every index that does not come after it. */
  function PlaceLast<K>(keys: seq<K>, less: (K, K) -> bool, reverse: bool, order: seq<nat>, x: nat): seq<nat>
    requires x < |keys| && forall k | 0 <= k < |order| :: order[k] < |keys|
  {
    if order == [] then [x]
    else
      var n := |order| - 1;
      if Precedes(keys, less, reverse, x, order[n]) then PlaceLast(keys, less, reverse, order[..n], x) + [order[n]]
      else order + [x]
  }

  ghost predicate AllInOrder<K>(keys: seq<K>, less: (K, K) -> bool, reverse: bool, order: seq<nat>) {
    forall j, k | 0 <= j < k < |order| :: InOrder(keys, less, reverse, order[j], order[k])
  }

  /** The order of a stable sort. */
  function StableOrder<K(!new)>(keys: seq<K>, less: (K, K) -> bool, reverse: bool, n: nat): (order: seq<nat>)
    requires n <= |keys|
    ensures Permutation(order, n)
    ensures WeakOrder(less) ==> AllInOrder(keys, less, reverse, order)
  {
    if n == 0 then []
    else
      var before := StableOrder(keys, less, reverse, n - 1);
      PlaceLastStable(keys, less, reverse, before, n - 1);
      PlaceLast(keys, less, reverse, before, n - 1)
  }

  /** The shape of an insertion: one new index between a front and a back. */
  lemma {:induction false} PlaceLastSplits<K>(keys: seq<K>, less: (K, K) -> bool, reverse: bool, order: seq<nat>,
                                              x: nat) returns (i: nat)
    requires x < |keys| && forall k | 0 <= k < |order| :: order[k] < |keys|
    ensures i <= |order| && PlaceLast(keys, less, reverse, order, x) == order[..i] + [x] + order[i..]
    ensures forall k | i <= k < |order| :: Precedes(keys, less, reverse, x, order[k])
    ensures i > 0 ==> !Precedes(keys, less, reverse, x, order[i - 1])
  {
    hide Precedes;
    i := |order|;
    if order != [] {
      var n := |order| - 1;
      if Precedes(keys, less, reverse, x, order[n]) {
        i := PlaceLastSplits(keys, less, reverse, order[..n], x);
        SpliceLast(order, n, i, x);
      } else {
        assert order[..i] == order && order[i..] == [];
      }
    }
  }

  lemma SpliceLast(order: seq<nat>, n: nat, i: nat, x: nat)
    requires i <= n == |order| - 1
    ensures (order[..n][..i] + [x] + order[..n][i..]) + [order[n]] == order[..i] + [x] + order[i..]
    ensures forall k | 0 <= k < n :: order[..n][k] == order[k]
  {
    assert order[..n][..i] == order[..i];
    assert order[..n][i..] + [order[n]] == order[i..];
  }

  lemma PlaceOf(order: seq<nat>, n: nat, p: nat) returns (k: nat)
    requires Permutation(order, n) && p < n
    ensures k < n && order[k] == p
  {
    assert p in order;
    k :| 0 <= k < n && order[k] == p;
  }

  lemma PermutationGrows(front: seq<nat>, back: seq<nat>, x: nat)
    requires Permutation(front + back, x)
    ensures Permutation(front + [x] + back, x + 1)
  {
    var order, placed, i := front + back, front + [x] + back, |front|;
    forall k | 0 <= k < x + 1 ensures placed[k] < x + 1 && (placed[k] == x <==> k == i) {
      assert k == i || placed[k] == order[if k < i then k else k - 1];
    }
    forall j, k | 0 <= j < k < x + 1 ensures placed[j] != placed[k] {
      if j != i && k != i {
        assert placed[j] == order[if j < i then j else j - 1];
        assert placed[k] == order[if k < i then k else k - 1];
      }
    }
    forall p: nat | p < x + 1 ensures p in placed {
      if p < x {
        var k := PlaceOf(order, x, p);
        assert placed[if k < i then k else k + 1] == p;
      } else {
        assert placed[i] == p;
      }
    }
  }

  lemma PlaceLastStable<K(!new)>(keys: seq<K>, less: (K, K) -> bool, reverse: bool, order: seq<nat>, x: nat)
    requires x < |keys| && Permutation(order, x)
    requires WeakOrder(less) ==> AllInOrder(keys, less, reverse, order)
    ensures Permutation(PlaceLast(keys, less, reverse, order, x), x + 1)
    ensures WeakOrder(less) ==> AllInOrder(keys, less, reverse, PlaceLast(keys, less, reverse, order, x))
  {
    hide WeakOrder;
    var i := PlaceLastSplits(keys, less, reverse, order, x);
    assert order == order[..i] + order[i..];
    PermutationGrows(order[..i], order[i..], x);
    if WeakOrder(less) {
      forall k | 0 <= k < i ensures InOrder(keys, less, reverse, order[k], x) {
        if k < i - 1 { InOrderTwice(keys, less, reverse, order[k], order[i - 1], x); }
      }
      OrderedWhenSplit(keys, less, reverse, order, i, x);
    }
  }

  lemma OrderedWhenSplit<K>(keys: seq<K>, less: (K, K) -> bool, reverse: bool, order: seq<nat>, i: nat, x: nat)
    requires i <= |order| && AllInOrder(keys, less, reverse, order)
    requires forall k | 0 <= k < i :: InOrder(keys, less, reverse, order[k], x)
    requires forall k | i <= k < |order| :: InOrder(keys, less, reverse, x, order[k])
    ensures AllInOrder(keys, less, reverse, order[..i] + [x] + order[i..])
  {
    hide InOrder;
  }

  lemma InOrderOneWay<K(!new)>(keys: seq<K>, less: (K, K) -> bool, reverse: bool, a: nat, b: nat)
    requires WeakOrder(less)
    ensures !(InOrder(keys, less, reverse, a, b) && InOrder(keys, less, reverse, b, a))
  {}

  /** There is only one stable order: whatever sorts stably, sorts like this. */
  lemma {:induction false} StableIsUnique<K(!new)>(keys: seq<K>, less: (K, K) -> bool, reverse: bool,
                                                   a: seq<nat>, b: seq<nat>, n: nat, k: nat)
    requires WeakOrder(less) && Permutation(a, n) && Permutation(b, n) && k <= n
    requires AllInOrder(keys, less, reverse, a) && AllInOrder(keys, less, reverse, b)
    ensures a[..k] == b[..k] && (k == n ==> a == b)
    decreases k
  {
    hide WeakOrder, InOrder;
    if k > 0 {
      StableIsUnique(keys, less, reverse, a, b, n, k - 1);
      var x, y := a[k - 1], b[k - 1];
      forall i | 0 <= i < k - 1 ensures b[i] == a[i] && b[i] != x && a[i] != y {
        assert a[..k - 1][i] == b[..k - 1][i];
      }
      if x != y {
        var j := PlaceOf(b, n, x);
        var i := PlaceOf(a, n, y);
        InOrderOneWay(keys, less, reverse, x, y);
      }
      assert a[..k] == a[..k - 1] + [x] && b[..k] == b[..k - 1] + [y];
    }
    assert a[..n] == a && b[..n] == b;
  }

  // ---------- picking by a permutation ----------

  lemma RemoveLargest(order: seq<nat>, n: nat, k: nat)
    requires Permutation(order, n + 1) && k <= n && order[k] == n
    ensures Permutation(order[..k] + order[k + 1..], n)
  {
    var rest := order[..k] + order[k + 1..];
    forall p: nat | p < n ensures p in rest {
      var j := PlaceOf(order, n + 1, p);
      assert rest[if j < k then j else j - 1] == p;
    }
  }

  lemma PickJoin<T>(s: seq<T>, a: seq<nat>, b: seq<nat>)
    requires forall k | 0 <= k < |a + b| :: (a + b)[k] < |s|
    requires forall k | 0 <= k < |a| :: a[k] < |s|
    requires forall k | 0 <= k < |b| :: b[k] < |s|
    ensures Pick(s, a + b) == Pick(s, a) + Pick(s, b)
  {}

  lemma PickPrefix<T>(s: seq<T>, n: nat, a: seq<nat>)
    requires n <= |s| && forall k | 0 <= k < |a| :: a[k] < n
    ensures Pick(s[..n], a) == Pick(s, a)
  {}

  lemma PickAround<T>(s: seq<T>, order: seq<nat>, n: nat, k: nat)
    requires |s| == n + 1 && Permutation(order, n + 1) && k <= n && order[k] == n
    ensures Permutation(order[..k] + order[k + 1..], n)
    ensures Pick(s[..n], order[..k] + order[k + 1..]) == Pick(s, order[..k]) + Pick(s, order[k + 1..])
    ensures Pick(s, order) == Pick(s, order[..k]) + [s[n]] + Pick(s, order[k + 1..])
  {
    RemoveLargest(order, n, k);
    PickPrefix(s, n, order[..k] + order[k + 1..]);
    PickJoin(s, order[..k], order[k + 1..]);
  }
}
