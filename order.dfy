/**
 * Orderings used for sorting: Ruby's Array#<=> on integer tuples
 * (lexicographic, a proper prefix sorting first), String#<=> (byte order,
 * which for UTF-8 text is code-point order), a sort that returns the
 * sorted order of a list of keys, and the lane allocation that gives the
 * items of a sorted group the distances 20, 40, ... from a box side.
 */
module Order {

  /** A strict order: irreflexive and transitive. */
  ghost predicate StrictOrder<K(!new)>(less: (K, K) -> bool)
  {
    && (forall a :: !less(a, a))
    && (forall a, b, c :: less(a, b) && less(b, c) ==> less(a, c))
  }

  /** `order` lists each index below n exactly once. */
  ghost predicate IsPermutationOfRange(order: seq<nat>, n: nat)
  {
    && |order| == n
    && (forall r :: 0 <= r < n ==> order[r] < n)
    && (forall r, s :: 0 <= r < s < n ==> order[r] != order[s])
    && (forall i :: 0 <= i < n ==> i in order)
  }

  /** Listing the keys in `order` never puts a key after one it is strictly less than. */
  ghost predicate SortedBy<K>(keys: seq<K>, less: (K, K) -> bool, order: seq<nat>)
  {
    forall r, s :: 0 <= r < s < |order| && order[r] < |keys| && order[s] < |keys| ==>
      !less(keys[order[s]], keys[order[r]])
  }

  // ---------------------------------------------------------------------
  // Ruby Array#<=> on integer tuples

  predicate LexLess(a: seq<int>, b: seq<int>)
    decreases |a|
  {
    |b| > 0 && (|a| == 0 || a[0] < b[0] || (a[0] == b[0] && LexLess(a[1..], b[1..])))
  }

  lemma {:induction false} LexLessIrreflexive(a: seq<int>)
    ensures !LexLess(a, a)
    decreases |a|
  {
    if |a| > 0 {
      LexLessIrreflexive(a[1..]);
    }
  }

  lemma {:induction false} LexLessTransitive(a: seq<int>, b: seq<int>, c: seq<int>)
    requires LexLess(a, b) && LexLess(b, c)
    ensures LexLess(a, c)
    decreases |a|
  {
    if |a| > 0 && a[0] == b[0] && b[0] == c[0] {
      LexLessTransitive(a[1..], b[1..], c[1..]);
    }
  }

  /** Any two tuples are equal or ordered one way: the order is total. */
  lemma {:induction false} LexTrichotomy(a: seq<int>, b: seq<int>)
    ensures a == b || LexLess(a, b) || LexLess(b, a)
    decreases |a|
  {
    if |a| > 0 && |b| > 0 && a[0] == b[0] {
      LexTrichotomy(a[1..], b[1..]);
      if a[1..] == b[1..] {
        assert a == [a[0]] + a[1..] && b == [b[0]] + b[1..];
      }
    }
  }

  lemma LexIsStrictOrder()
    ensures StrictOrder(LexLess)
  {
    forall a: seq<int>
      ensures !LexLess(a, a)
    {
      LexLessIrreflexive(a);
    }
    forall a: seq<int>, b: seq<int>, c: seq<int> | LexLess(a, b) && LexLess(b, c)
      ensures LexLess(a, c)
    {
      LexLessTransitive(a, b, c);
    }
  }

  /** A tuple that is a proper prefix of another sorts first: [1, 2] < [1, 2, 3]. */
  lemma {:induction false} PrefixSortsFirst(a: seq<int>, rest: seq<int>)
    requires |rest| > 0
    ensures LexLess(a, a + rest)
    decreases |a|
  {
    if |a| > 0 {
      assert (a + rest)[1..] == a[1..] + rest;
      PrefixSortsFirst(a[1..], rest);
    }
  }

  // ---------------------------------------------------------------------
  // Ruby String#<=>

  function Codes(s: string): (r: seq<int>)
    ensures |r| == |s| && forall i :: 0 <= i < |s| ==> r[i] == s[i] as int
  {
    seq(|s|, i requires 0 <= i < |s| => s[i] as int)
  }

  predicate StrLess(a: string, b: string)
  {
    LexLess(Codes(a), Codes(b))
  }

  lemma CodesInjective(a: string, b: string)
    requires Codes(a) == Codes(b)
    ensures a == b
  {
    assert |a| == |b|;
    forall i | 0 <= i < |a|
      ensures a[i] == b[i]
    {
      assert Codes(a)[i] == Codes(b)[i];
    }
  }

  /** Two strings are equal or ordered one way. */
  lemma StrTrichotomy(a: string, b: string)
    ensures a == b || StrLess(a, b) || StrLess(b, a)
  {
    LexTrichotomy(Codes(a), Codes(b));
    if Codes(a) == Codes(b) {
      CodesInjective(a, b);
    }
  }

  // ---------------------------------------------------------------------
  // Sorting and lane allocation

  /** Inserting a fresh index into a permutation of 0..i-1 gives a permutation of 0..i. */
  lemma {:induction false} InsertExtendsRange(order: seq<nat>, i: nat, p: nat)
    requires IsPermutationOfRange(order, i) && p <= i
    ensures IsPermutationOfRange(order[..p] + [i] + order[p..], i + 1)
  {
    var next := order[..p] + [i] + order[p..];
    assert forall r :: 0 <= r < p ==> next[r] == order[r];
    assert next[p] == i;
    assert forall r :: p < r <= i ==> next[r] == order[r - 1];
    forall j | 0 <= j < i + 1
      ensures j in next
    {
      if j < i {
        assert j in order;
        var r :| 0 <= r < |order| && order[r] == j;
        if r < p {
          assert next[r] == j;
        } else {
          assert next[r + 1] == j;
        }
      } else {
        assert next[p] == j;
      }
    }
  }

  /**
   * Inserting index i just before the first listed key that keys[i] is
   * strictly less than keeps the listing sorted.
   */
  lemma {:induction false} InsertKeepsSorted<K(!new)>(keys: seq<K>, less: (K, K) -> bool, order: seq<nat>, i: nat, p: nat)
    requires StrictOrder(less)
    requires i < |keys| && p <= |order| && forall r :: 0 <= r < |order| ==> order[r] < |keys|
    requires SortedBy(keys, less, order)
    requires forall r :: 0 <= r < p ==> !less(keys[i], keys[order[r]])
    requires p < |order| ==> less(keys[i], keys[order[p]])
    ensures SortedBy(keys, less, order[..p] + [i] + order[p..])
  {
    var next := order[..p] + [i] + order[p..];
    assert forall q :: p <= q < |order| ==> !less(keys[order[q]], keys[i]);
    forall r, s | 0 <= r < s < |next| && next[r] < |keys| && next[s] < |keys|
      ensures !less(keys[next[s]], keys[next[r]])
    {
      if r < p {
        if s < p {
          assert next[r] == order[r] && next[s] == order[s];
        } else if s == p {
          assert next[r] == order[r];
        } else {
          assert next[r] == order[r] && next[s] == order[s - 1];
        }
      } else if r == p {
        assert next[s] == order[s - 1];
      } else {
        assert next[r] == order[r - 1] && next[s] == order[s - 1];
      }
    }
  }

  /**
   * Sorts positions 0..|keys|-1 by their keys.  Ruby's sort_by is not
   * stable, so nothing is promised about the order of equal keys.
   */
  method SortIndices<K(!new)>(keys: seq<K>, less: (K, K) -> bool) returns (order: seq<nat>)
    requires StrictOrder(less)
    ensures IsPermutationOfRange(order, |keys|)
    ensures SortedBy(keys, less, order)
  {
    order := [];
    var i := 0;
    while i < |keys|
      invariant 0 <= i <= |keys|
      invariant IsPermutationOfRange(order, i)
      invariant SortedBy(keys, less, order)
    {
      var p := 0;
      while p < |order| && !less(keys[i], keys[order[p]])
        invariant 0 <= p <= |order|
        invariant forall r :: 0 <= r < p ==> !less(keys[i], keys[order[r]])
      {
        p := p + 1;
      }
      InsertKeepsSorted(keys, less, order, i, p);
      InsertExtendsRange(order, i, p);
      order := order[..p] + [i] + order[p..];
      i := i + 1;
    }
  }

  /** Every index below n is listed by a permutation of the range at some position. */
  lemma PositionOf(order: seq<nat>, n: nat, i: nat) returns (q: nat)
    requires IsPermutationOfRange(order, n) && i < n
    ensures q < n && order[q] == i
  {
    assert i in order;
    q :| 0 <= q < |order| && order[q] == i;
  }

  /**
   * When the item at the q-th place of a sorted permutation gets lane
   * 20 + 20 * q, the lanes are the multiples of 20 from 20 to 20 * n, each
   * used once, and a strictly smaller key gets a strictly smaller lane.
   */
  lemma LanesOfSortedOrder<K(!new)>(keys: seq<K>, less: (K, K) -> bool, order: seq<nat>, lanes: seq<int>)
    requires StrictOrder(less)
    requires IsPermutationOfRange(order, |keys|) && SortedBy(keys, less, order)
    requires |lanes| == |keys|
    requires forall q :: 0 <= q < |keys| ==> lanes[order[q]] == 20 + 20 * q
    ensures forall i :: 0 <= i < |keys| ==> 20 <= lanes[i] <= 20 * |keys| && lanes[i] % 20 == 0
    ensures forall k :: 0 <= k < |keys| ==> 20 + 20 * k in lanes
    ensures forall i, j :: 0 <= i < |keys| && 0 <= j < |keys| && i != j ==> lanes[i] != lanes[j]
    ensures forall i, j :: 0 <= i < |keys| && 0 <= j < |keys| && less(keys[i], keys[j]) ==> lanes[i] < lanes[j]
  {
    LanesInRange(order, lanes);
    LanesCover(order, lanes);
    LanesDistinct(order, lanes);
    LanesFollowKeys(keys, less, order, lanes);
  }

  /** Each lane is a multiple of 20 between 20 and 20 * n. */
  lemma LanesInRange(order: seq<nat>, lanes: seq<int>)
    requires IsPermutationOfRange(order, |lanes|)
    requires forall q :: 0 <= q < |lanes| ==> lanes[order[q]] == 20 + 20 * q
    ensures forall i :: 0 <= i < |lanes| ==> 20 <= lanes[i] <= 20 * |lanes| && lanes[i] % 20 == 0
  {
    forall i | 0 <= i < |lanes|
      ensures 20 <= lanes[i] <= 20 * |lanes| && lanes[i] % 20 == 0
    {
      var q := PositionOf(order, |lanes|, i);
      MultipleOfTwenty(q + 1);
    }
  }

  lemma MultipleOfTwenty(m: int)
    ensures (20 * m) % 20 == 0
  {
  }

  /** Every multiple of 20 from 20 to 20 * n is some item's lane. */
  lemma LanesCover(order: seq<nat>, lanes: seq<int>)
    requires IsPermutationOfRange(order, |lanes|)
    requires forall q :: 0 <= q < |lanes| ==> lanes[order[q]] == 20 + 20 * q
    ensures forall k :: 0 <= k < |lanes| ==> 20 + 20 * k in lanes
  {
    forall k | 0 <= k < |lanes|
      ensures 20 + 20 * k in lanes
    {
      assert lanes[order[k]] == 20 + 20 * k;
    }
  }

  /** No two items share a lane. */
  lemma LanesDistinct(order: seq<nat>, lanes: seq<int>)
    requires IsPermutationOfRange(order, |lanes|)
    requires forall q :: 0 <= q < |lanes| ==> lanes[order[q]] == 20 + 20 * q
    ensures forall i, j :: 0 <= i < |lanes| && 0 <= j < |lanes| && i != j ==> lanes[i] != lanes[j]
  {
    forall i, j | 0 <= i < |lanes| && 0 <= j < |lanes| && i != j
      ensures lanes[i] != lanes[j]
    {
      var qi := PositionOf(order, |lanes|, i);
      var qj := PositionOf(order, |lanes|, j);
    }
  }

  /** A strictly smaller key gets a strictly smaller lane. */
  lemma LanesFollowKeys<K(!new)>(keys: seq<K>, less: (K, K) -> bool, order: seq<nat>, lanes: seq<int>)
    requires StrictOrder(less)
    requires IsPermutationOfRange(order, |keys|) && SortedBy(keys, less, order)
    requires |lanes| == |keys|
    requires forall q :: 0 <= q < |keys| ==> lanes[order[q]] == 20 + 20 * q
    ensures forall i, j :: 0 <= i < |keys| && 0 <= j < |keys| && less(keys[i], keys[j]) ==> lanes[i] < lanes[j]
  {
    forall i, j | 0 <= i < |keys| && 0 <= j < |keys| && less(keys[i], keys[j])
      ensures lanes[i] < lanes[j]
    {
      var qi := PositionOf(order, |keys|, i);
      var qj := PositionOf(order, |keys|, j);
    }
  }

  /**
   * Lane allocation of one clearance group (Side#layout): the items, sorted
   * by their keys, get the distances 20, 40, ..., 20 * n in that order.
   */
  method AssignLanes<K(!new)>(keys: seq<K>, less: (K, K) -> bool) returns (lanes: seq<int>)
    requires StrictOrder(less)
    ensures |lanes| == |keys|
    ensures forall i :: 0 <= i < |keys| ==> 20 <= lanes[i] <= 20 * |keys| && lanes[i] % 20 == 0
    ensures forall k :: 0 <= k < |keys| ==> 20 + 20 * k in lanes
    ensures forall i, j :: 0 <= i < |keys| && 0 <= j < |keys| && i != j ==> lanes[i] != lanes[j]
    ensures forall i, j :: 0 <= i < |keys| && 0 <= j < |keys| && less(keys[i], keys[j]) ==> lanes[i] < lanes[j]
  {
    var order := SortIndices(keys, less);
    var n := |keys|;
    lanes := seq(n, _ => 0);
    var r := 0;
    while r < n
      invariant 0 <= r <= n
      invariant |lanes| == n
      invariant forall q :: 0 <= q < r ==> lanes[order[q]] == 20 + 20 * q
    {
      lanes := lanes[order[r] := 20 + 20 * r];
      r := r + 1;
    }
    LanesOfSortedOrder(keys, less, order, lanes);
  }
}
