/**
 * The insertion-ordered collection of the renderer (ArraySet).  `add`
 * appends only absent items while `union` appends everything; `get` finds
 * the first match or creates and adds an item; `delete` removes every equal
 * item, on a copy or in place; `before` and `after` split the list around
 * the first occurrence of an item.
 */
module ArraySets {
  import opened Wrappers
  import Order

  /** No item occurs twice. */
  ghost predicate NoDuplicates<T>(s: seq<T>)
  {
    forall i, j :: 0 <= i < j < |s| ==> s[i] != s[j]
  }

  /** `add`: the item is appended unless an equal one is already present. */
  function Added<T(==)>(s: seq<T>, x: T): (r: seq<T>)
  {
    if x in s then s else s + [x]
  }

  /** Adding keeps the list free of duplicates, contains the item, and keeps everything else in place. */
  lemma AddedKeepsNoDuplicates<T>(s: seq<T>, x: T)
    requires NoDuplicates(s)
    ensures NoDuplicates(Added(s, x))
    ensures x in Added(s, x) && s <= Added(s, x) && |Added(s, x)| <= |s| + 1
    ensures forall y :: y in Added(s, x) <==> y in s || y == x
  {
  }

  /** Adding twice is adding once. */
  lemma AddedIdempotent<T>(s: seq<T>, x: T)
    ensures Added(Added(s, x), x) == Added(s, x)
  {
  }

  /** `Array#delete`: every item equal to x is removed, the others keep their order. */
  function Without<T(==)>(s: seq<T>, x: T): (r: seq<T>)
  {
    if s == [] then []
    else if s[0] == x then Without(s[1..], x)
    else [s[0]] + Without(s[1..], x)
  }

  /** After a delete the item is gone, every other item keeps its number of occurrences. */
  lemma {:induction false} WithoutRemovesAll<T>(s: seq<T>, x: T)
    ensures x !in Without(s, x)
    ensures forall y :: y != x ==> multiset(Without(s, x))[y] == multiset(s)[y]
    ensures |Without(s, x)| == |s| - multiset(s)[x]
  {
    if s != [] {
      WithoutRemovesAll(s[1..], x);
      assert s == [s[0]] + s[1..];
    }
  }

  /** Deleting an absent item changes nothing. */
  lemma {:induction false} WithoutAbsent<T>(s: seq<T>, x: T)
    requires x !in s
    ensures Without(s, x) == s
  {
    if s != [] {
      WithoutAbsent(s[1..], x);
    }
  }

  /** `before(p)`: the items up to, not including, the first p; all of them when p is absent. */
  function Before<T(==)>(s: seq<T>, p: T): (r: seq<T>)
  {
    if s == [] || s[0] == p then [] else [s[0]] + Before(s[1..], p)
  }

  /**
   * `after(p)`: the items strictly after the first p.  When p is absent the
   * Ruby slice is nil, which is None here.
   */
  function After<T(==)>(s: seq<T>, p: T): (r: Option<seq<T>>)
  {
    if s == [] then None
    else if s[0] == p then Some(s[1..])
    else After(s[1..], p)
  }

  /** `before` is the longest prefix without p: a prefix that holds no p, followed by p or by nothing. */
  lemma {:induction false} BeforeIsLongestPrefix<T>(s: seq<T>, p: T)
    ensures Before(s, p) <= s && p !in Before(s, p)
    ensures |Before(s, p)| < |s| ==> s[|Before(s, p)|] == p
    ensures p !in s ==> Before(s, p) == s
  {
    if s != [] && s[0] != p {
      BeforeIsLongestPrefix(s[1..], p);
      assert s == [s[0]] + s[1..];
    }
  }

  /** Around a present item, before, the item and after give back the whole list. */
  lemma {:induction false} BeforeAfterSplit<T>(s: seq<T>, p: T)
    ensures After(s, p).Some? <==> p in s
    ensures p in s ==> Before(s, p) + [p] + After(s, p).value == s
  {
    if s != [] {
      if s[0] != p {
        BeforeAfterSplit(s[1..], p);
        assert s == [s[0]] + s[1..];
      } else {
        assert s == [p] + s[1..];
      }
    }
  }

  /** `select`: the matching items in their original order. */
  function Filter<T>(s: seq<T>, keep: T -> bool): (r: seq<T>)
  {
    if s == [] then []
    else if keep(s[0]) then [s[0]] + Filter(s[1..], keep)
    else Filter(s[1..], keep)
  }

  /**
   * `partition`: the matching and the non-matching items, each in original
   * order, together holding every item exactly as often as the list does.
   */
  lemma {:induction false} FilterPartitions<T>(s: seq<T>, keep: T -> bool)
    ensures forall x :: x in Filter(s, keep) <==> x in s && keep(x)
    ensures |Filter(s, keep)| + |Filter(s, x => !keep(x))| == |s|
    ensures multiset(Filter(s, keep)) + multiset(Filter(s, x => !keep(x))) == multiset(s)
  {
    if s != [] {
      FilterPartitions(s[1..], keep);
      assert s == [s[0]] + s[1..];
    }
  }

  /** The position of the first matching item, if any. */
  function FirstMatch<T>(s: seq<T>, pred: T -> bool): (r: Option<nat>)
    ensures r.Some? ==> r.value < |s| && pred(s[r.value])
  {
    if s == [] then None
    else if pred(s[0]) then Some(0)
    else match FirstMatch(s[1..], pred)
      case None => None
      case Some(k) => Some(k + 1)
  }

  /** FirstMatch finds a matching item with no match before it, or reports that none matches. */
  lemma {:induction false} FirstMatchIsFirst<T>(s: seq<T>, pred: T -> bool)
    ensures FirstMatch(s, pred).None? <==> forall i :: 0 <= i < |s| ==> !pred(s[i])
    ensures FirstMatch(s, pred).Some? ==>
      var k := FirstMatch(s, pred).value;
      k < |s| && pred(s[k]) && forall i :: 0 <= i < k ==> !pred(s[i])
  {
    if s != [] {
      FirstMatchIsFirst(s[1..], pred);
      if !pred(s[0]) {
        forall i | 0 < i < |s|
          ensures s[i] == s[1..][i - 1]
        {
        }
      }
    }
  }

  class ArraySet<T(==)> {
    var items: seq<T>

    constructor (items: seq<T>)
      ensures this.items == items
    {
      this.items := items;
    }

    /** `add` / `<<`: appends the item unless it is present. */
    method Add(x: T)
      modifies this
      ensures items == Added(old(items), x)
    {
      if x !in items {
        items := items + [x];
      }
    }

    /** `union!`: appends every item of the other list, present or not. */
    method UnionInPlace(other: seq<T>)
      modifies this
      ensures items == old(items) + other
    {
      var i := 0;
      while i < |other|
        invariant 0 <= i <= |other|
        invariant items == old(items) + other[..i]
      {
        items := items + [other[i]];
        i := i + 1;
      }
      assert other[..i] == other;
    }

    /** `union` / `+`: a new set holding the receiver's items followed by all of the other's. */
    method Union(other: seq<T>) returns (r: ArraySet<T>)
      ensures fresh(r) && r.items == items + other
    {
      r := new ArraySet(items);
      r.UnionInPlace(other);
    }

    /**
     * `get`: the first item that matches.  On a miss, with a block the
     * created item is added and returned; without one nothing changes and
     * the answer is nil.
     */
    method Get(pred: T -> bool, create: Option<T>) returns (r: Option<T>)
      modifies this
      ensures FirstMatch(old(items), pred).Some? ==>
        r == Some(old(items)[FirstMatch(old(items), pred).value]) && items == old(items)
      ensures FirstMatch(old(items), pred).None? && create.Some? ==>
        r == create && items == Added(old(items), create.value)
      ensures FirstMatch(old(items), pred).None? && create.None? ==>
        r == None && items == old(items)
    {
      var i := 0;
      while i < |items| && !pred(items[i])
        invariant 0 <= i <= |items|
        invariant forall j :: 0 <= j < i ==> !pred(items[j])
      {
        i := i + 1;
      }
      FirstMatchIsFirst(items, pred);
      if i < |items| {
        r := Some(items[i]);
      } else {
        r := create;
        if create.Some? {
          Add(create.value);
        }
      }
    }

    /** `delete`: a copy without any item equal to x; the receiver is unchanged. */
    method Delete(x: T) returns (r: ArraySet<T>)
      ensures fresh(r) && r.items == Without(items, x)
    {
      r := new ArraySet(items);
      r.DeleteInPlace(x);
    }

    /** `delete!`: removes every item equal to x in place. */
    method DeleteInPlace(x: T)
      modifies this
      ensures items == Without(old(items), x)
    {
      var kept: seq<T> := [];
      var i := 0;
      while i < |items|
        invariant 0 <= i <= |items|
        invariant kept + Without(items[i..], x) == Without(items, x)
      {
        assert items[i..] == [items[i]] + items[i + 1..];
        if items[i] != x {
          kept := kept + [items[i]];
        }
        i := i + 1;
      }
      items := kept;
    }

    /** `before`: a new set of the items preceding the first p. */
    method BeforeItem(p: T) returns (r: ArraySet<T>)
      ensures fresh(r) && r.items == Before(items, p)
    {
      var i := 0;
      while i < |items| && items[i] != p
        invariant 0 <= i <= |items|
        invariant Before(items, p) == items[..i] + Before(items[i..], p)
      {
        assert items[i..] == [items[i]] + items[i + 1..];
        assert items[..i + 1] == items[..i] + [items[i]];
        i := i + 1;
      }
      r := new ArraySet(items[..i]);
    }

    /** `after`: a new set of the items following the first p; None where the source gets nil. */
    method AfterItem(p: T) returns (r: Option<ArraySet<T>>)
      ensures After(items, p).None? ==> r.None?
      ensures After(items, p).Some? ==> r.Some? && fresh(r.value) && r.value.items == After(items, p).value
    {
      var i := 0;
      while i < |items| && items[i] != p
        invariant 0 <= i <= |items|
        invariant After(items, p) == After(items[i..], p)
      {
        assert items[i..][1..] == items[i + 1..];
        i := i + 1;
      }
      if i < |items| {
        var a := new ArraySet(items[i + 1..]);
        r := Some(a);
      } else {
        r := None;
      }
    }

    /** `select`: a new set of the matching items, in order. */
    method Select(keep: T -> bool) returns (r: ArraySet<T>)
      ensures fresh(r) && r.items == Filter(items, keep)
    {
      var kept: seq<T> := [];
      var i := 0;
      while i < |items|
        invariant 0 <= i <= |items|
        invariant kept + Filter(items[i..], keep) == Filter(items, keep)
      {
        assert items[i..] == [items[i]] + items[i + 1..];
        if keep(items[i]) {
          kept := kept + [items[i]];
        }
        i := i + 1;
      }
      r := new ArraySet(kept);
    }

    /**
     * `sort_by`: a new set holding the items reordered by a permutation so
     * that no item comes after one whose key is strictly greater; `keys[i]`
     * is the key of the i-th item, computed before sorting as Ruby does.
     */
    method SortBy<K(!new)>(keys: seq<K>, less: (K, K) -> bool) returns (r: ArraySet<T>, ghost order: seq<nat>)
      requires |keys| == |items| && Order.StrictOrder(less)
      ensures fresh(r) && Order.IsPermutationOfRange(order, |items|) && Order.SortedBy(keys, less, order)
      ensures |r.items| == |items| && forall k :: 0 <= k < |items| ==> r.items[k] == items[order[k]]
    {
      var ord := Order.SortIndices(keys, less);
      order := ord;
      var xs := items;
      var sorted := seq(|ord|, k requires 0 <= k < |ord| => xs[ord[k]]);
      r := new ArraySet(sorted);
    }

    /** `partition`: two new sets, the matching items and the others, each in order. */
    method Partition(keep: T -> bool) returns (yes: ArraySet<T>, no: ArraySet<T>)
      ensures fresh(yes) && fresh(no) && yes != no
      ensures yes.items == Filter(items, keep) && no.items == Filter(items, x => !keep(x))
    {
      yes := Select(keep);
      no := Select(x => !keep(x));
    }
  }
}
