/**
 * The per-direction margin accumulator of the diagram (BoundsExtension).
 *
 * Each of the four fields starts at 0 and is only ever raised: a write
 * changes the field only when the written value is strictly greater.
 */
module Bounds {

  /** One guarded write: the field keeps the larger of its value and the written one. */
  function Raise(current: int, value: int): (r: int)
  {
    if value > current then value else current
  }

  /** The value of a field after the given writes, starting from 0. */
  function Accumulate(writes: seq<int>): int
  {
    if writes == [] then 0
    else Raise(Accumulate(writes[..|writes| - 1]), writes[|writes| - 1])
  }

  lemma AccumulateSnoc(writes: seq<int>, value: int)
    ensures Accumulate(writes + [value]) == Raise(Accumulate(writes), value)
  {
    assert (writes + [value])[..|writes|] == writes;
  }

  /** A guarded write never lowers the field, and changes it only on a strictly larger value. */
  lemma RaiseMonotone(current: int, value: int)
    ensures Raise(current, value) >= current && Raise(current, value) >= value
    ensures Raise(current, value) != current <==> value > current
  {
  }

  /** After any writes, a field is the maximum of 0 and everything written to it. */
  lemma {:induction false} AccumulateIsMax(writes: seq<int>)
    ensures Accumulate(writes) >= 0
    ensures forall i :: 0 <= i < |writes| ==> writes[i] <= Accumulate(writes)
    ensures Accumulate(writes) == 0 || Accumulate(writes) in writes
  {
    if writes != [] {
      var prefix := writes[..|writes| - 1];
      AccumulateIsMax(prefix);
      assert writes == prefix + [writes[|writes| - 1]];
    }
  }

  /** The order of the writes does not matter. */
  lemma {:induction false} AccumulateOrderIndependent(a: seq<int>, b: seq<int>)
    requires multiset(a) == multiset(b)
    ensures Accumulate(a) == Accumulate(b)
  {
    AccumulateIsMax(a);
    AccumulateIsMax(b);
    var x, y := Accumulate(a), Accumulate(b);
    if x != 0 {
      assert x in multiset(a);
      assert x in b;
    }
    if y != 0 {
      assert y in multiset(b);
      assert y in a;
    }
  }

  /** Appending writes never lowers a field. */
  lemma {:induction false} AccumulateGrows(writes: seq<int>, more: seq<int>)
    ensures Accumulate(writes) <= Accumulate(writes + more)
  {
    AccumulateIsMax(writes);
    AccumulateIsMax(writes + more);
    if Accumulate(writes) != 0 {
      var k :| 0 <= k < |writes| && writes[k] == Accumulate(writes);
      assert (writes + more)[k] == writes[k];
    }
  }

  class BoundsExtension {
    var north: int
    var south: int
    var east: int
    var west: int

    /** Every value written to each field so far, in order. */
    ghost var northWrites: seq<int>
    ghost var southWrites: seq<int>
    ghost var eastWrites: seq<int>
    ghost var westWrites: seq<int>

    ghost predicate Valid()
      reads this
    {
      && north == Accumulate(northWrites)
      && south == Accumulate(southWrites)
      && east == Accumulate(eastWrites)
      && west == Accumulate(westWrites)
    }

    constructor ()
      ensures Valid()
      ensures north == 0 && south == 0 && east == 0 && west == 0
      ensures northWrites == [] && southWrites == [] && eastWrites == [] && westWrites == []
    {
      north, south, east, west := 0, 0, 0, 0;
      northWrites, southWrites, eastWrites, westWrites := [], [], [], [];
    }

    method SetNorth(value: int)
      requires Valid()
      modifies this
      ensures Valid()
      ensures north == Raise(old(north), value) && northWrites == old(northWrites) + [value]
      ensures south == old(south) && east == old(east) && west == old(west)
      ensures southWrites == old(southWrites) && eastWrites == old(eastWrites) && westWrites == old(westWrites)
    {
      AccumulateSnoc(northWrites, value);
      north, northWrites := Raise(north, value), northWrites + [value];
    }

    method SetSouth(value: int)
      requires Valid()
      modifies this
      ensures Valid()
      ensures south == Raise(old(south), value) && southWrites == old(southWrites) + [value]
      ensures north == old(north) && east == old(east) && west == old(west)
      ensures northWrites == old(northWrites) && eastWrites == old(eastWrites) && westWrites == old(westWrites)
    {
      AccumulateSnoc(southWrites, value);
      south, southWrites := Raise(south, value), southWrites + [value];
    }

    method SetEast(value: int)
      requires Valid()
      modifies this
      ensures Valid()
      ensures east == Raise(old(east), value) && eastWrites == old(eastWrites) + [value]
      ensures north == old(north) && south == old(south) && west == old(west)
      ensures northWrites == old(northWrites) && southWrites == old(southWrites) && westWrites == old(westWrites)
    {
      AccumulateSnoc(eastWrites, value);
      east, eastWrites := Raise(east, value), eastWrites + [value];
    }

    method SetWest(value: int)
      requires Valid()
      modifies this
      ensures Valid()
      ensures west == Raise(old(west), value) && westWrites == old(westWrites) + [value]
      ensures north == old(north) && south == old(south) && east == old(east)
      ensures northWrites == old(northWrites) && southWrites == old(southWrites) && eastWrites == old(eastWrites)
    {
      AccumulateSnoc(westWrites, value);
      west, westWrites := Raise(west, value), westWrites + [value];
    }
  }

  /** A valid accumulator never holds a negative field, and each field bounds what was written to it. */
  lemma ValidBounds(b: BoundsExtension)
    requires b.Valid()
    ensures b.north >= 0 && b.south >= 0 && b.east >= 0 && b.west >= 0
    ensures forall v :: v in b.northWrites ==> v <= b.north
    ensures forall v :: v in b.southWrites ==> v <= b.south
    ensures forall v :: v in b.eastWrites ==> v <= b.east
    ensures forall v :: v in b.westWrites ==> v <= b.west
  {
    AccumulateIsMax(b.northWrites);
    AccumulateIsMax(b.southWrites);
    AccumulateIsMax(b.eastWrites);
    AccumulateIsMax(b.westWrites);
  }
}
