/** The filter output view (liboutput_view/filter.hpp): an output iterator over a
  * destination buffer that stores only the values its predicate accepts and does not
  * advance past a rejected value, so accepted values are compacted.
  *
  * A filter view whose base is another filter view is one iterator with several
  * layers: `preds[0]` is the view written to, the last layer is the view directly
  * over the buffer, and `skips[k]` is layer k's pending-skip flag. */
module OutputFilter {
  import opened Sequences

  class FilterIterator {
    const dest: array<int>
    const preds: seq<int -> bool>
    var current: nat
    var skips: seq<bool>

    ghost predicate Valid()
      reads this
    {
      current <= dest.Length && |skips| == |preds|
    }

    /** `begin()`: positioned at the first slot of the buffer, nothing pending. */
    constructor Begin(dest: array<int>, preds: seq<int -> bool>)
      ensures Valid()
      ensures this.dest == dest && this.preds == preds
      ensures current == 0 && true !in skips
    {
      this.dest := dest;
      this.preds := preds;
      current := 0;
      skips := seq(|preds|, _ => false);
    }

    /** Comparison with the sentinel: only the base position counts. */
    function AtEnd(): bool
      reads this
    {
      current == dest.Length
    }

    /** Iterator equality: only the base positions count, not the pending skips. */
    function SamePosition(other: FilterIterator): (r: bool)
      reads this, other
      ensures r && dest == other.dest ==> (AtEnd() <==> other.AtEnd())
    {
      current == other.current
    }

    /** `*it = v`: an accepted value is stored in the current slot; a rejected one
      * is not stored and raises the pending skip of the first layer rejecting it.
      * The write itself is unchecked, so an accepted value needs a slot. */
    method Assign(v: int)
      requires Valid()
      requires All(preds, v) ==> current < dest.Length
      modifies dest, this`skips
      ensures Valid()
      ensures All(preds, v) ==> dest[..] == old(dest[..])[current := v] && skips == old(skips)
      ensures !All(preds, v) ==> dest[..] == old(dest[..])
      ensures !All(preds, v) ==> skips == old(skips)[FirstRejecting(preds, v) := true]
      ensures AtEnd() == old(AtEnd())
    {
      var j := FirstRejecting(preds, v);
      if j == |preds| {
        dest[current] := v;
      } else {
        skips := skips[j := true];
      }
    }

    /** `++it`: a pending skip is cleared instead of advancing (outermost layer
      * first); with nothing pending the base position advances by one slot. */
    method Increment()
      requires Valid()
      requires true !in skips ==> current < dest.Length
      modifies this`current, this`skips
      ensures Valid()
      ensures true in old(skips) ==> current == old(current)
      ensures true in old(skips) ==> skips == old(skips)[FirstRaised(old(skips)) := false]
      ensures true !in old(skips) ==> current == old(current) + 1 && skips == old(skips)
    {
      var j := FirstRaised(skips);
      if j == |skips| {
        current := current + 1;
      } else {
        skips := skips[j := false];
      }
    }
  }

  /** Clearing the only raised flag leaves none raised. */
  lemma ClearOnlyFlag(flags: seq<bool>, j: nat)
    requires j < |flags| && true !in flags
    ensures FirstRaised(flags[j := true]) == j
    ensures true !in flags[j := true][j := false]
  {
    forall k | 0 <= k < |flags|
      ensures !flags[k]
    {
      assert flags[k] in flags;
    }
    assert flags[j := true][j := false] == flags;
    var raised := flags[j := true];
    assert raised[j] && true in raised;
    var r := FirstRaised(raised);
    assert raised[r];
  }

  /** `ranges::copy(src, begin(view))`: every element is assigned through the
    * iterator, which is then incremented; there is no end check, so the accepted
    * values must fit in the buffer. The buffer receives exactly the accepted values,
    * in order, from the starting slot on; all other slots keep their contents. */
  method CopyUnbounded(src: seq<int>, out: FilterIterator)
    requires out.Valid() && true !in out.skips
    requires out.current + |Filter(Conj(out.preds), src)| <= out.dest.Length
    modifies out, out.dest
    ensures out.Valid() && true !in out.skips
    ensures out.current == old(out.current) + |Filter(Conj(out.preds), src)|
    ensures out.dest[..] == Overwrite(old(out.dest[..]), old(out.current), Filter(Conj(out.preds), src))
  {
    ghost var start, before := out.current, out.dest[..];
    ghost var P := Conj(out.preds);
    var i := 0;
    while i < |src|
      invariant 0 <= i <= |src|
      invariant out.Valid() && true !in out.skips
      invariant start + |Filter(P, src[..i])| <= out.dest.Length
      invariant out.current == start + |Filter(P, src[..i])|
      invariant out.dest[..] == Overwrite(before, start, Filter(P, src[..i]))
    {
      FilterStep(P, src, i);
      FilterPrefix(P, src, i + 1);
      var v := src[i];
      ghost var skips0 := out.skips;
      out.Assign(v);
      if !All(out.preds, v) {
        ClearOnlyFlag(skips0, FirstRejecting(out.preds, v));
      }
      out.Increment();
      i := i + 1;
    }
    assert src[..i] == src;
  }

  /** A copy that also compares the iterator with the view's sentinel and stops at
    * the end of the buffer. Rejected values never end the copy early: the buffer
    * receives the longest prefix of the accepted values that fits, and a copy that
    * stops early has just stored its last accepted value. */
  method CopyBounded(src: seq<int>, out: FilterIterator) returns (consumed: nat)
    requires out.Valid() && true !in out.skips
    modifies out, out.dest
    ensures out.Valid() && true !in out.skips && consumed <= |src|
    ensures var F := Filter(Conj(out.preds), src);
      var k := if |F| <= out.dest.Length - old(out.current) then |F| else out.dest.Length - old(out.current);
      out.current == old(out.current) + k &&
      out.dest[..] == Overwrite(old(out.dest[..]), old(out.current), F[..k])
    ensures consumed < |src| ==> out.AtEnd()
    ensures |Filter(Conj(out.preds), src[..consumed])| == out.current - old(out.current)
    ensures consumed < |src| ==> consumed == 0 || All(out.preds, src[consumed - 1])
  {
    ghost var start, before := out.current, out.dest[..];
    ghost var P := Conj(out.preds);
    var i := 0;
    while i < |src| && !out.AtEnd()
      invariant 0 <= i <= |src|
      invariant out.Valid() && true !in out.skips
      invariant out.current == start + |Filter(P, src[..i])|
      invariant out.AtEnd() && i > 0 ==> All(out.preds, src[i - 1])
      invariant out.dest[..] == Overwrite(before, start, Filter(P, src[..i]))
    {
      FilterStep(P, src, i);
      var v := src[i];
      ghost var accepted := All(out.preds, v);
      assert P(v) == accepted;
      ghost var skips0 := out.skips;
      out.Assign(v);
      if accepted {
        OverwriteSnoc(before, start, Filter(P, src[..i]), v);
      } else {
        ClearOnlyFlag(skips0, FirstRejecting(out.preds, v));
      }
      out.Increment();
      assert !accepted ==> !out.AtEnd();
      i := i + 1;
    }
    BoundedCount(P, src, i, out.dest.Length - start, out.current - start);
    consumed := i;
  }

  /** Where a bounded copy stops: having stored the `stored` accepted values among
    * the first `i` of `src`, with room for `room`, and stopping before the end of
    * the source only when the room is used up, it has stored the longest prefix of
    * the accepted values that fits. */
  lemma BoundedCount(P: int -> bool, src: seq<int>, i: nat, room: nat, stored: nat)
    requires i <= |src| && stored == |Filter(P, src[..i])| <= room
    requires i < |src| ==> stored == room
    ensures var F := Filter(P, src);
      var k := if |F| <= room then |F| else room;
      stored == k && F[..k] == Filter(P, src[..i])
  {
    FilterPrefix(P, src, i);
    if i == |src| {
      assert src[..i] == src;
    }
  }

  /** The single-slot assignments: assigning 5 through a view that drops fives
    * stores nothing, assigning 1 stores 1. */
  method AssignScenario() returns (afterFive: seq<int>, afterOne: seq<int>)
    ensures afterFive == [0] && afterOne == [1]
  {
    var dropFives: seq<int -> bool> := [x => x != 5];
    assert !dropFives[0](5) && !All(dropFives, 5);
    assert All(dropFives, 1);
    var a := new int[1](_ => 0);
    assert a[..] == [0];
    var it := new FilterIterator.Begin(a, dropFives);
    it.Assign(5);
    afterFive := a[..];
    var b := new int[1](_ => 0);
    var it2 := new FilterIterator.Begin(b, dropFives);
    it2.Assign(1);
    afterOne := b[..];
  }

  /** Copying [0, 5, 1, 5, 0] through a view that drops fives into [0, 0, 0]. */
  method CopyScenario() returns (stored: seq<int>)
    ensures stored == [0, 1, 0]
  {
    var dropFives: seq<int -> bool> := [x => x != 5];
    var a := new int[3](_ => 0);
    assert a[..] == [0, 0, 0];
    var it := new FilterIterator.Begin(a, dropFives);
    var p := Conj(dropFives);
    assert !dropFives[0](5) && p(0) && !p(5) && p(1);
    assert Filter(p, [0, 5, 1, 5, 0]) == [0, 1, 0] by {
      assert [0, 5, 1, 5, 0][..4] == [0, 5, 1, 5];
      assert [0, 5, 1, 5][..3] == [0, 5, 1];
      assert [0, 5, 1][..2] == [0, 5];
      assert [0, 5][..1] == [0];
    }
    CopyUnbounded([0, 5, 1, 5, 0], it);
    stored := a[..];
  }
}
