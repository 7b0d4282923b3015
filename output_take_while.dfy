/** The take-while output view (liboutput_view/take_while.hpp): an output iterator over
  * a destination buffer that stores values while its predicate holds and latches
  * "exhausted" at the first rejected value; the latch makes the iterator compare
  * equal to the view's sentinel, which is what ends a copy.
  *
  * A take-while view whose base is another take-while view is one iterator with
  * several layers: `preds[0]` is the view written to, the last layer is the view
  * directly over the buffer, and `latched[k]` is layer k's exhausted flag. */
module OutputTakeWhile {
  import opened Sequences

  class TakeWhileIterator {
    const dest: array<int>
    const preds: seq<int -> bool>
    var current: nat
    var latched: seq<bool>

    ghost predicate Valid()
      reads this
    {
      current <= dest.Length && |latched| == |preds|
    }

    /** `begin()`: positioned at the first slot, no layer exhausted. */
    constructor Begin(dest: array<int>, preds: seq<int -> bool>)
      ensures Valid()
      ensures this.dest == dest && this.preds == preds
      ensures current == 0 && true !in latched
    {
      this.dest := dest;
      this.preds := preds;
      current := 0;
      latched := seq(|preds|, _ => false);
    }

    /** Comparison with the sentinel: the base end is reached or some layer has
      * seen its predicate fail. */
    function AtEnd(): bool
      reads this
    {
      current == dest.Length || true in latched
    }

    /** `*it = v`: an accepted value is stored in the current slot; a rejected one
      * is not stored and latches the first layer rejecting it. No latch is ever
      * cleared, and the write does not itself look at the latches. */
    method Assign(v: int)
      requires Valid()
      requires All(preds, v) ==> current < dest.Length
      modifies dest, this`latched
      ensures Valid()
      ensures All(preds, v) ==> dest[..] == old(dest[..])[current := v] && latched == old(latched)
      ensures !All(preds, v) ==> dest[..] == old(dest[..])
      ensures !All(preds, v) ==> latched == old(latched)[FirstRejecting(preds, v) := true]
      ensures forall k :: 0 <= k < |latched| && old(latched[k]) ==> latched[k]
      ensures !All(preds, v) ==> AtEnd()
    {
      var j := FirstRejecting(preds, v);
      if j == |preds| {
        dest[current] := v;
      } else {
        latched := latched[j := true];
        assert latched[j];
      }
    }

    /** `++it`: always exactly one slot, whatever the predicate said. */
    method Increment()
      requires Valid() && current < dest.Length
      modifies this`current
      ensures Valid()
      ensures current == old(current) + 1
    {
      current := current + 1;
    }
  }

  /** Where a take-while copy stops: having consumed `i` values of `src` with room
    * for `room`, either the last one was the first rejected value (`latched`) or
    * every one was accepted and the source or the room ran out. */
  lemma CopyCount(P: int -> bool, src: seq<int>, i: nat, room: nat, latched: bool)
    requires i <= |src| && i <= room
    requires latched ==> 0 < i && !P(src[i - 1]) && forall j :: 0 <= j < i - 1 ==> P(src[j])
    requires !latched ==> (forall j :: 0 <= j < i ==> P(src[j])) && (i == |src| || i == room)
    ensures var T := TakeWhile(P, src);
      var k := if |T| <= room then |T| else room;
      T[..k] == (if latched then src[..i - 1] else src[..i])
    ensures var T := TakeWhile(P, src);
      i == if |src| <= |T| + 1 && |src| <= room then |src| else if |T| + 1 <= room then |T| + 1 else room
    ensures latched <==> |TakeWhile(P, src)| < i
  {
    if latched {
      TakeWhileAt(P, src, i - 1);
    } else {
      TakeWhileAt(P, src, i);
    }
  }

  /** A copy that stops when the source ends or the iterator equals the sentinel.
    * The buffer receives the longest prefix of the source that every layer
    * accepts, cut at the end of the buffer; nothing else is written. */
  method Copy(src: seq<int>, out: TakeWhileIterator) returns (consumed: nat)
    requires out.Valid() && true !in out.latched
    modifies out, out.dest
    ensures out.Valid() && consumed <= |src|
    ensures var T := TakeWhile(Conj(out.preds), src);
      var k := if |T| <= out.dest.Length - old(out.current) then |T| else out.dest.Length - old(out.current);
      out.dest[..] == Overwrite(old(out.dest[..]), old(out.current), T[..k])
    ensures consumed < |src| ==> out.AtEnd()
    ensures out.current == old(out.current) + consumed
    ensures var T := TakeWhile(Conj(out.preds), src);
      var room := out.dest.Length - old(out.current);
      consumed == if |src| <= |T| + 1 && |src| <= room then |src| else if |T| + 1 <= room then |T| + 1 else room
    ensures (true in out.latched) <==> |TakeWhile(Conj(out.preds), src)| < consumed
  {
    ghost var start, before := out.current, out.dest[..];
    ghost var P := Conj(out.preds);
    var i := 0;
    while i < |src| && !out.AtEnd()
      invariant 0 <= i <= |src|
      invariant out.Valid() && out.current == start + i
      invariant true !in out.latched ==>
        (forall j :: 0 <= j < i ==> P(src[j])) && out.dest[..] == Overwrite(before, start, src[..i])
      invariant true in out.latched ==>
        0 < i && !P(src[i - 1]) && (forall j :: 0 <= j < i - 1 ==> P(src[j])) &&
        out.dest[..] == Overwrite(before, start, src[..i - 1])
    {
      var v := src[i];
      ghost var accepted := All(out.preds, v);
      out.Assign(v);
      if accepted {
        assert src[..i + 1] == src[..i] + [v];
        OverwriteSnoc(before, start, src[..i], v);
      } else {
        assert out.latched[FirstRejecting(out.preds, v)];
      }
      out.Increment();
      i := i + 1;
    }
    CopyCount(P, src, i, out.dest.Length - start, true in out.latched);
    consumed := i;
  }

  /** Runs a copy of `src` into a fresh zeroed buffer of `n` slots. */
  method CopyIntoZeroed(src: seq<int>, preds: seq<int -> bool>, n: nat) returns (stored: seq<int>)
    ensures var T := TakeWhile(Conj(preds), src);
      var k := if |T| <= n then |T| else n;
      stored == T[..k] + seq(n - k, _ => 0)
  {
    var a := new int[n](_ => 0);
    var it := new TakeWhileIterator.Begin(a, preds);
    ghost var zeros := a[..];
    assert zeros == seq(n, _ => 0);
    var _ := Copy(src, it);
    stored := a[..];
    ghost var T := TakeWhile(Conj(preds), src);
    ghost var k := if |T| <= n then |T| else n;
    assert stored == T[..k] + seq(n - k, _ => 0);
  }

  /** Copies through a view that writes until 2, into [0, 0, 0]. */
  method UntilTwoScenario() returns (a: seq<int>, b: seq<int>, c: seq<int>, d: seq<int>)
    ensures a == [1, 0, 0] && b == [1, 3, 4] && c == [0, 0, 0] && d == [0, 0, 0]
  {
    var untilTwo: seq<int -> bool> := [x => x != 2];
    var P := Conj(untilTwo);
    assert !untilTwo[0](2);
    assert P(1) && !P(2) && P(3) && P(4);
    assert TakeWhile(P, [1, 2, 3]) == [1] by {
      assert [1, 2, 3][1..] == [2, 3];
    }
    assert TakeWhile(P, [1, 3, 4]) == [1, 3, 4] by {
      assert [1, 3, 4][1..] == [3, 4] && [3, 4][1..] == [4] && [4][1..] == [];
    }
    a := CopyIntoZeroed([1, 2, 3], untilTwo, 3);
    b := CopyIntoZeroed([1, 3, 4], untilTwo, 3);
    c := CopyIntoZeroed([2], untilTwo, 3);
    d := CopyIntoZeroed([2, 3, 4], untilTwo, 3);
  }

  /** A view writing until 3 over a view writing until 2: both [1, 2, 3] and
    * [1, 3, 2] store only [1]. */
  method NestedScenario() returns (a: seq<int>, b: seq<int>)
    ensures a == [1, 0, 0] && b == [1, 0, 0]
  {
    var layers: seq<int -> bool> := [x => x != 3, x => x != 2];
    var P := Conj(layers);
    assert !layers[1](2) && !layers[0](3);
    assert P(1) && !P(2) && !P(3);
    assert TakeWhile(P, [1, 2, 3]) == [1] by {
      assert [1, 2, 3][1..] == [2, 3];
    }
    assert TakeWhile(P, [1, 3, 2]) == [1] by {
      assert [1, 3, 2][1..] == [3, 2];
    }
    a := CopyIntoZeroed([1, 2, 3], layers, 3);
    b := CopyIntoZeroed([1, 3, 2], layers, 3);
  }
}
