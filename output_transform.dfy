/** The transform output view (include/output_view/transform.h): a random-access
  * output iterator over a destination buffer that stores `f(v)` when `v` is
  * assigned through it; its movement, arithmetic and comparisons are those of the
  * underlying buffer position.
  *
  * A transform view whose base is another transform view is one iterator with
  * several layers: `funcs[0]` belongs to the view written to and is applied first. */
module OutputTransform {
  import opened Sequences

  // Positions. An iterator is its base position `current`; the source's non-mutating
  // operators only compute with positions.

  /** `i + n`, `n + i` and (with `-n`) `i - n`. */
  function Offset(i: int, n: int): int
  {
    i + n
  }

  /** `x - y` for two iterators, and `x - s` for an iterator and the sentinel at `s`. */
  function Distance(x: int, y: int): int
  {
    x - y
  }

  /** `s - x` for the sentinel at `s` and an iterator, as the operator intends it. */
  function SentinelDistance(s: int, x: int): int
  {
    s - x
  }

  /** Iterator `==` (and, with a sentinel position, iterator-sentinel `==`). */
  function Same(x: int, y: int): bool
  {
    x == y
  }

  function Less(x: int, y: int): bool
  {
    x < y
  }

  function Greater(x: int, y: int): bool
  {
    Less(y, x)
  }

  function LessEq(x: int, y: int): bool
  {
    !Less(y, x)
  }

  function GreaterEq(x: int, y: int): bool
  {
    !Less(x, y)
  }

  /** The view's size is that of the buffer under it. */
  function Size(dest: array<int>): nat
  {
    dest.Length
  }

  class TransformIterator {
    const dest: array<int>
    const funcs: seq<int -> int>
    var current: int

    ghost predicate Valid()
      reads this
    {
      0 <= current <= dest.Length
    }

    /** `begin()`. */
    constructor Begin(dest: array<int>, funcs: seq<int -> int>)
      ensures Valid() && this.dest == dest && this.funcs == funcs && current == 0
    {
      this.dest := dest;
      this.funcs := funcs;
      current := 0;
    }

    /** Comparison with the sentinel at the end of the buffer. */
    function AtEnd(): bool
      reads this
    {
      Same(current, Size(dest))
    }

    /** `*it = v` stores the transformed value in the current slot and nothing else. */
    method Assign(v: int)
      requires Valid() && current < dest.Length
      modifies dest
      ensures dest[..] == old(dest[..])[current := ApplyAll(funcs, v)]
    {
      dest[current] := ApplyAll(funcs, v);
    }

    /** `it[n] = v` stores the transformed value `n` slots away. */
    method AssignAt(n: int, v: int)
      requires Valid() && 0 <= Offset(current, n) < dest.Length
      modifies dest
      ensures dest[..] == old(dest[..])[Offset(current, n) := ApplyAll(funcs, v)]
    {
      dest[current + n] := ApplyAll(funcs, v);
    }

    /** `++it`: exactly one slot, never skipping. */
    method Increment()
      requires Valid() && current < dest.Length
      modifies this`current
      ensures Valid() && current == Offset(old(current), 1)
    {
      current := current + 1;
    }

    /** `--it`. */
    method Decrement()
      requires Valid() && 0 < current
      modifies this`current
      ensures Valid() && current == Offset(old(current), -1)
    {
      current := current - 1;
    }

    /** `it += n`: the same position as `it + n`. */
    method AddAssign(n: int)
      requires Valid() && 0 <= Offset(current, n) <= dest.Length
      modifies this`current
      ensures Valid() && current == Offset(old(current), n)
      ensures Distance(current, old(current)) == n
    {
      current := current + n;
    }

    /** `it -= n`: the same position as `it - n`. */
    method SubAssign(n: int)
      requires Valid() && 0 <= Offset(current, -n) <= dest.Length
      modifies this`current
      ensures Valid() && current == Offset(old(current), -n)
      ensures Distance(old(current), current) == n
    {
      current := current - n;
    }
  }

  /** A copy that stops when the source ends or the iterator reaches the sentinel:
    * every slot from the starting one receives the transformed source element in
    * the same order, until either runs out. */
  method Copy(src: seq<int>, out: TransformIterator) returns (consumed: nat)
    requires out.Valid()
    modifies out, out.dest
    ensures out.Valid()
    ensures consumed == if |src| <= Size(out.dest) - old(out.current) then |src| else Size(out.dest) - old(out.current)
    ensures out.current == old(out.current) + consumed
    ensures out.AtEnd() <==> consumed == Size(out.dest) - old(out.current)
    ensures out.dest[..] == Overwrite(old(out.dest[..]), old(out.current), Map(Compose(out.funcs), src[..consumed]))
  {
    ghost var start, before := out.current, out.dest[..];
    ghost var F := Compose(out.funcs);
    var i := 0;
    while i < |src| && !out.AtEnd()
      invariant 0 <= i <= |src|
      invariant out.Valid() && out.current == start + i
      invariant out.dest[..] == Overwrite(before, start, Map(F, src[..i]))
    {
      out.Assign(src[i]);
      assert Map(F, src[..i + 1]) == Map(F, src[..i]) + [F(src[i])];
      out.Increment();
      i := i + 1;
    }
    consumed := i;
  }

  /** Moving an iterator over a buffer: after `+= p` from `begin()` it is p slots
    * before the sentinel; `+= n` puts it at distance n, ahead of where it was
    * exactly when n is positive; `-= n` brings it back, and so does `++` followed
    * by `--` (or, at the sentinel, `--` followed by `++`). */
  method Movement(dest: array<int>, funcs: seq<int -> int>, p: nat, n: int)
      returns (at: int, left: int, moved: int, back: int, stepped: int)
    requires p <= dest.Length && 0 <= p + n <= dest.Length
    ensures at == p
    ensures left == dest.Length - p && Distance(at, Size(dest)) == -left
    ensures Distance(moved, at) == n && Offset(at, n) == moved
    ensures Less(at, moved) <==> 0 < n
    ensures Same(at, moved) <==> n == 0
    ensures Greater(at, moved) <==> n < 0
    ensures back == at && stepped == at
  {
    var it := new TransformIterator.Begin(dest, funcs);
    it.AddAssign(p);
    at := it.current;
    left := SentinelDistance(Size(dest), it.current);
    it.AddAssign(n);
    moved := it.current;
    it.SubAssign(n);
    back := it.current;
    if it.current < dest.Length {
      it.Increment();
      it.Decrement();
    } else if 0 < it.current {
      it.Decrement();
      it.Increment();
    }
    stepped := it.current;
  }

  /** Assigning 0 through a `+1` view stores 1; copying [0, 1] into two slots
    * through it stores [1, 2]. */
  method IncrementScenario() returns (single: seq<int>, copied: seq<int>)
    ensures single == [1] && copied == [1, 2]
  {
    var plusOne: seq<int -> int> := [x => x + 1];
    assert ApplyAll(plusOne, 0) == 1 && ApplyAll(plusOne, 1) == 2;
    var a := new int[1](_ => 0);
    var it := new TransformIterator.Begin(a, plusOne);
    it.Assign(0);
    single := a[..];
    var b := new int[2](_ => 0);
    var it2 := new TransformIterator.Begin(b, plusOne);
    var n := Copy([0, 1], it2);
    copied := b[..];
    assert [0, 1][..n] == [0, 1];
  }
}
