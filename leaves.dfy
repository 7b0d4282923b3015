/** The inner streams the combinators wrap, seen from outside: each is identified
  * by a number, has capabilities, and records the calls made on it. A range read
  * receives the caller's buffer, possibly seen through output views. */
module Leaves {
  import opened Sequences
  import opened Capabilities
  import opened Contexts

  datatype Leaf = Leaf(id: nat, caps: Caps)

  /** A buffer handed to a range read: the caller's buffer, or an output view over
    * another such destination. */
  datatype Dest =
    | Buffer
    | FilterView(keep: int -> bool, base: Dest)
    | TakeUntilView(stop: int -> bool, base: Dest)
    | TransformView(f: int -> int, base: Dest)

  /** A call made on an inner stream. */
  datatype Call =
    | WriteValue(v: int)
    | WriteRange(vs: seq<int>)
    | ReadValue
    | ReadRange(into: Dest)
    | ReadWriteValue(v: int)
    | ReadWriteRange(input: seq<int>, into: Dest)

  datatype Delivery = Delivery(stream: nat, call: Call)

  /** What a combinator's operation returns (its sender) and which calls it made on
    * the inner streams to build it. */
  datatype Issued = Issued(sender: Context, calls: seq<Delivery>)

  /** The values that reach the caller's buffer, from its first slot on, when a
    * stream writes `vs` element by element into the destination. */
  function Deliver(d: Dest, vs: seq<int>): seq<int>
  {
    match d
    case Buffer => vs
    case FilterView(keep, base) => Deliver(base, Filter(keep, vs))
    case TakeUntilView(stop, base) => Deliver(base, TakeUntil(stop, vs))
    case TransformView(f, base) => Deliver(base, Map(f, vs))
  }

  /** A destination built from filter views only. */
  predicate OnlyFilters(d: Dest)
  {
    match d
    case Buffer => true
    case FilterView(_, base) => OnlyFilters(base)
    case _ => false
  }

  /** The filter views of a destination, the one written to first; this is the
    * layering of one filter output iterator. */
  function FilterLayers(d: Dest): seq<int -> bool>
    requires OnlyFilters(d)
  {
    match d
    case Buffer => []
    case FilterView(keep, base) => [keep] + FilterLayers(base)
  }

  /** Writing through a stack of filter views keeps the values every view keeps. */
  lemma {:induction false} DeliverThroughFilters(d: Dest, vs: seq<int>)
    requires OnlyFilters(d)
    ensures Deliver(d, vs) == Filter(Conj(FilterLayers(d)), vs)
  {
    match d
    case Buffer =>
      FilterSamePredicate(Conj([]), _ => true, vs);
      KeepAll(vs);
    case FilterView(keep, base) =>
      DeliverThroughFilters(base, Filter(keep, vs));
      var rest := Conj(FilterLayers(base));
      forall x
        ensures Conj(FilterLayers(d))(x) == (rest(x) && keep(x))
      {
        var layers := FilterLayers(d);
        assert layers == [keep] + FilterLayers(base);
        assert All(layers, x) == (keep(x) && All(FilterLayers(base), x)) by {
          if keep(x) && All(FilterLayers(base), x) {
            forall k | 0 <= k < |layers| ensures layers[k](x) {
              if k > 0 { assert layers[k] == FilterLayers(base)[k - 1]; }
            }
          }
          if All(layers, x) {
            assert layers[0](x);
            forall k | 0 <= k < |FilterLayers(base)| ensures FilterLayers(base)[k](x) {
              assert FilterLayers(base)[k] == layers[k + 1];
            }
          }
        }
      }
      FilterFilter(rest, keep, Conj(FilterLayers(d)), vs);
  }

  /** Filtering with a predicate that keeps everything changes nothing. */
  lemma {:induction false} KeepAll(vs: seq<int>)
    ensures Filter(_ => true, vs) == vs
  {
    if vs != [] {
      KeepAll(vs[..|vs| - 1]);
    }
  }
}
