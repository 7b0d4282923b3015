/** The take-until combinator (libstream/take_until.hpp): range reads see the
  * caller's buffer through a take-until output view, which stores values up to and
  * including the first one matching the predicate, then nothing more. */
module TakeUntilStream {
  import opened Sequences
  import opened Capabilities
  import opened Contexts
  import opened Leaves

  /** `read(r)`, offered only over a pure read stream: one range read on the inner
    * stream into the wrapped buffer; the sender passes submit, cancel and the
    * synchronous result through to the inner sender. */
  function Read(leaf: Leaf, stop: int -> bool, d: Dest): (r: Issued)
    requires PureReadStreamable(leaf.caps)
    ensures |r.calls| == 1 && r.calls[0].stream == leaf.id && r.calls[0].call.ReadRange?
    ensures Target(r.sender) == Sender(leaf.id) && Valued(r.sender)
  {
    Issued(BaseRange(Sender(leaf.id)), [Delivery(leaf.id, ReadRange(TakeUntilView(stop, d)))])
  }

  /** `readwrite(rin, rout)`, offered only over a read-write stream: the written
    * range passes unchanged, only the read destination is wrapped. */
  function ReadWrite(leaf: Leaf, stop: int -> bool, rin: seq<int>, d: Dest): (r: Issued)
    requires ReadWriteStreamable(leaf.caps)
    ensures |r.calls| == 1 && r.calls[0].stream == leaf.id
    ensures r.calls[0].call.ReadWriteRange? && r.calls[0].call.input == rin
    ensures Target(r.sender) == Sender(leaf.id) && Valued(r.sender)
  {
    Issued(BaseRange(Sender(leaf.id)), [Delivery(leaf.id, ReadWriteRange(rin, TakeUntilView(stop, d)))])
  }

  /** What reaches the caller's buffer through a range read: the inner stream's
    * values up to and including the first match (all of them when none matches). */
  lemma {:induction false} ReadStopsAfterMatch(leaf: Leaf, stop: int -> bool, vs: seq<int>, i: nat)
    requires PureReadStreamable(leaf.caps)
    requires i <= |vs| && forall j :: 0 <= j < i ==> !stop(vs[j])
    ensures i == |vs| ==> Deliver(Read(leaf, stop, Buffer).calls[0].call.into, vs) == vs
    ensures i < |vs| && stop(vs[i]) ==> Deliver(Read(leaf, stop, Buffer).calls[0].call.into, vs) == vs[..i + 1]
  {
    TakeUntilAt(stop, vs, i);
  }

  /** The same for `readwrite`, whatever is written. */
  lemma {:induction false} ReadWriteStopsAfterMatch(leaf: Leaf, stop: int -> bool, rin: seq<int>, vs: seq<int>, i: nat)
    requires ReadWriteStreamable(leaf.caps)
    requires i <= |vs| && forall j :: 0 <= j < i ==> !stop(vs[j])
    ensures i == |vs| ==> Deliver(ReadWrite(leaf, stop, rin, Buffer).calls[0].call.into, vs) == vs
    ensures i < |vs| && stop(vs[i]) ==> Deliver(ReadWrite(leaf, stop, rin, Buffer).calls[0].call.into, vs) == vs[..i + 1]
  {
    TakeUntilAt(stop, vs, i);
  }

  /** Reading until 1: the inner stream produces [3, 1, 2] and a three-slot buffer
    * of zeros ends as [3, 1, 0]. */
  lemma UntilOneScenario()
    ensures var into := Read(Leaf(0, Caps(false, true, false)), x => x == 1, Buffer).calls[0].call.into;
      Overwrite([0, 0, 0], 0, Deliver(into, [3, 1, 2])) == [3, 1, 0]
  {
    var stop := x => x == 1;
    var vs := [3, 1, 2];
    assert !stop(vs[0]) && stop(vs[1]);
    ReadStopsAfterMatch(Leaf(0, Caps(false, true, false)), stop, vs, 1);
    assert vs[..2] == [3, 1];
  }
}
