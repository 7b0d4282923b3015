/** The immediate-write combinators `transform` (libstream/transform.hpp) and
  * `action` (libstream/action.hpp). A write through a chain of them performs every
  * action's pre-step, outermost first, and then exactly one write on the inner
  * stream, which receives the request with every transform's function applied and
  * its completion token unchanged. */
module Pipeline {
  import opened Sequences
  import opened Leaves

  /** A write request as a stream receives it; `token` names the caller's
    * completion token. */
  datatype Request =
    | Value(v: int)
    | ValueWith(v: int, token: nat)
    | Range(vs: seq<int>)
    | RangeWith(vs: seq<int>, token: nat)

  /** A chain of combinators over the inner stream. `pre` names an action's pre-step. */
  datatype Chain = Inner | Transform(inner: Chain, f: int -> int) | Action(inner: Chain, pre: nat)

  datatype Event = PreRan(pre: nat) | Received(req: Request)

  /** The inner stream, recording what it receives, and the pre-steps, recording
    * that they ran, in one trace. */
  class Recorder {
    var events: seq<Event>

    constructor ()
      ensures events == []
    {
      events := [];
    }
  }

  /** The request with `f` applied to its value or to each element of its range;
    * its kind and its token are kept. */
  function MapRequest(f: int -> int, req: Request): (r: Request)
    ensures r.Value? == req.Value? && r.ValueWith? == req.ValueWith?
    ensures r.Range? == req.Range? && r.RangeWith? == req.RangeWith?
    ensures (r.Value? || r.ValueWith?) ==> r.v == f(req.v)
    ensures (r.Range? || r.RangeWith?) ==> |r.vs| == |req.vs| && forall i :: 0 <= i < |r.vs| ==> r.vs[i] == f(req.vs[i])
    ensures (r.ValueWith? || r.RangeWith?) ==> r.token == req.token
  {
    match req
    case Value(v) => Value(f(v))
    case ValueWith(v, t) => ValueWith(f(v), t)
    case Range(vs) => Range(Map(f, vs))
    case RangeWith(vs, t) => RangeWith(Map(f, vs), t)
  }

  /** The transforms' functions, outermost first. */
  function Transforms(c: Chain): seq<int -> int>
  {
    match c
    case Inner => []
    case Transform(inner, f) => [f] + Transforms(inner)
    case Action(inner, _) => Transforms(inner)
  }

  /** The actions' pre-steps, outermost first. */
  function Pres(c: Chain): seq<nat>
  {
    match c
    case Inner => []
    case Transform(inner, _) => Pres(inner)
    case Action(inner, pre) => [pre] + Pres(inner)
  }

  function Ran(pres: seq<nat>): seq<Event>
  {
    seq(|pres|, i requires 0 <= i < |pres| => PreRan(pres[i]))
  }

  /** Mapping with no function at all keeps the request. */
  lemma MapRequestIdentity(req: Request)
    ensures MapRequest(Compose([]), req) == req
  {
    match req
    case Range(vs) =>
      assert Map(Compose([]), vs) == vs;
    case RangeWith(vs, _) =>
      assert Map(Compose([]), vs) == vs;
    case _ =>
  }

  /** Mapping with `f`, then with a stack of functions, is mapping with the stack
    * that has `f` outermost. */
  lemma MapRequestCompose(f: int -> int, fs: seq<int -> int>, req: Request)
    ensures MapRequest(Compose(fs), MapRequest(f, req)) == MapRequest(Compose([f] + fs), req)
  {
    forall x
      ensures Compose([f] + fs)(x) == Compose(fs)(f(x))
    {
      ApplyAllAppend([f], fs, x);
    }
    match req
    case Value(v) =>
      assert Compose([f] + fs)(v) == Compose(fs)(f(v));
    case ValueWith(v, _) =>
      assert Compose([f] + fs)(v) == Compose(fs)(f(v));
    case Range(vs) =>
      MapMap(f, Compose(fs), Compose([f] + fs), vs);
    case RangeWith(vs, _) =>
      MapMap(f, Compose(fs), Compose([f] + fs), vs);
  }

  /** `write`, every overload: an action runs its pre-step and forwards the request
    * unchanged; a transform forwards it mapped by its function; the inner stream
    * records it. */
  method Write(c: Chain, req: Request, rec: Recorder)
    modifies rec
    ensures rec.events == old(rec.events) + Ran(Pres(c)) + [Received(MapRequest(Compose(Transforms(c)), req))]
    decreases c
  {
    match c
    case Inner =>
      MapRequestIdentity(req);
      rec.events := rec.events + [Received(req)];
    case Transform(inner, f) =>
      MapRequestCompose(f, Transforms(inner), req);
      Write(inner, MapRequest(f, req), rec);
    case Action(inner, pre) =>
      rec.events := rec.events + [PreRan(pre)];
      Write(inner, req, rec);
      assert Ran([pre] + Pres(inner)) == [PreRan(pre)] + Ran(Pres(inner));
  }

  // ------------------------------------------------------------------ reading

  /** Only transforms read: an action has no read. */
  predicate Readable(c: Chain)
  {
    match c
    case Inner => true
    case Transform(inner, _) => Readable(inner)
    case Action(_, _) => false
  }

  /** `read()`: the function applied to what the inner stream's read returns. */
  function ReadValue(c: Chain, x: int): int
    requires Readable(c)
  {
    match c
    case Inner => x
    case Transform(inner, f) => f(ReadValue(inner, x))
  }

  /** `read(r)`: the inner stream reads into the destination seen through a
    * transform output view. */
  function ReadInto(c: Chain, d: Dest): (r: Dest)
    requires Readable(c)
    ensures c.Transform? ==> r.TransformView?
  {
    match c
    case Inner => d
    case Transform(inner, f) => ReadInto(inner, TransformView(f, d))
  }

  /** A range read stores, element by element, what a single read would return for
    * each value the inner stream produces. */
  lemma {:induction false} RangeReadIsValueRead(c: Chain, d: Dest, vs: seq<int>)
    requires Readable(c)
    ensures Deliver(ReadInto(c, d), vs) == Deliver(d, Map(x => ReadValue(c, x), vs))
  {
    match c
    case Inner =>
      assert Map(x => ReadValue(c, x), vs) == vs;
    case Transform(inner, f) =>
      RangeReadIsValueRead(inner, TransformView(f, d), vs);
      MapMap(x => ReadValue(inner, x), f, x => ReadValue(c, x), vs);
  }

  // ---------------------------------------------------------------- scenarios

  /** Writes through a transform adding one: 1 arrives as 2, [1, 2] as [2, 3],
    * [1, 2, 3] as [2, 3, 4], and a range with a token keeps the token. */
  method TransformScenario() returns (events: seq<Event>)
    ensures events == [Received(Value(2)), Received(Range([2, 3])), Received(Range([2, 3, 4])), Received(RangeWith([2, 3], 7))]
  {
    var addOne := Transform(Inner, x => x + 1);
    var g := Compose(Transforms(addOne));
    forall x ensures g(x) == x + 1 {
      var fs := Transforms(addOne);
      assert fs[1..] == [] && ApplyAll(fs, x) == ApplyAll(fs[1..], fs[0](x));
    }
    assert Map(g, [1, 2]) == [2, 3];
    assert Map(g, [1, 2, 3]) == [2, 3, 4];
    var rec := new Recorder();
    Write(addOne, Value(1), rec);
    Write(addOne, Range([1, 2]), rec);
    Write(addOne, Range([1, 2, 3]), rec);
    Write(addOne, RangeWith([1, 2], 7), rec);
    events := rec.events;
  }

  /** Reads through a transform adding one: 1 reads as 2, a range read of [1, 2]
    * stores [2, 3]. */
  lemma ReadScenario()
    ensures ReadValue(Transform(Inner, x => x + 1), 1) == 2
    ensures Deliver(ReadInto(Transform(Inner, x => x + 1), Buffer), [1, 2]) == [2, 3]
  {
    var c := Transform(Inner, x => x + 1);
    RangeReadIsValueRead(c, Buffer, [1, 2]);
    assert Map(x => ReadValue(c, x), [1, 2]) == [2, 3];
  }

  /** An action before a write: writing 2 runs the pre-step once and then writes 2;
    * writing the range [2, 3] also runs it exactly once. */
  method ActionScenario() returns (events: seq<Event>)
    ensures events == [PreRan(0), Received(Value(2)), PreRan(0), Received(Range([2, 3]))]
  {
    var act := Action(Inner, 0);
    assert Map(Compose([]), [2, 3]) == [2, 3];
    var rec := new Recorder();
    Write(act, Value(2), rec);
    Write(act, Range([2, 3]), rec);
    events := rec.events;
  }

  /** Nested actions run the outer pre-step, then the inner one, then the write;
    * an action over a transform adding one runs its pre-step once and writes 2. */
  method NestedScenario() returns (nested: seq<Event>, mixed: seq<Event>)
    ensures nested == [PreRan(2), PreRan(1), Received(Value(2))]
    ensures mixed == [PreRan(0), Received(Value(2))]
  {
    var rec := new Recorder();
    Write(Action(Action(Inner, 1), 2), Value(2), rec);
    nested := rec.events;
    var mixedChain := Action(Transform(Inner, x => x + 1), 0);
    assert Compose(Transforms(mixedChain))(1) == 2;
    var rec2 := new Recorder();
    Write(mixedChain, Value(1), rec2);
    mixed := rec2.events;
  }
}
