/** The demultiplex combinator (libstream/demultiplex.hpp): one write goes to two
  * write streams in turn. Its sender is a small state machine that submits the
  * second stream's sender only when the first one's completes, and routes a cancel
  * to whichever of the two is running. Demultiplexes nest: a child is a sender of
  * an inner stream or another demultiplex context. */
module Demultiplex {
  import opened Capabilities
  import opened Contexts
  import opened Leaves

  datatype Child = Writer(sender: nat) | Demux(ctx: DemuxContext)

  /** The token a context hands its first child: the caller's error and
    * cancellation callbacks, and the context's own done handler. */
  function Relay(t: Token, ctx: nat): Token
  {
    Token(t.error, t.cancelled, DemuxHandler(ctx))
  }

  /** The contexts a child consists of. */
  ghost function Footprint(c: Child): set<DemuxContext>
  {
    if c.Demux? then {c.ctx} + c.ctx.Nested else {}
  }

  ghost predicate Ready(c: Child, log: Log)
  {
    c.Demux? ==> c.ctx.Valid() && c.ctx.log == log
  }

  /** `detail::write_context`. */
  class DemuxContext {
    const id: nat
    const first: Child
    const second: Child
    const log: Log
    ghost const Nested: set<DemuxContext>
    ghost const height: nat
    var doneToken: Token
    var firstChild: bool
    /** Whether a submit has happened: `first_child_` has no value before one. */
    ghost var armed: bool

    ghost predicate Valid()
      decreases height
    {
      this !in Nested &&
      Nested == Footprint(first) + Footprint(second) &&
      Footprint(first) !! Footprint(second) &&
      (first.Demux? ==> first.ctx.height < height && first.ctx.log == log && first.ctx.Valid()) &&
      (second.Demux? ==> second.ctx.height < height && second.ctx.log == log && second.ctx.Valid())
    }

    /** The running child, and recursively its running child, have been submitted. */
    ghost predicate Live()
      reads this, Nested
      requires Valid()
      decreases height
    {
      armed && var c := if firstChild then first else second; c.Demux? ==> c.ctx.Live()
    }

    constructor (id: nat, first: Child, second: Child, log: Log)
      requires Ready(first, log) && Ready(second, log)
      requires Footprint(first) !! Footprint(second)
      ensures Valid() && !armed
      ensures this.id == id && this.first == first && this.second == second && this.log == log
    {
      this.id := id;
      this.first := first;
      this.second := second;
      this.log := log;
      Nested := Footprint(first) + Footprint(second);
      height := 1 + (if first.Demux? then first.ctx.height else 0) + (if second.Demux? then second.ctx.height else 0);
      doneToken := Token(Caller(0), Caller(0), Caller(0));
      firstChild := false;
      armed := false;
    }

    /** `submit()`: the first child, then the second, synchronously. */
    method SubmitSync()
      requires Valid()
      modifies log
      ensures log.events == old(log.events) + SyncOps(Demux(this))
      decreases height, 1
    {
      SubmitChildSync(first);
      SubmitChildSync(second);
    }

    method SubmitChildSync(c: Child)
      requires Valid() && (c == first || c == second)
      modifies log
      ensures log.events == old(log.events) + SyncOps(c)
      decreases height, 0
    {
      match c
      case Writer(s) => log.Append(SubmittedSync(s));
      case Demux(x) => x.SubmitSync();
    }

    /** `submit(t)`: the token is kept for the second child; only the first child is
      * submitted, with the caller's error and cancellation callbacks and this
      * context's done handler. */
    method Submit(t: Token)
      requires Valid()
      modifies this, Nested, log
      ensures doneToken == t && firstChild && Live()
      ensures log.events == old(log.events) + [Start(first, Relay(t, id))]
      ensures first.Demux? ==> first.ctx.doneToken == Relay(t, id)
      ensures forall x :: x in Footprint(second) ==> unchanged(x)
      decreases height, 1
    {
      doneToken := t;
      firstChild := true;
      armed := true;
      SubmitChild(first, Relay(t, id));
    }

    method SubmitChild(c: Child, t: Token)
      requires Valid() && (c == first || c == second)
      modifies Footprint(c), log
      ensures log.events == old(log.events) + [Start(c, t)]
      ensures c.Demux? ==> c.ctx.doneToken == t && c.ctx.firstChild && c.ctx.Live()
      decreases height, 0
    {
      match c
      case Writer(s) => log.Append(Submitted(s, t));
      case Demux(x) => x.Submit(t);
    }

    /** `done_handler()`: the first child completed; the second child is submitted
      * with the caller's token, so the caller's `done` fires only when the second
      * child's does. */
    method DoneHandler()
      requires Valid() && armed
      modifies this, Nested, log
      ensures !firstChild && doneToken == old(doneToken) && Live()
      ensures log.events == old(log.events) + [Start(second, old(doneToken))]
      ensures second.Demux? ==> second.ctx.doneToken == old(doneToken)
      ensures forall x :: x in Footprint(first) ==> unchanged(x)
    {
      firstChild := false;
      SubmitChild(second, doneToken);
    }

    /** `cancel()`: to the first child while it runs, to the second afterwards. */
    method Cancel()
      requires Valid() && Live()
      modifies log
      ensures log.events == old(log.events) + [CancelOf(Demux(this))]
      decreases height, 1
    {
      CancelChild(if firstChild then first else second);
    }

    method CancelChild(c: Child)
      requires Valid() && Live() && c == (if firstChild then first else second)
      modifies log
      ensures log.events == old(log.events) + [CancelOf(c)]
      decreases height, 0
    {
      match c
      case Writer(s) => log.Append(CancelSent(s));
      case Demux(x) => x.Cancel();
    }
  }

  /** A child's measure for recursion over the nesting. */
  ghost function Height(c: Child): nat
  {
    if c.Demux? then c.ctx.height + 1 else 0
  }

  /** The inner streams' senders under a child, first stream first. */
  ghost function Senders(c: Child): (r: seq<nat>)
    requires c.Demux? ==> c.ctx.Valid()
    ensures |r| >= 1
    decreases Height(c)
  {
    match c
    case Writer(s) => [s]
    case Demux(x) => Senders(x.first) + Senders(x.second)
  }

  /** The operation submitting a child with token `t` performs: one inner sender,
    * the first under it, is submitted; the caller's error and cancellation
    * callbacks reach it unchanged, and its done callback is the token's own only
    * when the child is an inner sender. */
  ghost function Start(c: Child, t: Token): (op: Op)
    requires c.Demux? ==> c.ctx.Valid()
    ensures op.Submitted? && op.sender == Senders(c)[0]
    ensures op.token.error == t.error && op.token.cancelled == t.cancelled
    ensures c.Writer? ==> op.token == t
    ensures c.Demux? ==> op.token.done.DemuxHandler?
    decreases Height(c)
  {
    match c
    case Writer(s) => Submitted(s, t)
    case Demux(x) => Start(x.first, Relay(t, x.id))
  }

  /** What a synchronous submit of a child performs, in order. */
  ghost function SyncOps(c: Child): seq<Op>
    requires c.Demux? ==> c.ctx.Valid()
    decreases Height(c)
  {
    match c
    case Writer(s) => [SubmittedSync(s)]
    case Demux(x) => SyncOps(x.first) + SyncOps(x.second)
  }

  /** What a cancel of a running child performs: one cancel, reaching one of the
    * inner senders under the child, the one under the running branch. */
  ghost function CancelOf(c: Child): (op: Op)
    reads if c.Demux? then {c.ctx} + c.ctx.Nested else {}
    requires c.Demux? ==> c.ctx.Valid() && c.ctx.Live()
    ensures op.CancelSent? && op.sender in Senders(c)
    ensures c.Demux? && c.ctx.firstChild ==> op.sender in Senders(c.ctx.first)
    ensures c.Demux? && !c.ctx.firstChild ==> op.sender in Senders(c.ctx.second)
    decreases Height(c)
  {
    match c
    case Writer(s) => CancelSent(s)
    case Demux(x) => CancelOf(if x.firstChild then x.first else x.second)
  }

  /** A synchronous submit reaches every inner sender exactly once, left to right. */
  lemma {:induction false} SyncReachesAll(c: Child)
    requires c.Demux? ==> c.ctx.Valid()
    ensures |SyncOps(c)| == |Senders(c)|
    ensures forall i :: 0 <= i < |SyncOps(c)| ==> SyncOps(c)[i] == SubmittedSync(Senders(c)[i])
    decreases Height(c)
  {
    match c
    case Writer(_) =>
    case Demux(x) =>
      SyncReachesAll(x.first);
      SyncReachesAll(x.second);
  }

  // ----------------------------------------------------------------- writing

  /** An inner write stream or a demultiplex of two streams. */
  datatype Tree = Stream(leaf: Leaf) | Demultiplexed(s1: Tree, s2: Tree)

  predicate PureWriters(s: Tree)
  {
    match s
    case Stream(leaf) => PureWriteStreamable(leaf.caps)
    case Demultiplexed(s1, s2) => PureWriters(s1) && PureWriters(s2)
  }

  function Writers(s: Tree): seq<nat>
  {
    match s
    case Stream(leaf) => [leaf.id]
    case Demultiplexed(s1, s2) => Writers(s1) + Writers(s2)
  }

  /** Number of demultiplexes in a tree. */
  function Internal(s: Tree): nat
  {
    match s
    case Stream(_) => 0
    case Demultiplexed(s1, s2) => 1 + Internal(s1) + Internal(s2)
  }

  /** A child has the shape of a tree, with the inner streams' senders at its
    * leaves and its contexts numbered in pre-order from `id`. */
  ghost predicate Mirrors(c: Child, s: Tree, id: nat)
    requires c.Demux? ==> c.ctx.Valid()
    decreases Height(c)
  {
    match c
    case Writer(x) => s.Stream? && x == s.leaf.id
    case Demux(x) =>
      s.Demultiplexed? && x.id == id &&
      Mirrors(x.first, s.s1, id + 1) && Mirrors(x.second, s.s2, id + 1 + Internal(s.s1))
  }

  /** `write(v)` and `write(r)`: every inner stream is called once with the same
    * argument, first stream first, and the senders they return become the children
    * of fresh contexts numbered from `id` on. */
  method Open(s: Tree, call: Call, log: Log, id: nat) returns (c: Child, calls: seq<Delivery>, next: nat)
    requires PureWriters(s) && (call.WriteValue? || call.WriteRange?)
    ensures Ready(c, log) && Mirrors(c, s, id) && Senders(c) == Writers(s)
    ensures next == id + Internal(s)
    ensures |calls| == |Writers(s)|
    ensures forall i :: 0 <= i < |calls| ==> calls[i] == Delivery(Writers(s)[i], call)
    ensures c.Demux? ==> !c.ctx.armed
    ensures forall x :: x in Footprint(c) ==> fresh(x)
  {
    match s
    case Stream(leaf) =>
      c, calls, next := Writer(leaf.id), [Delivery(leaf.id, call)], id;
    case Demultiplexed(s1, s2) =>
      var c1, calls1, n1 := Open(s1, call, log, id + 1);
      var c2, calls2, n2 := Open(s2, call, log, n1);
      var ctx := new DemuxContext(id, c1, c2, log);
      c, calls, next := Demux(ctx), calls1 + calls2, n2;
  }

  // --------------------------------------------------------------- scenarios

  const Writable := Caps(true, false, false)
  const Caller3 := Token(Caller(0), Caller(1), Caller(2))

  /** Writing to a demultiplex of writers 0 and 1: both receive the value (or the
    * range); a synchronous submit reaches 0 then 1; an asynchronous submit reaches
    * writer 0 only, and writer 1, with the caller's own token, once writer 0 is done. */
  method TwoWritersScenario() returns (calls: seq<Delivery>, rangeCalls: seq<Delivery>, sync: seq<Op>, async: seq<Op>)
    ensures calls == [Delivery(0, WriteValue(0)), Delivery(1, WriteValue(0))]
    ensures rangeCalls == [Delivery(0, WriteRange([1, 2])), Delivery(1, WriteRange([1, 2]))]
    ensures sync == [SubmittedSync(0), SubmittedSync(1)]
    ensures async == [Submitted(0, Token(Caller(0), Caller(1), DemuxHandler(0))), Submitted(1, Caller3)]
  {
    var tree := Demultiplexed(Stream(Leaf(0, Writable)), Stream(Leaf(1, Writable)));
    var log := new Log();
    var _, rc, _ := Open(tree, WriteRange([1, 2]), log, 0);
    rangeCalls := rc;
    var c, cs, _ := Open(tree, WriteValue(0), log, 0);
    calls := cs;
    var ctx := c.ctx;
    ctx.SubmitSync();
    sync := log.events;
    ctx.Submit(Caller3);
    ctx.DoneHandler();
    async := log.events[|sync|..];
  }

  /** Cancelling a two-writer demultiplex while writer 0 runs reaches writer 0. */
  method EarlyCancelScenario() returns (events: seq<Op>)
    ensures events == [Submitted(0, Token(Caller(0), Caller(1), DemuxHandler(0))), CancelSent(0)]
  {
    var tree := Demultiplexed(Stream(Leaf(0, Writable)), Stream(Leaf(1, Writable)));
    var log := new Log();
    var c, _, _ := Open(tree, WriteValue(0), log, 0);
    c.ctx.Submit(Caller3);
    c.ctx.Cancel();
    events := log.events;
  }

  /** Cancelling it once writer 0 is done reaches writer 1. */
  method LateCancelScenario() returns (events: seq<Op>)
    ensures events == [Submitted(0, Token(Caller(0), Caller(1), DemuxHandler(0))), Submitted(1, Caller3), CancelSent(1)]
  {
    var tree := Demultiplexed(Stream(Leaf(0, Writable)), Stream(Leaf(1, Writable)));
    var log := new Log();
    var c, _, _ := Open(tree, WriteValue(0), log, 0);
    c.ctx.Submit(Caller3);
    c.ctx.DoneHandler();
    c.ctx.Cancel();
    events := log.events;
  }

  const FourWriters := Demultiplexed(
    Demultiplexed(Stream(Leaf(0, Writable)), Stream(Leaf(1, Writable))),
    Demultiplexed(Stream(Leaf(2, Writable)), Stream(Leaf(3, Writable))))

  /** A demultiplex of two demultiplexes over writers 0 to 3: a synchronous submit
    * reaches them in order. */
  method FourWritersSyncScenario() returns (sync: seq<Op>)
    ensures sync == [SubmittedSync(0), SubmittedSync(1), SubmittedSync(2), SubmittedSync(3)]
  {
    var log := new Log();
    var c, _, _ := Open(FourWriters, WriteValue(0), log, 0);
    SyncReachesAll(c);
    assert Senders(c) == [0, 1, 2, 3];
    c.ctx.SubmitSync();
    sync := log.events;
  }

  /** The same demultiplex, submitted asynchronously: each writer is submitted only
    * when the done handler named in its predecessor's token runs, and only writer 3
    * receives the caller's own token. */
  method FourWritersAsyncScenario() returns (async: seq<Op>)
    ensures async == [
      Submitted(0, Token(Caller(0), Caller(1), DemuxHandler(1))),
      Submitted(1, Token(Caller(0), Caller(1), DemuxHandler(0))),
      Submitted(2, Token(Caller(0), Caller(1), DemuxHandler(2))),
      Submitted(3, Caller3)]
  {
    var tree := FourWriters;
    var log := new Log();
    var c, _, _ := Open(tree, WriteValue(0), log, 0);
    var outer := c.ctx;
    assert Footprint(c) == {outer} + outer.Nested;
    var left, right := outer.first.ctx, outer.second.ctx;
    assert Mirrors(outer.first, tree.s1, 1) && Mirrors(outer.second, tree.s2, 2);
    assert left.Valid() && right.Valid();
    assert Mirrors(left.first, tree.s1.s1, 2) && Mirrors(left.second, tree.s1.s2, 2);
    assert Mirrors(right.first, tree.s2.s1, 3) && Mirrors(right.second, tree.s2.s2, 3);
    assert left.first == Writer(0) && left.second == Writer(1) && left.id == 1;
    assert right.first == Writer(2) && right.second == Writer(3) && right.id == 2;
    outer.Submit(Caller3);
    left.DoneHandler();
    outer.DoneHandler();
    right.DoneHandler();
    async := log.events;
  }
}
