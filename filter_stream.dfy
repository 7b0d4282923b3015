/** The filter combinator (libstream/filter.hpp). Writes of rejected values are
  * elided; range writes pass only accepted values on; reads retry until a value is
  * accepted; range reads see the caller's buffer through a filter output view.
  * Stacks of filters are values whose innermost part is an inner stream. */
module FilterStream {
  import opened Sequences
  import opened Capabilities
  import opened Contexts
  import opened Leaves
  import OutputFilter

  // ------------------------------------------------------------------ writing

  /** An inner stream, or `filter_write` over a write stream. */
  datatype Writer = Plain(leaf: Leaf) | Filtered(inner: Writer, keep: int -> bool)

  function Innermost(w: Writer): Leaf
  {
    match w
    case Plain(leaf) => leaf
    case Filtered(inner, _) => Innermost(inner)
  }

  /** Every filter of the stack accepts `v`. */
  predicate Passes(w: Writer, v: int)
  {
    match w
    case Plain(_) => true
    case Filtered(inner, keep) => keep(v) && Passes(inner, v)
  }

  /** `write(v)`: when every filter accepts, the inner stream's `write(v)` is called
    * with the same value and its sender is what submit and cancel reach; otherwise
    * no inner stream is called and the sender is the empty write. */
  function Write(w: Writer, v: int): (r: Issued)
    ensures r.calls == if Passes(w, v) then [Delivery(Innermost(w).id, WriteValue(v))] else []
    ensures Target(r.sender) == if Passes(w, v) then Sender(Innermost(w).id) else EmptyWrite
  {
    match w
    case Plain(leaf) => Issued(Sender(leaf.id), [Delivery(leaf.id, WriteValue(v))])
    case Filtered(inner, keep) =>
      if keep(v) then
        var r := Write(inner, v);
        Issued(WriteFilter(false, r.sender), r.calls)
      else
        Issued(WriteFilter(true, EmptyWrite), [])
  }

  /** `write(r)`: the inner stream receives exactly the accepted values, in order,
    * in one range write, and the sender forwards to its sender. */
  function WriteAll(w: Writer, vs: seq<int>): (r: Issued)
    ensures r.calls == [Delivery(Innermost(w).id, WriteRange(Filter(x => Passes(w, x), vs)))]
    ensures Target(r.sender) == Sender(Innermost(w).id)
  {
    match w
    case Plain(leaf) =>
      KeepAll(vs);
      FilterSamePredicate(_ => true, x => Passes(w, x), vs);
      Issued(Sender(leaf.id), [Delivery(leaf.id, WriteRange(vs))])
    case Filtered(inner, keep) =>
      var r := WriteAll(inner, Filter(keep, vs));
      FilterFilter(x => Passes(inner, x), keep, x => Passes(w, x), vs);
      Issued(BaseRange(r.sender), r.calls)
  }

  /** `readwrite(rin, rout)`: the written range is filtered, the read destination
    * passes through unchanged. */
  function ReadWrite(w: Writer, rin: seq<int>, rout: Dest): (r: Issued)
    requires ReadWriteStreamable(Innermost(w).caps)
    ensures r.calls == [Delivery(Innermost(w).id, ReadWriteRange(Filter(x => Passes(w, x), rin), rout))]
    ensures Target(r.sender) == Sender(Innermost(w).id)
  {
    match w
    case Plain(leaf) =>
      KeepAll(rin);
      FilterSamePredicate(_ => true, x => Passes(w, x), rin);
      Issued(Sender(leaf.id), [Delivery(leaf.id, ReadWriteRange(rin, rout))])
    case Filtered(inner, keep) =>
      var r := ReadWrite(inner, Filter(keep, rin), rout);
      FilterFilter(x => Passes(inner, x), keep, x => Passes(w, x), rin);
      Issued(BaseRange(r.sender), r.calls)
  }

  // ------------------------------------------------------------------ reading

  /** An inner stream, or `filter_read` over a read stream. */
  datatype Reader = PlainReader(leaf: Leaf) | FilteredReader(inner: Reader, keep: int -> bool)

  function Source(r: Reader): Leaf
  {
    match r
    case PlainReader(leaf) => leaf
    case FilteredReader(inner, _) => Source(inner)
  }

  /** The predicates of the stack, outermost first. */
  function Layers(r: Reader): (ps: seq<int -> bool>)
    ensures r.FilteredReader? ==> |ps| >= 1
  {
    match r
    case PlainReader(_) => []
    case FilteredReader(inner, keep) => [keep] + Layers(inner)
  }

  /** `read(r)`: one range read on the inner stream, into a destination that is the
    * caller's seen through one filter view per layer; the sender forwards to the
    * inner stream's sender. */
  function ReadInto(r: Reader, d: Dest): (res: Issued)
    requires PureReadStreamable(Source(r).caps)
    ensures |res.calls| == 1 && res.calls[0].stream == Source(r).id && res.calls[0].call.ReadRange?
    ensures Target(res.sender) == Sender(Source(r).id)
  {
    match r
    case PlainReader(leaf) => Issued(Sender(leaf.id), [Delivery(leaf.id, ReadRange(d))])
    case FilteredReader(inner, keep) =>
      var res := ReadInto(inner, FilterView(keep, d));
      Issued(BaseRange(res.sender), res.calls)
  }

  /** `readwrite(rin, rout)`: the written range passes unchanged, the read
    * destination is wrapped in one filter view per layer. */
  function ReadWriteInto(r: Reader, rin: seq<int>, d: Dest): (res: Issued)
    requires ReadWriteStreamable(Source(r).caps)
    ensures |res.calls| == 1 && res.calls[0].stream == Source(r).id
    ensures res.calls[0].call.ReadWriteRange? && res.calls[0].call.input == rin
    ensures Target(res.sender) == Sender(Source(r).id)
  {
    match r
    case PlainReader(leaf) => Issued(Sender(leaf.id), [Delivery(leaf.id, ReadWriteRange(rin, d))])
    case FilteredReader(inner, keep) =>
      var res := ReadWriteInto(inner, rin, FilterView(keep, d));
      Issued(BaseRange(res.sender), res.calls)
  }

  /** The destination a range read hands on keeps, of whatever the inner stream
    * delivers, exactly the values every layer accepts. */
  lemma {:induction false} ReadRangeKeepsAccepted(r: Reader, d: Dest, vs: seq<int>)
    requires PureReadStreamable(Source(r).caps)
    ensures Deliver(ReadInto(r, d).calls[0].call.into, vs) == Deliver(d, Filter(Conj(Layers(r)), vs))
  {
    match r
    case PlainReader(_) =>
      KeepAll(vs);
      FilterSamePredicate(_ => true, Conj(Layers(r)), vs);
    case FilteredReader(inner, keep) =>
      ReadRangeKeepsAccepted(inner, FilterView(keep, d), vs);
      forall x
        ensures Conj(Layers(r))(x) == (keep(x) && Conj(Layers(inner))(x))
      {
        AllCons(keep, Layers(inner), x);
      }
      FilterFilter(keep, Conj(Layers(inner)), Conj(Layers(r)), vs);
  }

  /** Same for the read side of `readwrite(rin, rout)`. */
  lemma {:induction false} ReadWriteKeepsAccepted(r: Reader, rin: seq<int>, d: Dest, vs: seq<int>)
    requires ReadWriteStreamable(Source(r).caps)
    ensures Deliver(ReadWriteInto(r, rin, d).calls[0].call.into, vs) == Deliver(d, Filter(Conj(Layers(r)), vs))
  {
    match r
    case PlainReader(_) =>
      KeepAll(vs);
      FilterSamePredicate(_ => true, Conj(Layers(r)), vs);
    case FilteredReader(inner, keep) =>
      ReadWriteKeepsAccepted(inner, rin, FilterView(keep, d), vs);
      forall x
        ensures Conj(Layers(r))(x) == (keep(x) && Conj(Layers(inner))(x))
      {
        AllCons(keep, Layers(inner), x);
      }
      FilterFilter(keep, Conj(Layers(inner)), Conj(Layers(r)), vs);
  }

  /** An inner stream writing `vs` element by element into a destination made of
    * filter views, through one filter output iterator: the buffer receives what
    * `Deliver` says. The element write is unchecked, so what arrives must fit. */
  method Fill(into: Dest, vs: seq<int>, buffer: array<int>)
    requires OnlyFilters(into)
    requires |Deliver(into, vs)| <= buffer.Length
    modifies buffer
    ensures buffer[..] == Overwrite(old(buffer[..]), 0, Deliver(into, vs))
  {
    DeliverThroughFilters(into, vs);
    var it := new OutputFilter.FilterIterator.Begin(buffer, FilterLayers(into));
    OutputFilter.CopyUnbounded(vs, it);
  }

  // ------------------------------------------------------- read filter context

  /** The token a layer hands to its child: the caller's error and cancellation
    * callbacks, and the layer's own done handler. */
  function Relay(t: Token, ctx: nat, layer: nat): Token
  {
    Token(t.error, t.cancelled, FilterHandler(ctx, layer))
  }

  /** `read_filter_context`, for a stack of filter reads over one inner sender:
    * layer 0 is the context the caller submits, the last layer submits `child`;
    * `tokens[k]` is layer k's stored `token_`. */
  class ReadFilterContext {
    const id: nat
    const child: nat
    const preds: seq<int -> bool>
    const log: Log
    var tokens: seq<Token>

    ghost predicate Valid()
      reads this
    {
      |preds| >= 1 && |tokens| == |preds|
    }

    /** After a submit: each layer's token is its parent layer's relay. */
    ghost predicate Armed()
      reads this
    {
      Valid() && forall k :: 0 < k < |tokens| ==> tokens[k] == Relay(tokens[0], id, k - 1)
    }

    /** The token the inner sender holds: the caller's error and cancellation
      * callbacks reach it unchanged. */
    function LeafToken(): (t: Token)
      reads this
      requires Valid()
      ensures Armed() ==> t == Relay(tokens[0], id, |preds| - 1)
    {
      Relay(tokens[|tokens| - 1], id, |tokens| - 1)
    }

    constructor (id: nat, child: nat, preds: seq<int -> bool>, log: Log)
      requires |preds| >= 1
      ensures Valid() && this.id == id && this.child == child && this.preds == preds && this.log == log
    {
      this.id := id;
      this.child := child;
      this.preds := preds;
      this.log := log;
      tokens := seq(|preds|, _ => Token(Caller(0), Caller(0), Caller(0)));
    }

    /** `submit(t)`: the token is stored and the inner sender is submitted once,
      * with a token whose error and cancellation callbacks are the caller's. */
    method Submit(t: Token)
      requires Valid()
      modifies this`tokens, log
      ensures Armed() && tokens[0] == t
      ensures log.events == old(log.events) + [Submitted(child, Relay(t, id, |preds| - 1))]
    {
      SubmitLayer(0, t);
    }

    /** `submit(t)` of layer k. */
    method SubmitLayer(k: nat, t: Token)
      requires Valid() && k < |preds|
      requires k > 0 ==> t == Relay(tokens[0], id, k - 1)
      requires forall j :: 0 < j < k ==> tokens[j] == Relay(tokens[0], id, j - 1)
      modifies this`tokens, log
      ensures Armed()
      ensures tokens[0] == if k == 0 then t else old(tokens[0])
      ensures tokens[..k] == old(tokens[..k])
      ensures log.events == old(log.events) + [Submitted(child, LeafToken())]
      decreases |preds| - k, 1
    {
      tokens := tokens[k := t];
      SubmitInternal(k);
    }

    /** `submit_internal()` of layer k: its child is submitted with its relay. */
    method SubmitInternal(k: nat)
      requires Valid() && k < |preds|
      requires forall j :: 0 < j <= k ==> tokens[j] == Relay(tokens[0], id, j - 1)
      modifies this`tokens, log
      ensures Armed()
      ensures tokens[..k + 1] == old(tokens[..k + 1])
      ensures log.events == old(log.events) + [Submitted(child, LeafToken())]
      decreases |preds| - k, 0
    {
      var relay := Relay(tokens[k], id, k);
      if k + 1 < |preds| {
        SubmitLayer(k + 1, relay);
      } else {
        log.Append(Submitted(child, relay));
      }
    }

    /** `done_handler(v)` of layer k: an accepted value goes to the layer's token
      * (the caller's `done` for layer 0, the parent layer's handler otherwise); a
      * rejected one re-submits the child. Either way the tokens stay as they were. */
    method DoneHandler(k: nat, v: int)
      requires Armed() && k < |preds|
      modifies this`tokens, log
      ensures Armed() && tokens == old(tokens)
      ensures log.events == old(log.events) +
        if All(preds[..k + 1], v) then [Invoked(tokens[0].done, DoneWith(v))] else [Submitted(child, LeafToken())]
      decreases k
    {
      if preds[k](v) {
        if k == 0 {
          log.Append(Invoked(tokens[0].done, DoneWith(v)));
        } else {
          DoneHandler(k - 1, v);
        }
        AllSnoc(preds, k, v);
      } else {
        SubmitInternal(k);
        forall j | 0 <= j < |tokens| ensures tokens[j] == old(tokens[j]) {
          if j > k { assert tokens[j] == Relay(tokens[0], id, j - 1); }
          else { assert tokens[..k + 1][j] == tokens[j]; }
        }
        assert preds[..k + 1][k] == preds[k];
      }
    }

    /** The inner sender completes with `v`: the caller's `done` fires with `v`
      * when every layer accepts it; otherwise the inner sender is submitted again
      * with the same token. */
    method InnerDone(v: int)
      requires Armed()
      modifies this`tokens, log
      ensures Armed() && tokens == old(tokens)
      ensures log.events == old(log.events) +
        if All(preds, v) then [Invoked(tokens[0].done, DoneWith(v))] else [Submitted(child, LeafToken())]
    {
      DoneHandler(|preds| - 1, v);
      assert preds[..|preds|] == preds;
    }

    /** `cancel()`: forwarded, layer by layer, to the inner sender. */
    method Cancel()
      requires Valid()
      modifies log
      ensures log.events == old(log.events) + [CancelSent(child)]
    {
      log.Append(CancelSent(child));
    }

    /** `submit()`: submits the inner sender synchronously until every layer
      * accepts; `results` are the inner sender's successive results. Returns the
      * first accepted one and how many inner submits it took. */
    method SubmitSync(results: seq<int>) returns (value: int, submits: nat)
      requires Valid()
      requires exists j :: 0 <= j < |results| && All(preds, results[j])
      ensures 0 < submits <= |results| && value == results[submits - 1] && All(preds, value)
      ensures forall j :: 0 <= j < submits - 1 ==> !All(preds, results[j])
    {
      assert preds[0..] == preds;
      value, submits := SyncLayer(0, results, 0);
    }

    /** The synchronous loop of layer k, starting at the inner sender's result
      * number `from`; the layer past the last is the inner sender itself. */
    method SyncLayer(k: nat, results: seq<int>, from: nat) returns (value: int, next: nat)
      requires k <= |preds| && from < |results|
      requires exists j :: from <= j < |results| && All(preds[k..], results[j])
      ensures from < next <= |results| && value == results[next - 1] && All(preds[k..], value)
      ensures forall j :: from <= j < next - 1 ==> !All(preds[k..], results[j])
      decreases |preds| - k
    {
      if k == |preds| {
        return results[from], from + 1;
      }
      ghost var w :| from <= w < |results| && All(preds[k..], results[w]);
      var pos := from;
      while true
        invariant from <= pos <= w
        invariant forall j :: from <= j < pos ==> !All(preds[k..], results[j])
        decreases w - pos
      {
        AllTail(preds, k, results[w]);
        value, next := SyncLayer(k + 1, results, pos);
        AllTail(preds, k, value);
        if preds[k](value) {
          return;
        }
        forall j | pos <= j < next ensures !All(preds[k..], results[j]) {
          AllTail(preds, k, results[j]);
        }
        pos := next;
      }
    }
  }

  /** `read()`: the inner stream's `read()` is called once and its sender is wrapped
    * in one read filter context layer per filter. */
  method OpenRead(r: Reader, id: nat, log: Log) returns (ctx: ReadFilterContext, call: Delivery)
    requires r.FilteredReader? && PureReadStreamable(Source(r).caps)
    ensures fresh(ctx) && ctx.Valid() && ctx.id == id && ctx.log == log
    ensures ctx.child == Source(r).id && ctx.preds == Layers(r)
    ensures call == Delivery(Source(r).id, ReadValue)
  {
    ctx := new ReadFilterContext(id, Source(r).id, Layers(r), log);
    call := Delivery(Source(r).id, ReadValue);
  }

  /** `readwrite(v)`: the value is written unfiltered; what is read back is filtered
    * as for `read()`. */
  method OpenReadWrite(r: Reader, v: int, id: nat, log: Log) returns (ctx: ReadFilterContext, call: Delivery)
    requires r.FilteredReader? && ReadWriteStreamable(Source(r).caps)
    ensures fresh(ctx) && ctx.Valid() && ctx.id == id && ctx.log == log
    ensures ctx.child == Source(r).id && ctx.preds == Layers(r)
    ensures call == Delivery(Source(r).id, ReadWriteValue(v))
  {
    ctx := new ReadFilterContext(id, Source(r).id, Layers(r), log);
    call := Delivery(Source(r).id, ReadWriteValue(v));
  }

  // ---------------------------------------------------------------- scenarios

  const Writable := Caps(true, false, false)
  const Readable := Caps(false, true, false)
  const ReadWritable := Caps(true, true, true)

  /** A writer filtering 0: writing 0 calls nothing and completes at once, writing 1
    * delegates, a range write passes on the non-zero values. */
  lemma WriteScenario(t: Token)
    ensures var w := Filtered(Plain(Leaf(0, Writable)), x => x != 0);
      Write(w, 0).calls == [] && SubmitSync(Write(w, 0).sender) == [] &&
      SubmitAsync(Write(w, 0).sender, t) == [Invoked(t.done, Done)] &&
      Write(w, 1).calls == [Delivery(0, WriteValue(1))] &&
      SubmitAsync(Write(w, 1).sender, t) == [Submitted(0, t)] &&
      Cancel(Write(w, 1).sender) == [CancelSent(0)] &&
      WriteAll(w, [0, 1, 2, 0]).calls == [Delivery(0, WriteRange([1, 2]))]
  {
    var w := Filtered(Plain(Leaf(0, Writable)), x => x != 0);
    var p := x => Passes(w, x);
    assert !p(0) && p(1) && p(2);
    assert Filter(p, [0, 1, 2, 0]) == [1, 2] by {
      assert [0, 1, 2, 0][..3] == [0, 1, 2];
      assert [0, 1, 2][..2] == [0, 1];
      assert [0, 1][..1] == [0];
    }
  }

  /** A read-write stream under a write filter: `readwrite` passes on the non-zero
    * values and hands the read destination over untouched. */
  lemma ReadWriteScenario()
    ensures var w := Filtered(Plain(Leaf(0, ReadWritable)), x => x != 0);
      ReadWrite(w, [0, 1, 2, 0], Buffer).calls == [Delivery(0, ReadWriteRange([1, 2], Buffer))]
  {
    var w := Filtered(Plain(Leaf(0, ReadWritable)), x => x != 0);
    var p := x => Passes(w, x);
    assert !p(0) && p(1) && p(2);
    assert Filter(p, [0, 1, 2, 0]) == [1, 2] by {
      assert [0, 1, 2, 0][..3] == [0, 1, 2];
      assert [0, 1, 2][..2] == [0, 1];
      assert [0, 1][..1] == [0];
    }
  }

  /** Filtering `>= 1` under filtering `<= 4`: 0 and 5 are elided, 3 is written, and
    * of the range [0, 5, 3] only 3 is written. */
  lemma DoubleWriteScenario()
    ensures var w := Filtered(Filtered(Plain(Leaf(0, Writable)), x => x >= 1), x => x <= 4);
      Write(w, 0).calls == [] && Write(w, 5).calls == [] &&
      Write(w, 3).calls == [Delivery(0, WriteValue(3))] &&
      WriteAll(w, [0, 5, 3]).calls == [Delivery(0, WriteRange([3]))]
  {
    var w := Filtered(Filtered(Plain(Leaf(0, Writable)), x => x >= 1), x => x <= 4);
    var p := x => Passes(w, x);
    assert !p(0) && !p(5) && p(3);
    assert Filter(p, [0, 5, 3]) == [3] by {
      assert [0, 5, 3][..2] == [0, 5];
      assert [0, 5][..1] == [0];
    }
  }

  /** An inner stream that produces `delivered` for a range read into a destination
    * of filter views over a zeroed buffer of `n` slots. */
  method ReadIntoZeroed(into: Dest, delivered: seq<int>, n: nat) returns (stored: seq<int>)
    requires OnlyFilters(into) && |Deliver(into, delivered)| <= n
    ensures stored == Deliver(into, delivered) + seq(n - |Deliver(into, delivered)|, _ => 0)
  {
    var a := new int[n](_ => 0);
    ghost var zeros := a[..];
    Fill(into, delivered, a);
    stored := a[..];
    assert stored == Deliver(into, delivered) + seq(n - |Deliver(into, delivered)|, _ => 0);
  }

  /** A range read through a filter of 0: [1, 0, 2] read into [0, 0] leaves [1, 2]. */
  method ReadRangeScenario() returns (stored: seq<int>)
    ensures stored == [1, 2]
  {
    var nonZero := x => x != 0;
    var r := FilteredReader(PlainReader(Leaf(0, Readable)), nonZero);
    var into := ReadInto(r, Buffer).calls[0].call.into;
    assert into == FilterView(nonZero, Buffer);
    assert nonZero(1) && !nonZero(0) && nonZero(2);
    assert Filter(nonZero, [1, 0, 2]) == [1, 2] by {
      assert [1, 0, 2][..2] == [1, 0];
      assert [1, 0][..1] == [1];
    }
    stored := ReadIntoZeroed(into, [1, 0, 2], 2);
  }

  /** `readwrite` through a read filter of 0: [0, 1, 2, 0] is written unfiltered and
    * reading back [0, 3, 0, 4] into [0, 0] leaves [3, 4]. */
  method ReadWriteRangeScenario() returns (written: seq<int>, stored: seq<int>)
    ensures written == [0, 1, 2, 0] && stored == [3, 4]
  {
    var nonZero := x => x != 0;
    var rw := FilteredReader(PlainReader(Leaf(0, ReadWritable)), nonZero);
    var issued := ReadWriteInto(rw, [0, 1, 2, 0], Buffer);
    assert issued.calls[0].call == ReadWriteRange([0, 1, 2, 0], FilterView(nonZero, Buffer));
    assert !nonZero(0) && nonZero(3) && nonZero(4);
    assert Filter(nonZero, [0, 3, 0, 4]) == [3, 4] by {
      assert [0, 3, 0, 4][..3] == [0, 3, 0];
      assert [0, 3, 0][..2] == [0, 3];
      assert [0, 3][..1] == [0];
    }
    written := issued.calls[0].call.input;
    stored := ReadIntoZeroed(issued.calls[0].call.into, [0, 3, 0, 4], 2);
  }

  /** Two filter views, the outer keeping 3 and 5 but not 0, the inner keeping 3
    * but not 5: of [0, 5, 3] only 3 arrives. */
  lemma DoubleFilterDelivers(outer: int -> bool, inner: int -> bool)
    requires !outer(0) && outer(5) && outer(3) && !inner(5) && inner(3)
    ensures Deliver(FilterView(outer, FilterView(inner, Buffer)), [0, 5, 3]) == [3]
  {
    assert Filter(outer, [0, 5, 3]) == [5, 3] by {
      assert [0, 5, 3][..2] == [0, 5];
      assert [0, 5][..1] == [0];
    }
    assert Filter(inner, [5, 3]) == [3] by {
      assert [5, 3][..1] == [5];
    }
    assert Deliver(FilterView(outer, FilterView(inner, Buffer)), [0, 5, 3]) == Deliver(FilterView(inner, Buffer), [5, 3]);
  }

  /** A range read through `>= 1` under `<= 4`: [0, 5, 3] read into [0] leaves [3]. */
  method DoubleReadRangeScenario() returns (stored: seq<int>)
    ensures stored == [3]
  {
    var atLeastOne := x => x >= 1;
    var atMostFour := x => x <= 4;
    var r := FilteredReader(FilteredReader(PlainReader(Leaf(0, Readable)), atLeastOne), atMostFour);
    var into := ReadInto(r, Buffer).calls[0].call.into;
    assert into == FilterView(atLeastOne, FilterView(atMostFour, Buffer));
    DoubleFilterDelivers(atLeastOne, atMostFour);
    stored := ReadIntoZeroed(into, [0, 5, 3], 1);
  }

  /** Synchronous reads: through a filter of 0 the inner results 0, 1 give 1; through
    * `>= 1` under `<= 4` the results 0, 1 give 1, the results 5, 4 give 4, and 3
    * gives 3 at the first inner submit. */
  method SyncReadScenario() returns (one: int, oneTwice: int, four: int, three: int, threeSubmits: nat)
    ensures one == 1 && oneTwice == 1 && four == 4 && three == 3 && threeSubmits == 1
  {
    var log := new Log();
    var single, _ := OpenRead(FilteredReader(PlainReader(Leaf(0, Readable)), x => x != 0), 1, log);
    assert All(single.preds, [0, 1][1]);
    var n1, n2, n3;
    one, n1 := single.SubmitSync([0, 1]);
    assert !All(single.preds, 0) by { assert !single.preds[0](0); }

    var double, _ := OpenRead(FilteredReader(FilteredReader(PlainReader(Leaf(0, Readable)), x => x >= 1), x => x <= 4), 2, log);
    assert double.preds[0](1) && double.preds[1](1) && double.preds[0](4) && double.preds[1](4);
    assert double.preds[0](3) && double.preds[1](3);
    assert !double.preds[1](0) && !double.preds[0](5);
    assert All(double.preds, [0, 1][1]);
    oneTwice, n2 := double.SubmitSync([0, 1]);
    assert All(double.preds, [5, 4][1]);
    four, n3 := double.SubmitSync([5, 4]);
    assert All(double.preds, [3][0]);
    three, threeSubmits := double.SubmitSync([3]);
  }

  /** An asynchronous read through a filter of 0: the inner sender is submitted; its
    * completion with 0 submits it again with the same token; its completion with 1
    * reaches the caller's `done` with 1. A cancel reaches the inner sender. */
  method AsyncReadScenario() returns (events: seq<Op>)
    ensures var relay := Token(Caller(0), Caller(1), FilterHandler(1, 0));
      events == [Submitted(7, relay), Submitted(7, relay), Invoked(Caller(2), DoneWith(1)), CancelSent(7)]
  {
    var log := new Log();
    var ctx, _ := OpenRead(FilteredReader(PlainReader(Leaf(7, Readable)), x => x != 0), 1, log);
    var t := Token(Caller(0), Caller(1), Caller(2));
    ctx.Submit(t);
    assert !ctx.preds[0](0) && ctx.preds[0](1);
    ctx.InnerDone(0);
    ctx.InnerDone(1);
    ctx.Cancel();
    events := log.events;
  }
}
