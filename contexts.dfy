/** Senders and completion tokens (libstream/detail/context.hpp, with the write
  * filter context of libstream/filter.hpp). A sender is a value; what submitting
  * or cancelling it does is the list of operations it performs on the senders of
  * the inner streams and on the callbacks of the caller's token. */
module Contexts {

  /** A callback a completion token can hold. */
  datatype Callback =
    | Caller(slot: nat)                   // supplied by whoever submitted
    | DemuxHandler(ctx: nat)              // a demultiplex context's done handler
    | FilterHandler(ctx: nat, layer: nat) // a read filter context's done handler

  /** A completion token: what to call on error, on cancellation and when done. */
  datatype Token = Token(error: Callback, cancelled: Callback, done: Callback)

  datatype Signal = Done | DoneWith(value: int)

  /** An operation a sender performs. `sender` identifies a sender returned by an
    * inner stream. */
  datatype Op =
    | Submitted(sender: nat, token: Token)
    | SubmittedSync(sender: nat)
    | CancelSent(sender: nat)
    | Invoked(callback: Callback, signal: Signal)

  /** The operations performed so far, in order. */
  class Log {
    var events: seq<Op>

    constructor ()
      ensures events == []
    {
      events := [];
    }

    method Append(op: Op)
      modifies this
      ensures events == old(events) + [op]
    {
      events := events + [op];
    }
  }

  datatype Context =
    | Sender(id: nat)                      // returned by an inner stream
    | EmptyWrite                           // empty_write_context
    | BaseWrite(child: Context)            // base_write_context
    | BaseRange(child: Context)            // base_range_context
    | BaseRead(child: Context)             // base_read_context
    | WriteFilter(empty: bool, base: Context) // write_filter_context; `base` unused when empty

  /** Nesting depth, counting the write filter's dispatch as one more level. */
  function Depth(c: Context): nat
  {
    match c
    case Sender(_) => 0
    case EmptyWrite => 0
    case BaseWrite(ch) => 1 + Depth(ch)
    case BaseRange(ch) => 1 + Depth(ch)
    case BaseRead(ch) => 1 + Depth(ch)
    case WriteFilter(_, b) => 2 + Depth(b)
  }

  /** Where the forwarding ends: an inner stream's sender, or the empty write. */
  function Target(c: Context): (r: Context)
    ensures r.Sender? || r == EmptyWrite
  {
    match c
    case Sender(_) => c
    case EmptyWrite => c
    case BaseWrite(ch) => Target(ch)
    case BaseRange(ch) => Target(ch)
    case BaseRead(ch) => Target(ch)
    case WriteFilter(empty, b) => if empty then EmptyWrite else Target(b)
  }

  /** `submit(t)`: the token reaches the target unchanged; the empty write calls
    * its `done` at once. Exactly one operation either way. */
  function SubmitAsync(c: Context, t: Token): (ops: seq<Op>)
    ensures ops == if Target(c).Sender? then [Submitted(Target(c).id, t)] else [Invoked(t.done, Done)]
    decreases Depth(c)
  {
    match c
    case Sender(id) => [Submitted(id, t)]
    case EmptyWrite => [Invoked(t.done, Done)]
    case BaseWrite(ch) => SubmitAsync(ch, t)
    case BaseRange(ch) => SubmitAsync(ch, t)
    case BaseRead(ch) => SubmitAsync(ch, t)
    case WriteFilter(empty, b) => if empty then SubmitAsync(EmptyWrite, t) else SubmitAsync(BaseWrite(b), t)
  }

  /** `submit()`: reaches the target; the empty write does nothing. */
  function SubmitSync(c: Context): (ops: seq<Op>)
    ensures ops == if Target(c).Sender? then [SubmittedSync(Target(c).id)] else []
    decreases Depth(c)
  {
    match c
    case Sender(id) => [SubmittedSync(id)]
    case EmptyWrite => []
    case BaseWrite(ch) => SubmitSync(ch)
    case BaseRange(ch) => SubmitSync(ch)
    case BaseRead(ch) => SubmitSync(ch)
    case WriteFilter(empty, b) => if empty then SubmitSync(EmptyWrite) else SubmitSync(BaseWrite(b))
  }

  /** `cancel()`: reaches the target; the empty write does nothing. */
  function Cancel(c: Context): (ops: seq<Op>)
    ensures ops == if Target(c).Sender? then [CancelSent(Target(c).id)] else []
    decreases Depth(c)
  {
    match c
    case Sender(id) => [CancelSent(id)]
    case EmptyWrite => []
    case BaseWrite(ch) => Cancel(ch)
    case BaseRange(ch) => Cancel(ch)
    case BaseRead(ch) => Cancel(ch)
    case WriteFilter(empty, b) => if empty then Cancel(EmptyWrite) else Cancel(BaseWrite(b))
  }

  /** Senders whose synchronous submit returns a value: range and read contexts. */
  predicate Valued(c: Context)
  {
    match c
    case Sender(_) => true
    case BaseRange(ch) => Valued(ch)
    case BaseRead(ch) => Valued(ch)
    case _ => false
  }

  /** The value `submit()` returns, given what each inner sender returns. */
  function SyncResult(c: Context, inner: nat -> int): (r: int)
    requires Valued(c)
    ensures Target(c).Sender? && r == inner(Target(c).id)
  {
    match c
    case Sender(id) => inner(id)
    case BaseRange(ch) => SyncResult(ch, inner)
    case BaseRead(ch) => SyncResult(ch, inner)
  }
}
