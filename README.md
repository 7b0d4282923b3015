# PVIII/stream: stream combinators and output views, in Dafny

This project models the combinator layer of the PVIII/stream C++ library and the
three output-view adapters that layer relies on, and proves properties of the model.

- **Output views** (`OutputFilter`, `OutputTakeWhile`, `OutputTransform`). Each
  view is an output iterator over a destination buffer (`array<int>`), and
  assigning through the iterator applies a policy:
  - *filter* stores accepted values and does not advance after a rejected one,
    so accepted values end up compacted;
  - *take-while* stores values until its predicate fails once, then latches
    "exhausted" and compares equal to the sentinel;
  - *transform* stores `f(v)`.

  A view of a view of the same kind is modelled as one iterator with several
  layers. Each copy loop (`*out = v; ++out` until the source ends or the
  iterator meets the sentinel) is proved against a reference function on
  sequences (`Filter`, `TakeWhile`, `Map` in `Sequences`).
- **Senders** (`Contexts`). What an operation of a combinator returns is a
  sender: a value that forwards `submit(token)`, `submit()` and `cancel()` to
  the sender of an inner stream, or an elided write that completes at once. The
  effect of each is the list of operations it performs (`Op`).
- **Inner streams** (`Leaves`). An inner stream is identified by a number and
  has capabilities; the calls a combinator makes on it are recorded as
  `Delivery` values. A range read hands the stream a destination (`Dest`) that
  is the caller's buffer, possibly seen through output views; `Deliver` says
  what reaches the buffer.
- **filter** (`FilterStream`):
  - writes of rejected values are elided;
  - range writes pass on the accepted values;
  - range reads wrap the destination in a filter view;
  - `read()` returns a `read_filter_context`, a class whose synchronous submit
    loops until a value is accepted and whose asynchronous submit re-submits
    the inner sender from its done handler.
- **demultiplex** (`Demultiplex`): the `write_context` class, a two-child state
  machine that submits the second child only when the first is done and routes
  `cancel()` by its `first_child_` flag. Demultiplexes nest.
- **take_until** (`TakeUntilStream`): range reads and read-writes see the
  buffer through a take-until view.
- **transform** and **action** (`Pipeline`): a write through a chain of them
  runs every action's pre-step, outermost first, then makes exactly one write
  on the inner stream with every function applied.
- **Pipes** (`Pipes`): `s | p`, `p1 | p2` and `pure_pipe`. `TransformPipe(f)` stands for the
  factory `transform_write(f)` and `ActionPipe` for `action(closure)`, as
  `libstream/pipe.test.cpp:29-107` uses them; those factories belong to another
  revision of the library, since the `transform` and `action` classes of
  `libstream/transform.hpp` and `libstream/action.hpp` have no `pipe` member.
- **Capability concepts** (`Capabilities`).

Asynchronous completion is modelled by methods the caller invokes when an inner
sender completes (`InnerDone`, `DoneHandler`). Callbacks are abstract names
(`Callback`). Scenario members restate the library's own test cases as exact
before/after values.

## Model

| member | source | states |
|---|---|---|
| Sequences.FilterFilter | libstream/filter.test.cpp:283-351 | filtering by one predicate and then another keeps exactly what their conjunction keeps, so nested filters act as one |
| Sequences.TakeWhileTakeWhile | liboutput_view/take_while.test.cpp:52-65 | nesting two take-while stages stops at the first element that fails either predicate |
| Sequences.TakeWhileAt | liboutput_view/take_while.hpp:74-83 | the kept prefix is exactly the elements before the first rejected one |
| Sequences.TakeUntilAt | libstream/take_until.test.cpp:30-33 | the take-until prefix ends just after the first match, or is everything when nothing matches |
| OutputFilter.FilterIterator.Begin | liboutput_view/filter.hpp:48-51 | the iterator starts at the buffer's first slot with no skip pending in any layer |
| OutputFilter.FilterIterator.SamePosition | liboutput_view/filter.hpp:129-141 | iterators compare by base position only; equal positions over one buffer agree on being at the end |
| OutputFilter.FilterIterator.Assign | liboutput_view/filter.hpp:81-91 | an accepted value is stored in the current slot and nothing else changes; a rejected one leaves the buffer alone and raises the skip of the first layer rejecting it |
| OutputFilter.FilterIterator.Increment | liboutput_view/filter.hpp:110-127 | a pending skip is cleared without moving; with none pending the position advances by exactly one |
| OutputFilter.CopyUnbounded | liboutput_view/filter.hpp:81-127 | copying a source through the view puts exactly the accepted values, in order, from the starting slot on, and leaves every other slot as it was; the accepted values must fit |
| OutputFilter.CopyBounded | liboutput_view/filter.hpp:149-178 | a copy that stops at the sentinel stores the longest prefix of the accepted values that fits; rejected values never end it early; it stops before the source ends only at the end of the buffer, right after storing an accepted value; the position advances by the number of accepted values among those consumed |
| OutputFilter.AssignScenario | liboutput_view/filter.test.cpp:25-34 | assigning 5 through a view dropping fives stores nothing; assigning 1 stores 1 |
| OutputFilter.CopyScenario | liboutput_view/filter.test.cpp:42-48 | [0, 5, 1, 5, 0] copied into [0, 0, 0] through that view gives [0, 1, 0] |
| OutputTakeWhile.TakeWhileIterator.Begin | liboutput_view/take_while.hpp:47-50 | the iterator starts at the first slot with no layer exhausted |
| OutputTakeWhile.TakeWhileIterator.Assign | liboutput_view/take_while.hpp:74-83 | an accepted value is stored in the current slot; a rejected one is not stored, latches the first layer rejecting it and puts the iterator at the sentinel; no latch is ever cleared |
| OutputTakeWhile.TakeWhileIterator.Increment | liboutput_view/take_while.hpp:102-108 | the position advances by exactly one whatever the predicate said |
| OutputTakeWhile.Copy | liboutput_view/take_while.hpp:144-159 | the buffer receives the longest prefix of the source that every layer accepts, cut at the end of the buffer, and nothing else; the copy stops early only at the sentinel; it consumes the source up to and including the first rejected value, or to the end of the source or of the buffer, whichever comes first, advancing one slot per value; a layer is latched exactly when a rejected value was consumed |
| OutputTakeWhile.UntilTwoScenario | liboutput_view/take_while.test.cpp:28-50 | with `!= 2` into [0, 0, 0]: [1, 2, 3] gives [1, 0, 0], [1, 3, 4] gives [1, 3, 4], [2] and [2, 3, 4] give [0, 0, 0] |
| OutputTakeWhile.NestedScenario | liboutput_view/take_while.test.cpp:52-65 | a view until 3 over a view until 2 stores only [1] for both [1, 2, 3] and [1, 3, 2] |
| OutputTransform.Movement | include/output_view/transform.h:178-261 | an iterator moved p slots from `begin()` is p slots from the start and the view's size minus p before the sentinel; `+= n` moves it to distance n, after the old position exactly when n is positive, equal exactly when n is 0; `-= n` brings it back, and so does a step forward and back |
| OutputTransform.TransformIterator.Begin | include/output_view/transform.h:136-139 | the iterator starts at the first slot of the buffer |
| OutputTransform.TransformIterator.Assign | include/output_view/transform.h:120-125 | assigning v stores the layers' functions applied to v in the current slot and changes nothing else |
| OutputTransform.TransformIterator.AssignAt | include/output_view/transform.h:190-194 | `it[n] = v` stores the transformed value n slots away and changes nothing else |
| OutputTransform.TransformIterator.Increment | include/output_view/transform.h:153-164 | advances exactly one position |
| OutputTransform.TransformIterator.Decrement | include/output_view/transform.h:166-176 | moves back exactly one position |
| OutputTransform.TransformIterator.AddAssign | include/output_view/transform.h:178-183 | the new position is that of `it + n`, at distance n from the old one |
| OutputTransform.TransformIterator.SubAssign | include/output_view/transform.h:184-189 | the new position is that of `it - n`, at distance n before the old one |
| OutputTransform.Copy | include/output_view/transform.h:302-324 | every slot from the start receives the transformed source element in order until the source or the buffer (the view's size) runs out, and the copy ends exactly at the end of the shorter; the iterator ends at the sentinel exactly when the whole view was used |
| OutputTransform.IncrementScenario | test/transform_view_test.cpp:22-40 | 0 assigned through a `+1` view stores 1; [0, 1] copied into two slots stores [1, 2] |
| Capabilities.CapabilityLattice | libstream/concepts/stream.hpp:25-37 | a read-write stream is both readable and writable; streamable means readable or writable; readable without read-write means pure-read, likewise for write; only a stream with none of the three members is not streamable |
| Contexts.SubmitAsync | libstream/detail/context.hpp:19-68 | submit with a token performs exactly one operation: the token reaches the innermost sender unchanged, or the empty write calls its `done` at once |
| Contexts.SubmitSync | libstream/detail/context.hpp:22-64 | a synchronous submit reaches the innermost sender once; the empty write does nothing |
| Contexts.Cancel | libstream/detail/context.hpp:23-71 | cancel reaches the innermost sender once; the empty write does nothing |
| Contexts.SyncResult | libstream/detail/context.hpp:48-64 | a range or read context's synchronous result is the innermost sender's result unchanged |
| Leaves.DeliverThroughFilters | libstream/filter.hpp:178-182 | writing through a stack of filter views keeps exactly the values every view accepts, i.e. one filter iterator with those layers |
| FilterStream.Write | libstream/filter.hpp:122-134 | when every filter accepts v the inner `write(v)` is called once with v and the sender forwards to its sender; otherwise nothing is called and the sender is the empty write (write_filter_context, libstream/filter.hpp:23-54) |
| FilterStream.WriteAll | libstream/filter.hpp:136-140 | the inner stream receives exactly the values every filter accepts, in order, in one range write; the sender forwards to its sender |
| FilterStream.ReadWrite | libstream/filter.hpp:142-148 | the written range is filtered as for a range write and the read destination is handed over unchanged |
| FilterStream.ReadInto | libstream/filter.hpp:178-182 | one range read on the inner stream, whose sender the returned sender forwards to |
| FilterStream.ReadWriteInto | libstream/filter.hpp:191-196 | one read-write on the inner stream with the written range unchanged; the sender forwards |
| FilterStream.ReadRangeKeepsAccepted | libstream/filter.hpp:178-182 | whatever the inner stream delivers, what reaches the caller's destination is exactly the values every layer accepts |
| FilterStream.ReadWriteKeepsAccepted | libstream/filter.hpp:191-196 | the same for the read side of a read-write |
| FilterStream.Fill | liboutput_view/filter.hpp:81-127 | an inner stream writing into a destination of filter views through one filter iterator fills the buffer exactly as `Deliver` says |
| FilterStream.ReadFilterContext.LeafToken | libstream/filter.hpp:67-74 | once submitted, the inner sender holds the caller's error and cancellation callbacks and the innermost layer's done handler |
| FilterStream.ReadFilterContext.constructor | libstream/filter.hpp:86-89 | a context over one inner sender with one layer per filter |
| FilterStream.ReadFilterContext.Submit | libstream/filter.hpp:100-104 | the caller's token is stored and the inner sender is submitted exactly once, with the caller's error and cancellation callbacks |
| FilterStream.ReadFilterContext.SubmitLayer | libstream/filter.hpp:100-104 | a layer's submit stores its token and leads to one submit of the inner sender; outer layers' tokens are kept |
| FilterStream.ReadFilterContext.SubmitInternal | libstream/filter.hpp:67-74 | a layer submits its child with a relay of its token; exactly one inner submit results |
| FilterStream.ReadFilterContext.DoneHandler | libstream/filter.hpp:76-83 | layer k passes v outward when it and every layer outside it accept v, ending in one call of the caller's `done` with v; otherwise the inner sender is submitted again with the same token; tokens stay as they were |
| FilterStream.ReadFilterContext.InnerDone | libstream/filter.hpp:76-83 | the inner sender's completion fires the caller's `done` with v exactly when every layer accepts v, and re-submits otherwise |
| FilterStream.ReadFilterContext.Cancel | libstream/detail/context.hpp:71 | cancel reaches the inner sender once |
| FilterStream.ReadFilterContext.SubmitSync | libstream/filter.hpp:91-98 | the synchronous read returns the first of the inner sender's results that every layer accepts, after as many inner submits as it took |
| FilterStream.ReadFilterContext.SyncLayer | libstream/filter.hpp:91-98 | the `while (true)` loop of one layer returns the first result from its position on accepted by it and every layer inside it |
| FilterStream.OpenRead | libstream/filter.hpp:173-176 | `read()` calls the inner `read()` once and wraps its sender in a fresh context with the filters as layers |
| FilterStream.OpenReadWrite | libstream/filter.hpp:184-189 | `readwrite(v)` writes v unfiltered and filters what is read back as `read()` does |
| FilterStream.WriteScenario | libstream/filter.test.cpp:30-58 | filtering 0: writing 0 calls nothing, completes at once and has no sync effect; writing 1 delegates and forwards submit and cancel; [0, 1, 2, 0] is written as [1, 2] |
| FilterStream.ReadWriteScenario | libstream/filter.test.cpp:66-87 | a read-write under a write filter of 0 writes [1, 2] and hands the read buffer over untouched |
| FilterStream.DoubleWriteScenario | libstream/filter.test.cpp:283-351 | `>= 1` under `<= 4`: 0 and 5 are elided, 3 is written, [0, 5, 3] is written as [3] |
| FilterStream.ReadRangeScenario | libstream/filter.test.cpp:139-144 | [1, 0, 2] read into [0, 0] through a filter of 0 leaves [1, 2] |
| FilterStream.ReadWriteRangeScenario | libstream/filter.test.cpp:153-171 | [0, 1, 2, 0] is written unfiltered and [0, 3, 0, 4] read back into [0, 0] leaves [3, 4] |
| FilterStream.DoubleReadRangeScenario | libstream/filter.test.cpp:283-351 | [0, 5, 3] read through `>= 1` under `<= 4` into [0] leaves [3] |
| FilterStream.SyncReadScenario | libstream/filter.test.cpp:103-111 | inner results 0, 1 read as 1; through the double filter 0, 1 give 1, 5, 4 give 4, and 3 gives 3 at the first submit |
| FilterStream.AsyncReadScenario | libstream/filter.test.cpp:112-136 | an inner completion with 0 re-submits with the same token, one with 1 reaches the caller's `done` with 1, and a cancel reaches the inner sender |
| Demultiplex.DemuxContext.constructor | libstream/demultiplex.hpp:36 | a context over two children, not yet submitted |
| Demultiplex.DemuxContext.SubmitSync | libstream/demultiplex.hpp:38-42 | a synchronous submit submits the first child, then the second |
| Demultiplex.DemuxContext.SubmitChildSync | libstream/demultiplex.hpp:38-42 | one child's synchronous submit |
| Demultiplex.DemuxContext.Submit | libstream/demultiplex.hpp:44-52 | the token is stored, `first_child_` set, and only the first child is submitted, with the caller's error and cancellation callbacks and this context's done handler; the second child is untouched |
| Demultiplex.DemuxContext.SubmitChild | libstream/demultiplex.hpp:44-52 | submitting one child with a token performs `Start` of that child |
| Demultiplex.DemuxContext.DoneHandler | libstream/demultiplex.hpp:29-33 | the first child's completion clears `first_child_` and submits the second child with the caller's own token; the first child is untouched |
| Demultiplex.DemuxContext.Cancel | libstream/demultiplex.hpp:54-61 | cancel goes to the first child while it runs and to the second afterwards |
| Demultiplex.DemuxContext.CancelChild | libstream/demultiplex.hpp:54-61 | one child's cancel |
| Demultiplex.Start | libstream/demultiplex.hpp:49-51 | submitting a child submits the first inner sender under it; the caller's error and cancellation callbacks reach it unchanged, and its done callback is the caller's only for a plain writer |
| Demultiplex.CancelOf | libstream/demultiplex.hpp:54-61 | a cancel reaches one inner sender, under the branch that is running |
| Demultiplex.SyncReachesAll | libstream/demultiplex.hpp:38-42 | a synchronous submit reaches every inner sender exactly once, left to right |
| Demultiplex.Open | libstream/demultiplex.hpp:77-85 | `write(v)` and `write(r)` call every inner stream once with the same argument, first stream first, and build fresh contexts over the senders, in the shape of the tree |
| Demultiplex.TwoWritersScenario | libstream/demultiplex.test.cpp:20-114 | both writers receive the value or range; sync submit reaches 0 then 1; async submit reaches 0, and 1 with the caller's token once 0 is done |
| Demultiplex.EarlyCancelScenario | libstream/demultiplex.test.cpp:116-174 | a cancel while writer 0 runs reaches writer 0 |
| Demultiplex.LateCancelScenario | libstream/demultiplex.test.cpp:116-174 | a cancel after writer 0 is done reaches writer 1 |
| Demultiplex.FourWritersSyncScenario | libstream/demultiplex.test.cpp:194-246 | over a demultiplex of demultiplexes of writers 0 to 3, a synchronous submit reaches 0 to 3 in order |
| Demultiplex.FourWritersAsyncScenario | libstream/demultiplex.test.cpp:194-246 | asynchronously, each writer is submitted only after its predecessor's done, and only writer 3 gets the caller's token |
| TakeUntilStream.Read | libstream/take_until.hpp:28-33 | a range read, offered only over a pure-read stream, is one range read on the inner stream whose sender is forwarded to and returns its result |
| TakeUntilStream.ReadWrite | libstream/take_until.hpp:35-41 | offered only over a read-write stream; the written range passes unchanged |
| TakeUntilStream.ReadStopsAfterMatch | libstream/take_until.hpp:28-33 | the caller's buffer receives the inner values up to and including the first match, or all of them when none matches |
| TakeUntilStream.ReadWriteStopsAfterMatch | libstream/take_until.hpp:35-41 | the same for the read side of a read-write |
| TakeUntilStream.UntilOneScenario | libstream/take_until.test.cpp:30-33 | [3, 1, 2] read until 1 into [0, 0, 0] gives [3, 1, 0] |
| Pipeline.MapRequest | libstream/transform.hpp:21-36 | a transformed request keeps its kind and its token; its value, or each element of its range, is the function's image |
| Pipeline.MapRequestCompose | libstream/transform.hpp:21-36 | mapping through one transform and then the rest equals mapping through the whole stack |
| Pipeline.Write | libstream/action.hpp:27-43 | a write through a chain runs every action's pre-step once, outermost first, then the inner stream receives the request once with every transform applied and its token unchanged |
| Pipeline.ReadInto | libstream/transform.hpp:40-44 | a range read through a transform hands the inner stream a transform view of the destination |
| Pipeline.RangeReadIsValueRead | libstream/transform.hpp:38-44 | what a range read stores for each inner value is what `read()` returns for it |
| Pipeline.TransformScenario | libstream/transform.test.cpp:31-117 | with `+1`: 1 arrives as 2, [1, 2] as [2, 3], [1, 2, 3] as [2, 3, 4], and a range written with a token keeps the token |
| Pipeline.ReadScenario | libstream/transform.test.cpp:54-135 | with `+1`, an inner 1 reads as 2 and a range [1, 2] is stored as [2, 3] |
| Pipeline.ActionScenario | test/action_test.cpp:21-39 | the pre-step runs once before a value write and once, not per element, before a range write |
| Pipeline.NestedScenario | libstream/action.test.cpp:532-556 | the outer pre-step runs before the inner one, then the write; an action over `+1` writes 2 after one pre-step |
| Pipes.Extend | libstream/concepts/pipe.hpp:46-49 | a pure pipe extended with p wraps every stream in all the layers of the pure pipe and then in those of p: its functions and pre-steps are p's, outermost, followed by the pure pipe's, followed by the stream's own |
| Pipes.ApplyWraps | libstream/concepts/pipe.hpp:41-44 | a pipe's layers go outside the stream's own, the last-piped part outermost |
| Pipes.AttachCombined | libstream/concepts/pipe.hpp:52-55 | piping a stream into p1 and then p2 gives the same stream as piping it into the pure pipe of p1 and p2 |
| Pipes.CombineAssociative | libstream/concepts/pipe.hpp:41-55 | grouping pure pipes either way wraps every stream alike, and extending a pure pipe with p3 applies p1, p2, p3 in turn |
| Pipes.PipedWrite | libstream/concepts/pipe.hpp:27-31 | through a stream piped into p, the pipe's pre-steps run before the stream's own and its functions apply first |
| Pipes.PipeScenario | libstream/pipe.test.cpp:29-107 | a writer piped into the pure pipe of transform(+1) and an action delivers 2 for 1 after one pre-step; adding a second pipe of transform(*2) and an action, both groupings deliver 3 after two pre-steps |

## Left out

- Assumed C++ machinery: ranges-library views (`view_interface`, `semiregular_box`, `ranges::view::filter` and `transform`) become `Filter` and `Map` on sequences. Ownership, const, move-only and deduction-guide concerns are not modelled, nor is preserving the range category.
- The token types and the callback delegates are defined in no file here; callbacks are abstract names and the model does not run them.
- Whether a callback fires before or after `submit(token)` returns is not modelled; completions are explicit method calls.
- Errors and cancellations reported by an inner sender are not events of the model. The model proves only that the caller's error and cancellation callbacks reach the inner sender unchanged (filter, demultiplex).
- Demultiplex.DemuxContext.Submit: the source moves the token into `done_token_` and then reads `t.error` and `t.cancelled`. The model takes those to be the caller's callbacks, as `libstream/demultiplex.test.cpp:143-152` expects: cancelling through the first writer's token reaches the caller's cancellation callback.
- Demultiplex.DemuxContext.Cancel: `first_child_` has no value before the first submit; the model requires a submit to have happened (ghost `armed`) before `cancel()` or the done handler.
- FilterStream.ReadFilterContext.SubmitSync: the source loops forever when no inner result is accepted; the model requires an accepted result among the given ones.
- FilterStream.ReadFilterContext.Cancel: `base_read_context` declares `cancel()`, like both submits, `protected` (`libstream/detail/context.hpp:61-71`), and `read_filter_context` re-declares only the submits publicly, so the `sender.cancel()` of `libstream/filter.test.cpp:233` is inaccessible as written. The model gives the public forward to the inner sender that the test calls; the `BaseRead` case of `Contexts.SubmitAsync`, `Contexts.SubmitSync` and `Contexts.Cancel` does the same for a bare read context.
- FilterStream.ReadFilterContext.SubmitSync, FilterStream.ReadFilterContext.SyncLayer, FilterStream.ReadFilterContext.DoneHandler, FilterStream.ReadFilterContext.InnerDone, FilterStream.OpenRead, FilterStream.OpenReadWrite: `read_filter_context` tests a value with `stream_.predicate_` (`libstream/filter.hpp:78`, `96`), but `predicate_` is a private member of `filter_read_fn` (line 165) with no friend declared, so the done handler and the synchronous submit cannot be instantiated as written. The model states the intended check, a value passing when every filter accepts it, which `libstream/filter.test.cpp:98-136` exercises.
- FilterStream.ReadFilterContext: a stack of filter reads is modelled as one context with one layer per filter.
- OutputFilter.FilterIterator.Assign, OutputFilter.FilterIterator.Increment, OutputFilter.CopyUnbounded, OutputFilter.CopyBounded, Leaves.DeliverThroughFilters, FilterStream.Fill, FilterStream.ReadRangeKeepsAccepted and FilterStream.DoubleReadRangeScenario: with more than one layer these state the compaction that `libstream/filter.test.cpp:343-349` expects, not what `liboutput_view/filter.hpp:71-91` does. A filter view over a filter view is ill-formed as written: the proxy's `const` `operator=` dereferences its by-value copy of the inner iterator through the non-const `operator*` (line 108). With the `const` removed, an inner layer's rejection would raise `skip_` on that copy and be lost, so the outer `++` would move past the slot, and [0, 5, 3] read into one slot would not end as [3]. The model gives each layer its own skip flag, raised by the first rejecting layer. With one layer they are the code as written.
- Take-while views over take-while views (`OutputTakeWhile`) are modelled the same way, each layer latching its own flag.
- The take-until output view (`liboutput_view/take_until.hpp`) is not part of this model; its element semantics are those of `libstream/take_until.test.cpp:30-33`. A buffer receives what it stores from its first slot on (`Overwrite`).
- OutputTransform.TransformIterator.Assign, OutputTransform.TransformIterator.AssignAt, OutputTransform.Copy, OutputTransform.IncrementScenario: the transform view's write path cannot be instantiated as written. `output_proxy` (`include/output_view/transform.h:109-126`) has no `public:` section and no friend, so its constructor and `operator=` are private to it, which makes `operator*` (lines 148-151) and the `*begin(v) = 0` of `test/transform_view_test.cpp:24` ill-formed. `operator[]` (lines 190-194) is `const` and passes a const `*this` to the proxy's non-const iterator reference. A transform view over a transform view fails as the nested filter view does: the proxy's `const` `operator=` dereferences its by-value inner iterator through the non-const `operator*`. The model states the intended behaviour: the layers' functions applied to the value are stored in the addressed slot.
- `include/output_view/transform.h:334-340`: the sentinel-minus-iterator operator reads members that the operand types do not have (`x.end_ - y.current_`), so it cannot be instantiated. `OutputTransform.SentinelDistance` models the intended `end - current`.
- Pipes: the `Streamable` and `PipeableTo` requirements on `operator|` are compile-time checks and are not modelled.
- Pipeline: transform and action are modelled in the revision whose writes return nothing (`libstream/transform.hpp`, `libstream/action.hpp`). The sender-returning action exercised by `libstream/action.test.cpp:83-87, 451-482` is not part of this model: an error from the pre-step reaching the caller, and cancel routing.
- Pipeline.TransformScenario: the completion count a token reports is the inner stream's; the model shows only that the token reaches the inner stream unchanged.
- `libstream/concepts/executor.hpp`, the callback headers, the mocks and the test helpers are not part of this model.
- Older duplicate revisions (`stream/`, `include/stream/`, `libstream/pipe.hpp`, `libstream/stream.hpp`) hold the same logic and are covered by the model of the chosen files.
