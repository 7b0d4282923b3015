/** Composition with `|` (libstream/concepts/pipe.hpp). A pipe is a combinator
  * waiting for its stream: `s | p` is `p.pipe(s)`, and `p1 | p2` is a pure pipe
  * that wraps a stream in p1 first and then in p2. */
module Pipes {
  import opened Sequences
  import opened Pipeline

  datatype Pipe =
    | TransformPipe(f: int -> int)
    | ActionPipe(pre: nat)
    | PurePipe(first: Pipe, second: Pipe)

  /** `p.pipe(s)`. */
  function Apply(p: Pipe, c: Chain): Chain
  {
    match p
    case TransformPipe(f) => Transform(c, f)
    case ActionPipe(pre) => Action(c, pre)
    case PurePipe(p1, p2) => Apply(p2, Apply(p1, c))
  }

  /** `s | p`. */
  function Attach(c: Chain, p: Pipe): Chain
  {
    Apply(p, c)
  }

  /** `p1 | p2`. */
  function Combine(p1: Pipe, p2: Pipe): Pipe
  {
    PurePipe(p1, p2)
  }

  /** `pure_pipe::pipe(p)` with another pipe: a further pure pipe, which wraps a
    * stream in everything `pp` adds and then in what `p` adds. */
  function Extend(pp: Pipe, p: Pipe): (r: Pipe)
    requires pp.PurePipe?
    ensures forall c :: Transforms(Apply(r, c)) == PipeTransforms(p) + PipeTransforms(pp) + Transforms(c)
    ensures forall c :: Pres(Apply(r, c)) == PipePres(p) + PipePres(pp) + Pres(c)
  {
    var r := PurePipe(pp, p);
    assert forall c :: Transforms(Apply(r, c)) == PipeTransforms(p) + PipeTransforms(pp) + Transforms(c)
                    && Pres(Apply(r, c)) == PipePres(p) + PipePres(pp) + Pres(c) by {
      forall c
        ensures Transforms(Apply(r, c)) == PipeTransforms(p) + PipeTransforms(pp) + Transforms(c)
        ensures Pres(Apply(r, c)) == PipePres(p) + PipePres(pp) + Pres(c)
      {
        ApplyWraps(r, c);
      }
    }
    r
  }

  /** The transforms' functions a pipe adds, outermost first. */
  function PipeTransforms(p: Pipe): seq<int -> int>
  {
    match p
    case TransformPipe(f) => [f]
    case ActionPipe(_) => []
    case PurePipe(p1, p2) => PipeTransforms(p2) + PipeTransforms(p1)
  }

  /** The pre-steps a pipe adds, outermost first. */
  function PipePres(p: Pipe): seq<nat>
  {
    match p
    case TransformPipe(_) => []
    case ActionPipe(pre) => [pre]
    case PurePipe(p1, p2) => PipePres(p2) + PipePres(p1)
  }

  /** A pipe wraps the stream: its layers go outside the stream's own, the
    * last-piped part outermost. */
  lemma {:induction false} ApplyWraps(p: Pipe, c: Chain)
    ensures Transforms(Apply(p, c)) == PipeTransforms(p) + Transforms(c)
    ensures Pres(Apply(p, c)) == PipePres(p) + Pres(c)
  {
    match p
    case TransformPipe(_) =>
    case ActionPipe(_) =>
    case PurePipe(p1, p2) =>
      ApplyWraps(p1, c);
      ApplyWraps(p2, Apply(p1, c));
      assert PipeTransforms(p2) + (PipeTransforms(p1) + Transforms(c)) == (PipeTransforms(p2) + PipeTransforms(p1)) + Transforms(c);
      assert PipePres(p2) + (PipePres(p1) + Pres(c)) == (PipePres(p2) + PipePres(p1)) + Pres(c);
  }

  /** `s | p1 | p2` and `s | (p1 | p2)` are the same stream. */
  lemma AttachCombined(c: Chain, p1: Pipe, p2: Pipe)
    ensures Attach(Attach(c, p1), p2) == Attach(c, Combine(p1, p2))
  {
  }

  /** Grouping does not matter: `(p1 | p2) | p3` and `p1 | (p2 | p3)` wrap every
    * stream alike, and so does extending a pure pipe. */
  lemma CombineAssociative(p1: Pipe, p2: Pipe, p3: Pipe, c: Chain)
    ensures Apply(Combine(Combine(p1, p2), p3), c) == Apply(Combine(p1, Combine(p2, p3)), c)
    ensures Apply(Extend(Combine(p1, p2), p3), c) == Apply(p3, Apply(p2, Apply(p1, c)))
  {
  }

  /** Writing through a piped stream runs the pipe's pre-steps before the stream's
    * own and applies the pipe's functions before the stream's own. */
  lemma PipedWrite(p: Pipe, c: Chain)
    ensures Pres(Attach(c, p)) == PipePres(p) + Pres(c)
    ensures forall x :: Compose(Transforms(Attach(c, p)))(x) == Compose(Transforms(c))(Compose(PipeTransforms(p))(x))
  {
    ApplyWraps(p, c);
    forall x
      ensures Compose(Transforms(Attach(c, p)))(x) == Compose(Transforms(c))(Compose(PipeTransforms(p))(x))
    {
      ApplyAllAppend(PipeTransforms(p), Transforms(c), x);
    }
  }

  // ---------------------------------------------------------------- scenarios

  /** `writer | (transform(+1) | action)` writing 1: the pre-step runs once and the
    * writer receives 2. With a second pipe `transform(*2) | action`, both
    * `writer | (p1 | p2)` and `writer | p1 | p2` run the pre-step twice and the
    * writer receives 3. */
  method PipeScenario() returns (single: seq<Event>, combined: seq<Event>, successive: seq<Event>)
    ensures single == [PreRan(0), Received(Value(2))]
    ensures combined == [PreRan(0), PreRan(0), Received(Value(3))]
    ensures successive == combined
  {
    var p1 := Combine(TransformPipe(x => x + 1), ActionPipe(0));
    var p2 := Combine(TransformPipe(x => x * 2), ActionPipe(0));
    var s1 := Attach(Inner, p1);
    var fs1 := Transforms(s1);
    assert fs1 == [x => x + 1];
    assert fs1[1..] == [] && ApplyAll(fs1, 1) == ApplyAll(fs1[1..], fs1[0](1));
    var rec := new Recorder();
    Write(s1, Value(1), rec);
    single := rec.events;

    var s2 := Attach(Inner, Combine(p1, p2));
    var fs2 := Transforms(s2);
    assert fs2 == [x => x * 2, x => x + 1];
    assert fs2[1..] == [x => x + 1] && fs2[1..][1..] == [];
    assert ApplyAll(fs2, 1) == ApplyAll(fs2[1..], 2) == ApplyAll(fs2[1..][1..], 3);
    var rec2 := new Recorder();
    Write(s2, Value(1), rec2);
    combined := rec2.events;

    AttachCombined(Inner, p1, p2);
    var rec3 := new Recorder();
    Write(Attach(Attach(Inner, p1), p2), Value(1), rec3);
    successive := rec3.events;
  }
}
