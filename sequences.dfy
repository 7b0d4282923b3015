/** Reference definitions shared by the output views and the stream combinators:
  * what a filtered, truncated or mapped sequence of values is. */
module Sequences {

  /** Values kept by `p`, in their original order. Defined from the back, so that
    * a loop that consumes its input front to back extends it one element at a time. */
  function Filter(p: int -> bool, s: seq<int>): seq<int>
  {
    if s == [] then []
    else Filter(p, s[..|s| - 1]) + (if p(s[|s| - 1]) then [s[|s| - 1]] else [])
  }

  /** The longest prefix of `s` whose elements all satisfy `p`. */
  function TakeWhile(p: int -> bool, s: seq<int>): seq<int>
  {
    if s == [] || !p(s[0]) then [] else [s[0]] + TakeWhile(p, s[1..])
  }

  /** The prefix of `s` up to and including the first element satisfying `p`. */
  function TakeUntil(p: int -> bool, s: seq<int>): seq<int>
  {
    if s == [] then [] else if p(s[0]) then [s[0]] else [s[0]] + TakeUntil(p, s[1..])
  }

  /** Element-wise image of `s` under `f`. */
  function Map(f: int -> int, s: seq<int>): (r: seq<int>)
    ensures |r| == |s|
    ensures forall i :: 0 <= i < |s| ==> r[i] == f(s[i])
  {
    seq(|s|, i requires 0 <= i < |s| => f(s[i]))
  }

  /** Whether every predicate of a stack of layers accepts `v`. */
  function All(ps: seq<int -> bool>, v: int): bool
  {
    forall k | 0 <= k < |ps| :: ps[k](v)
  }

  /** The stack of layers as one predicate. */
  function Conj(ps: seq<int -> bool>): int -> bool
  {
    x => All(ps, x)
  }

  /** Index of the first layer (outermost first) that rejects `v`; `|ps|` when all accept. */
  function FirstRejecting(ps: seq<int -> bool>, v: int): (j: nat)
    ensures j <= |ps|
    ensures forall k :: 0 <= k < j ==> ps[k](v)
    ensures j < |ps| ==> !ps[j](v)
    ensures j == |ps| <==> All(ps, v)
  {
    if ps == [] then 0
    else if !ps[0](v) then 0
    else 1 + FirstRejecting(ps[1..], v)
  }

  /** Index of the first raised flag; `|flags|` when none is raised. */
  function FirstRaised(flags: seq<bool>): (j: nat)
    ensures j <= |flags|
    ensures forall k :: 0 <= k < j ==> !flags[k]
    ensures j < |flags| ==> flags[j]
    ensures j == |flags| <==> true !in flags
  {
    if flags == [] then 0
    else if flags[0] then 0
    else 1 + FirstRaised(flags[1..])
  }

  /** The layers applied in turn, outermost (index 0) first. */
  function ApplyAll(fs: seq<int -> int>, v: int): int
  {
    if fs == [] then v else ApplyAll(fs[1..], fs[0](v))
  }

  /** The stack of layers as one function. */
  function Compose(fs: seq<int -> int>): int -> int
  {
    x => ApplyAll(fs, x)
  }

  /** `a` with the slots from `at` on replaced by `w`. */
  function Overwrite(a: seq<int>, at: nat, w: seq<int>): (r: seq<int>)
    requires at + |w| <= |a|
    ensures |r| == |a|
    ensures forall i :: 0 <= i < |a| ==> r[i] == if at <= i < at + |w| then w[i - at] else a[i]
  {
    a[..at] + w + a[at + |w|..]
  }

  /** Writing one more value just after an overwritten run extends the run. */
  lemma OverwriteSnoc(a: seq<int>, at: nat, w: seq<int>, v: int)
    requires at + |w| < |a|
    ensures Overwrite(a, at, w)[at + |w| := v] == Overwrite(a, at, w + [v])
  {
  }

  // ------------------------------------------------------------------- All

  /** A stack accepts when its outermost layer and the rest accept. */
  lemma AllCons(p: int -> bool, ps: seq<int -> bool>, v: int)
    ensures All([p] + ps, v) == (p(v) && All(ps, v))
  {
    assert ([p] + ps)[0] == p;
    if p(v) && All(ps, v) {
      forall k | 0 <= k < |[p] + ps| ensures ([p] + ps)[k](v) {
        if k > 0 { assert ([p] + ps)[k] == ps[k - 1]; }
      }
    }
    if All([p] + ps, v) {
      forall k | 0 <= k < |ps| ensures ps[k](v) {
        assert ([p] + ps)[k + 1] == ps[k];
      }
    }
  }

  /** The first k + 1 layers accept when the first k and layer k accept. */
  lemma AllSnoc(ps: seq<int -> bool>, k: nat, v: int)
    requires k < |ps|
    ensures All(ps[..k + 1], v) == (All(ps[..k], v) && ps[k](v))
  {
    assert ps[..k + 1][k] == ps[k];
    if All(ps[..k + 1], v) {
      forall j | 0 <= j < k ensures ps[..k][j](v) {
        assert ps[..k][j] == ps[..k + 1][j];
      }
    }
    if All(ps[..k], v) && ps[k](v) {
      var pre := ps[..k + 1];
      forall j | 0 <= j < k + 1 ensures pre[j](v) {
        if j < k { assert pre[j] == ps[..k][j]; }
      }
    }
  }

  /** The layers from k on accept when layer k and those after it accept. */
  lemma AllTail(ps: seq<int -> bool>, k: nat, v: int)
    requires k < |ps|
    ensures All(ps[k..], v) == (ps[k](v) && All(ps[k + 1..], v))
  {
    assert ps[k..] == [ps[k]] + ps[k + 1..];
    AllCons(ps[k], ps[k + 1..], v);
  }

  // ---------------------------------------------------------------- Filter

  lemma {:induction false} FilterBounds(p: int -> bool, s: seq<int>)
    ensures |Filter(p, s)| <= |s|
    ensures forall x :: x in Filter(p, s) ==> x in s && p(x)
  {
    if s != [] {
      FilterBounds(p, s[..|s| - 1]);
    }
  }

  /** Filtering distributes over concatenation. */
  lemma {:induction false} FilterAppend(p: int -> bool, a: seq<int>, b: seq<int>)
    ensures Filter(p, a + b) == Filter(p, a) + Filter(p, b)
  {
    if b == [] {
      assert a + b == a;
    } else {
      assert (a + b)[..|a + b| - 1] == a + b[..|b| - 1];
      FilterAppend(p, a, b[..|b| - 1]);
    }
  }

  /** One more element of input adds that element exactly when `p` accepts it. */
  lemma FilterStep(p: int -> bool, s: seq<int>, i: nat)
    requires i < |s|
    ensures Filter(p, s[..i + 1]) == Filter(p, s[..i]) + (if p(s[i]) then [s[i]] else [])
  {
    assert s[..i + 1][..i] == s[..i];
  }

  /** A filtered prefix is a prefix of the filtered whole. */
  lemma FilterPrefix(p: int -> bool, s: seq<int>, i: nat)
    requires i <= |s|
    ensures |Filter(p, s[..i])| <= |Filter(p, s)|
    ensures Filter(p, s)[..|Filter(p, s[..i])|] == Filter(p, s[..i])
  {
    assert s == s[..i] + s[i..];
    FilterAppend(p, s[..i], s[i..]);
  }

  /** Filtering with `q`, then with `p`, is filtering with their conjunction. */
  lemma {:induction false} FilterFilter(p: int -> bool, q: int -> bool, r: int -> bool, s: seq<int>)
    requires forall x :: r(x) == (p(x) && q(x))
    ensures Filter(p, Filter(q, s)) == Filter(r, s)
  {
    if s != [] {
      var init, last := s[..|s| - 1], s[|s| - 1];
      FilterFilter(p, q, r, init);
      FilterAppend(p, Filter(q, init), if q(last) then [last] else []);
      if q(last) {
        assert Filter(p, [last]) == Filter(p, []) + (if p(last) then [last] else []);
      }
    }
  }

  /** Filtering depends only on the values of the predicate. */
  lemma {:induction false} FilterSamePredicate(p: int -> bool, q: int -> bool, s: seq<int>)
    requires forall x :: p(x) == q(x)
    ensures Filter(p, s) == Filter(q, s)
  {
    if s != [] {
      FilterSamePredicate(p, q, s[..|s| - 1]);
    }
  }

  // ------------------------------------------------------------- TakeWhile

  /** The longest accepted prefix is characterised by its first rejected element. */
  lemma {:induction false} TakeWhileAt(p: int -> bool, s: seq<int>, i: nat)
    requires i <= |s|
    requires forall j :: 0 <= j < i ==> p(s[j])
    ensures i <= |TakeWhile(p, s)| && TakeWhile(p, s)[..i] == s[..i]
    ensures i == |s| || !p(s[i]) ==> TakeWhile(p, s) == s[..i]
  {
    if i > 0 {
      TakeWhileAt(p, s[1..], i - 1);
      assert s[..i] == [s[0]] + s[1..][..i - 1];
    } else if s != [] && !p(s[0]) {
      assert TakeWhile(p, s) == [];
    }
  }

  /** Nesting two take-while stages stops at the first element failing either. */
  lemma {:induction false} TakeWhileTakeWhile(p: int -> bool, q: int -> bool, r: int -> bool, s: seq<int>)
    requires forall x :: r(x) == (p(x) && q(x))
    ensures TakeWhile(p, TakeWhile(q, s)) == TakeWhile(r, s)
  {
    if s == [] {
    } else if !q(s[0]) {
      var x := s[0];
      assert !r(x);
    } else {
      TakeWhileTakeWhile(p, q, r, s[1..]);
      var t := TakeWhile(q, s);
      assert t == [s[0]] + TakeWhile(q, s[1..]);
      assert t[0] == s[0] && t[1..] == TakeWhile(q, s[1..]);
      var x := s[0];
      assert r(x) == p(x);
    }
  }

  // ------------------------------------------------------------- TakeUntil

  /** The prefix kept by TakeUntil is characterised by its first match. */
  lemma {:induction false} TakeUntilAt(p: int -> bool, s: seq<int>, i: nat)
    requires i <= |s|
    requires forall j :: 0 <= j < i ==> !p(s[j])
    ensures i == |s| ==> TakeUntil(p, s) == s
    ensures i < |s| && p(s[i]) ==> TakeUntil(p, s) == s[..i + 1]
  {
    if i == 0 {
      if s != [] && p(s[0]) {
        assert s[..1] == [s[0]];
      }
    } else {
      TakeUntilAt(p, s[1..], i - 1);
      assert s == [s[0]] + s[1..];
      if i < |s| {
        assert s[..i + 1] == [s[0]] + s[1..][..i];
      }
    }
  }

  // ----------------------------------------------------------------- Map

  /** Mapping twice is mapping with the composition. */
  lemma MapMap(f: int -> int, g: int -> int, h: int -> int, s: seq<int>)
    requires forall x :: h(x) == g(f(x))
    ensures Map(g, Map(f, s)) == Map(h, s)
  {
    forall i | 0 <= i < |s|
      ensures Map(g, Map(f, s))[i] == Map(h, s)[i]
    {
      var x := s[i];
      assert h(x) == g(f(x));
    }
  }

  /** Applying a stack of layers is applying the outermost first. */
  lemma {:induction false} ApplyAllAppend(fs: seq<int -> int>, gs: seq<int -> int>, v: int)
    ensures ApplyAll(fs + gs, v) == ApplyAll(gs, ApplyAll(fs, v))
  {
    if fs == [] {
      assert fs + gs == gs;
    } else {
      assert (fs + gs)[1..] == fs[1..] + gs;
      ApplyAllAppend(fs[1..], gs, fs[0](v));
    }
  }
}
