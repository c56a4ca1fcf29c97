/** Concatenating what a function gives for each item of a list, in order. */
module Seqs {
  /** `f(xs[0]) + f(xs[1]) + ...`: the items' results joined in list order. */
  function ConcatMap<T, U>(f: T -> seq<U>, xs: seq<T>): seq<U> {
    if xs == [] then [] else ConcatMap(f, xs[..|xs| - 1]) + f(xs[|xs| - 1])
  }

  lemma {:induction false} ConcatMapAppend<T, U>(f: T -> seq<U>, a: seq<T>, b: seq<T>)
    ensures ConcatMap(f, a + b) == ConcatMap(f, a) + ConcatMap(f, b)
    decreases |b|
  {
    if b == [] {
      assert a + b == a;
    } else {
      var b' := b[..|b| - 1];
      assert (a + b)[..|a + b| - 1] == a + b';
      ConcatMapAppend(f, a, b');
    }
  }

  /** An item `f` maps to nothing can be dropped from the concatenation. */
  lemma ConcatMapSkip<T, U>(f: T -> seq<U>, a: seq<T>, x: T, b: seq<T>)
    requires f(x) == []
    ensures ConcatMap(f, a + [x] + b) == ConcatMap(f, a) + ConcatMap(f, b)
  {
    var ax := a + [x];
    assert ConcatMap(f, ax) == ConcatMap(f, a) by {
      assert ax[..|ax| - 1] == a;
    }
    ConcatMapAppend(f, ax, b);
  }

  /** One more item adds its own result at the end. */
  lemma ConcatMapSnoc<T, U>(f: T -> seq<U>, xs: seq<T>, x: T)
    ensures ConcatMap(f, xs + [x]) == ConcatMap(f, xs) + f(x)
  {
    assert (xs + [x])[..|xs|] == xs;
  }
}
