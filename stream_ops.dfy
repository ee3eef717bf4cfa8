/** The Reactor operators the streaming pipeline is built from, read as
    functions on the finite sequence of elements a stream delivers. */
module StreamOps {

  /** takeUntil(stop): every element up to and including the first one that
      satisfies stop; the stream completes right after it. */
  function TakeUntil<T>(s: seq<T>, stop: T -> bool): (r: seq<T>)
    ensures |r| <= |s| && r == s[..|r|]
    ensures forall i :: 0 <= i < |r| - 1 ==> !stop(r[i])
    ensures r == s || (r != [] && stop(r[|r| - 1]))
    decreases |s|
  {
    if s == [] then []
    else if stop(s[0]) then [s[0]]
    else [s[0]] + TakeUntil(s[1..], stop)
  }

  /** filter(drop.negate()): the elements that do not satisfy drop, in order. */
  function FilterOut<T>(s: seq<T>, drop: T -> bool): (r: seq<T>)
    ensures |r| <= |s|
    ensures forall i :: 0 <= i < |r| ==> !drop(r[i])
    ensures forall i :: 0 <= i < |r| ==> r[i] in s
    ensures forall i :: 0 <= i < |s| && !drop(s[i]) ==> s[i] in r
    decreases |s|
  {
    if s == [] then []
    else if drop(s[0]) then FilterOut(s[1..], drop)
    else [s[0]] + FilterOut(s[1..], drop)
  }

  /** Filtering works element by element, in order: filtering a + b is
      filtering a, then filtering b. */
  lemma {:induction false} FilterOutAppend<T>(a: seq<T>, b: seq<T>, drop: T -> bool)
    ensures FilterOut(a + b, drop) == FilterOut(a, drop) + FilterOut(b, drop)
    decreases |a|
  {
    if a != [] {
      assert (a + b)[0] == a[0] && (a + b)[1..] == a[1..] + b;
      FilterOutAppend(a[1..], b, drop);
    } else {
      assert a + b == b;
    }
  }

  /** A single element is kept exactly when it is not dropped; with
      FilterOutAppend this fixes the filter completely: the kept elements
      stay in input order, each once. */
  lemma FilterOutSingle<T>(x: T, drop: T -> bool)
    ensures FilterOut([x], drop) == if drop(x) then [] else [x]
  {
    assert [x][1..] == [];
  }

  /** When nothing is dropped, the filter keeps the stream as it is. */
  lemma {:induction false} FilterOutNothingDropped<T>(s: seq<T>, drop: T -> bool)
    requires forall i :: 0 <= i < |s| ==> !drop(s[i])
    ensures FilterOut(s, drop) == s
    decreases |s|
  {
    if s != [] {
      FilterOutNothingDropped(s[1..], drop);
      assert [s[0]] + s[1..] == s;
    }
  }

  /** One step of takeUntil(p) then filter(p.negate()) over an element that
      does not satisfy p: that element is kept, and the rest goes on. */
  lemma TakeUntilThenFilterOutStep<T>(s: seq<T>, p: T -> bool)
    requires s != [] && !p(s[0])
    ensures FilterOut(TakeUntil(s, p), p) == [s[0]] + FilterOut(TakeUntil(s[1..], p), p)
  {
    var t := TakeUntil(s[1..], p);
    assert TakeUntil(s, p) == [s[0]] + t;
    assert ([s[0]] + t)[1..] == t;
  }

  /** takeUntil(p) followed by filter(p.negate()) keeps exactly the elements
      that come before the first element satisfying p: none of them satisfies
      p, and either the whole stream was kept or the next element satisfies p. */
  lemma {:induction false} TakeUntilThenFilterOut<T>(s: seq<T>, p: T -> bool)
    ensures var r := FilterOut(TakeUntil(s, p), p);
            && r == s[..|r|]
            && (forall i :: 0 <= i < |r| ==> !p(r[i]))
            && (|r| < |s| ==> p(s[|r|]))
    decreases |s|
  {
    if s == [] {
    } else if p(s[0]) {
      assert TakeUntil(s, p) == [s[0]];
      assert FilterOut([s[0]], p) == FilterOut([s[0]][1..], p);
      assert [s[0]][1..] == [];
    } else {
      TakeUntilThenFilterOut(s[1..], p);
      TakeUntilThenFilterOutStep(s, p);
      PrefixCons(s, FilterOut(TakeUntil(s[1..], p), p));
    }
  }

  /** A prefix of s[1..] with s[0] in front is a prefix of s. */
  lemma PrefixCons<T>(s: seq<T>, r': seq<T>)
    requires s != [] && |r'| < |s| && r' == s[1..][..|r'|]
    ensures [s[0]] + r' == s[..|r'| + 1]
    ensures |r'| + 1 < |s| ==> s[|r'| + 1] == s[1..][|r'|]
  {
  }

  /** Hence the kept elements are determined by where the first element
      satisfying p stands: they are the n elements before it. */
  lemma TakeUntilThenFilterOutExact<T>(s: seq<T>, p: T -> bool, n: nat)
    requires n <= |s|
    requires forall i :: 0 <= i < n ==> !p(s[i])
    requires n < |s| ==> p(s[n])
    ensures FilterOut(TakeUntil(s, p), p) == s[..n]
  {
    TakeUntilThenFilterOut(s, p);
  }

  /** reduce(seed, f): the left fold of f over the elements, seeded with seed. */
  function FoldLeft<A, T>(f: (A, T) -> A, seed: A, s: seq<T>): A
    decreases |s|
  {
    if s == [] then seed else f(FoldLeft(f, seed, s[..|s| - 1]), s[|s| - 1])
  }

  /** Folding a sequence in two pieces gives the same result as folding it at once. */
  lemma {:induction false} FoldLeftAppend<A, T>(f: (A, T) -> A, seed: A, a: seq<T>, b: seq<T>)
    ensures FoldLeft(f, seed, a + b) == FoldLeft(f, FoldLeft(f, seed, a), b)
    decreases |b|
  {
    if b == [] {
      assert a + b == a;
    } else {
      var b' := b[..|b| - 1];
      assert (a + b)[..|a + b| - 1] == a + b';
      FoldLeftAppend(f, seed, a, b');
    }
  }

  /** The accumulator loop behind reduce: merges the elements one by one. */
  method Reduce<A, T>(s: seq<T>, seed: A, f: (A, T) -> A) returns (acc: A)
    ensures acc == FoldLeft(f, seed, s)
  {
    acc := seed;
    for i := 0 to |s|
      invariant acc == FoldLeft(f, seed, s[..i])
    {
      assert s[..i + 1][..i] == s[..i];
      acc := f(acc, s[i]);
    }
    assert s[..|s|] == s;
  }
}
