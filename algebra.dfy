/** The user's CombineFn, seen by the runner as five callbacks that may throw,
    the laws a conforming CombineFn obeys, and a summing CombineFn that obeys
    them. */
module Algebra {
  import opened Common

  /** A CombineFn with input type V, accumulator type A and output type O:
      createAccumulator, addInput, mergeAccumulators, compact, extractOutput. */
  datatype CombineFn<!V, !A, O> = CombineFn(
    create: () -> Try<A>,
    add: (A, V) -> Try<A>,
    merge: seq<A> -> Try<A>,
    compact: A -> Try<A>,
    extract: A -> Try<O>)

  /** Folds addInput over vs, left to right, starting from acc; the first
      callback that throws ends the fold. */
  function AddAll<V, A, O>(fn: CombineFn<V, A, O>, acc: A, vs: seq<V>): Try<A>
    decreases |vs|
  {
    if vs == [] then Returned(acc)
    else
      match AddAll(fn, acc, vs[..|vs| - 1])
      case Threw(f) => Threw(f)
      case Returned(a) => fn.add(a, vs[|vs| - 1])
  }

  /** The accumulator a fresh createAccumulator() reaches after adding vs. */
  function Accumulate<V, A, O>(fn: CombineFn<V, A, O>, vs: seq<V>): Try<A>
  {
    match fn.create()
    case Threw(f) => Threw(f)
    case Returned(c) => AddAll(fn, c, vs)
  }

  /** No callback of fn ever throws. */
  ghost predicate NeverThrows<V(!new), A(!new), O>(fn: CombineFn<V, A, O>)
  {
    && fn.create().Returned?
    && (forall a, v :: fn.add(a, v).Returned?)
    && (forall s :: fn.merge(s).Returned?)
    && (forall a :: fn.compact(a).Returned?)
    && (forall a :: fn.extract(a).Returned?)
  }

  /** Merging a fresh accumulator on each side of any sequence changes nothing. */
  ghost predicate EmptyIdentity<V, A(!new), O>(fn: CombineFn<V, A, O>)
  {
    && fn.create().Returned?
    && forall s :: fn.merge([fn.create().value] + s + [fn.create().value]) == fn.merge(s)
  }

  /** Compacting an accumulator never changes the output extracted from it. */
  ghost predicate CompactKeepsOutput<V, A(!new), O>(fn: CombineFn<V, A, O>)
  {
    forall a :: fn.compact(a).Returned? ==> fn.extract(fn.compact(a).value) == fn.extract(a)
  }

  /** Compacting twice extracts what compacting once does. */
  lemma CompactTwice<V, A(!new), O>(fn: CombineFn<V, A, O>, a: A)
    requires CompactKeepsOutput(fn)
    requires fn.compact(a).Returned? && fn.compact(fn.compact(a).value).Returned?
    ensures fn.extract(fn.compact(fn.compact(a).value).value) == fn.extract(fn.compact(a).value)
  {
    var once := fn.compact(a).value;
    assert fn.compact(once).Returned?;
  }

  // ---------------------------------------------------------------------------
  // A summing CombineFn: the accumulator is the running sum.

  function Sum(s: seq<int>): int
    decreases |s|
  {
    if s == [] then 0 else Sum(s[..|s| - 1]) + s[|s| - 1]
  }

  lemma {:induction false} SumConcat(a: seq<int>, b: seq<int>)
    ensures Sum(a + b) == Sum(a) + Sum(b)
    decreases |b|
  {
    if b == [] {
      assert a + b == a;
    } else {
      assert (a + b)[..|a + b| - 1] == a + b[..|b| - 1];
      SumConcat(a, b[..|b| - 1]);
    }
  }

  function SumFn(): CombineFn<int, int, int>
  {
    CombineFn(
      () => Returned(0),
      (a, v) => Returned(a + v),
      s => Returned(Sum(s)),
      a => Returned(a),
      a => Returned(a))
  }

  /** The summing CombineFn obeys every law above. */
  lemma SumFnLaws()
    ensures NeverThrows(SumFn())
    ensures EmptyIdentity(SumFn())
    ensures CompactKeepsOutput(SumFn())
  {
    forall s: seq<int>
      ensures SumFn().merge([0] + s + [0]) == SumFn().merge(s)
    {
      SumConcat([0] + s, [0]);
      SumConcat([0], s);
      assert Sum([0]) == 0 by { assert [0][..0] == []; }
    }
  }

  /** Adding values to a fresh summing accumulator gives their sum. */
  lemma {:induction false} SumAccumulate(vs: seq<int>)
    ensures Accumulate(SumFn(), vs) == Returned(Sum(vs))
    decreases |vs|
  {
    if vs != [] {
      SumAccumulate(vs[..|vs| - 1]);
    }
  }
}
