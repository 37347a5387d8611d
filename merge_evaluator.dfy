/** The last step of the multi-step combine: after the GroupByKey, each key
    arrives with the partial accumulators of every bundle; the evaluator
    merges them and extracts the output. */
module MergeEvaluation {
  import opened Common
  import opened Algebra
  import opened Windowing

  /** What processElement computes for the partial accumulators of one key:
      merge a fresh accumulator, the partials and a second fresh accumulator,
      in that order, then extract the output. The first callback that throws
      decides the outcome. */
  function MergeAndExtract<V, A, O>(fn: CombineFn<V, A, O>, partials: seq<A>): Try<O>
  {
    match fn.create()
    case Threw(f) => Threw(f)
    case Returned(first) =>
      match fn.create()
      case Threw(f) => Threw(f)
      case Returned(last) =>
        match fn.merge([first] + partials + [last])
        case Threw(f) => Threw(f)
        case Returned(merged) => fn.extract(merged)
  }

  /** The two fresh accumulators do not change the result: under the
      empty-accumulator law, merging and extracting is extracting the merge of
      the partials alone. */
  lemma MergeIgnoresFreshAccumulators<V, A(!new), O>(fn: CombineFn<V, A, O>, partials: seq<A>)
    requires EmptyIdentity(fn)
    ensures MergeAndExtract(fn, partials)
         == match fn.merge(partials) case Threw(f) => Threw(f) case Returned(m) => fn.extract(m)
  {
    var c := fn.create().value;
    assert fn.merge([c] + partials + [c]) == fn.merge(partials);
  }

  /** A CombineFn whose callbacks never throw always yields an output. */
  lemma MergeAndExtractReturns<V(!new), A(!new), O>(fn: CombineFn<V, A, O>, partials: seq<A>)
    requires NeverThrows(fn)
    ensures MergeAndExtract(fn, partials).Returned?
  {
    var c := fn.create().value;
    assert fn.merge([c] + partials + [c]).Returned?;
  }

  /** With the summing CombineFn the output is the sum of the partial sums. */
  lemma SumMergeAndExtract(partials: seq<int>)
    ensures MergeAndExtract(SumFn(), partials) == Returned(Sum(partials))
  {
    SumFnLaws();
    MergeIgnoresFreshAccumulators(SumFn(), partials);
  }

  /** What finishBundle hands back to the runner: the output bundle and the
      watermark hold, absent here. */
  datatype TransformResult<T> = TransformResult(outputs: seq<T>, hold: Option<int>)

  type Grouped<K, A, W> = WindowedValue<KV<K, seq<A>>, W>
  type Output<K, O, W> = WindowedValue<KV<K, O>, W>

  class MergeAccumulatorsAndExtractOutputEvaluator<K, V, A, O, W> {
    const fn: CombineFn<V, A, O>
    /** The uncommitted output bundle, append-only. */
    var output: seq<Output<K, O, W>>

    constructor (fn: CombineFn<V, A, O>)
      ensures this.fn == fn && output == []
    {
      this.fn := fn;
      output := [];
    }

    /** processElement: checkState that the element is in exactly one window,
        then merge and extract, wrapping whatever a callback throws in a
        UserCodeException; the output keeps the element's key, timestamp and
        windows. */
    method ProcessElement(element: Grouped<K, A, W>) returns (outcome: Outcome)
      modifies this
      ensures |element.windows| != 1 ==> outcome == Fail(NotInExactlyOneWindow(|element.windows|))
      ensures |element.windows| == 1 && MergeAndExtract(fn, element.value.value).Threw? ==>
                outcome == Fail(UserCodeException(MergeAndExtract(fn, element.value.value).fault))
      ensures outcome.Fail? ==> output == old(output)
      ensures outcome.Pass? <==> |element.windows| == 1 && MergeAndExtract(fn, element.value.value).Returned?
      ensures outcome.Pass? ==>
                output == old(output) + [WindowedValue(KV(element.value.key, MergeAndExtract(fn, element.value.value).value),
                                                       element.timestamp, element.windows)]
    {
      if |element.windows| != 1 {
        return Fail(NotInExactlyOneWindow(|element.windows|));
      }
      var inputAccumulators := element.value.value;
      var first := fn.create();
      if first.Threw? {
        return Fail(UserCodeException(first.fault));
      }
      // createAccumulator is a function of nothing here, so the second call
      // returns what the first did.
      var last := fn.create().value;
      var merged := fn.merge([first.value] + inputAccumulators + [last]);
      if merged.Threw? {
        return Fail(UserCodeException(merged.fault));
      }
      var extracted := fn.extract(merged.value);
      if extracted.Threw? {
        return Fail(UserCodeException(extracted.fault));
      }
      output := output + [element.WithValue(KV(element.value.key, extracted.value))];
      outcome := Pass;
    }

    /** finishBundle: everything output so far, with no hold. */
    method FinishBundle() returns (result: TransformResult<Output<K, O, W>>)
      ensures result.outputs == output && result.hold.None?
    {
      result := TransformResult(output, None);
    }
  }
}
