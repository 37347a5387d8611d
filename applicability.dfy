/** The plan-time half of the rewrite: the matcher that decides whether a
    Combine.PerKey may be replaced by the multi-step combine, and the override
    factory's guard when it builds the replacement. */
module Applicability {
  import opened Common

  /** What getAccumulatorCoder does for a value coder: return a coder, return
      null, or throw CannotProvideCoderException. */
  datatype AccumulatorCoder = Provided | ProvidedNull | CannotProvide

  /** Coders are opaque apart from whether they are a KvCoder. */
  datatype Coder = KvCoder(keyCoder: nat, valueCoder: nat) | OtherCoder(id: nat)

  datatype Trigger = DefaultTrigger | OtherTrigger(id: nat)

  datatype WindowingStrategy = WindowingStrategy(windowFnIsNonMerging: bool, trigger: Trigger)

  /** What the matcher reads of an input PCollection. */
  datatype PCollection = PCollection(windowing: WindowingStrategy, coder: Coder)

  /** The fn of a Combine.PerKey: a plain CombineFn, which derives its
      accumulator coder from the input value coder, or a CombineFn that needs
      per-key context. */
  datatype GlobalCombineFn =
    | PlainCombineFn(accumulatorCoderFor: nat -> AccumulatorCoder)
    | CombineFnWithContext

  datatype Transform = CombinePerKey(fn: GlobalCombineFn) | OtherTransform

  /** An applied transform: the transform, its inputs (main and side inputs)
      and its outputs. */
  datatype AppliedTransform = AppliedTransform(transform: Transform, inputs: seq<PCollection>, outputs: seq<PCollection>)

  /** The conditions isApplicable checks: one input, a plain CombineFn, a
      non-merging window function, the default trigger, a KvCoder input and a
      non-null accumulator coder. */
  ghost predicate Eligible(inputs: seq<PCollection>, fn: GlobalCombineFn)
  {
    && fn.PlainCombineFn?
    && |inputs| == 1
    && inputs[0].windowing.windowFnIsNonMerging
    && inputs[0].windowing.trigger == DefaultTrigger
    && inputs[0].coder.KvCoder?
    && fn.accumulatorCoderFor(inputs[0].coder.valueCoder) == Provided
  }

  /** The accumulator coder would be asked for and its derivation throws. */
  ghost predicate DerivationThrows(inputs: seq<PCollection>, fn: GlobalCombineFn)
  {
    && fn.PlainCombineFn?
    && |inputs| == 1
    && inputs[0].coder.KvCoder?
    && fn.accumulatorCoderFor(inputs[0].coder.valueCoder) == CannotProvide
  }

  /** isApplicable. A derivation that throws is fatal, whatever the other
      conditions say. */
  function IsApplicable(inputs: seq<PCollection>, fn: GlobalCombineFn): (r: Result<bool>)
    ensures !fn.PlainCombineFn? || |inputs| != 1 ==> r == Ok(false)
    ensures r == Ok(true) <==> Eligible(inputs, fn)
    ensures r.Err? <==> DerivationThrows(inputs, fn)
    ensures r.Err? ==> r.error == AccumulatorCoderNotConstructible
  {
    if !fn.PlainCombineFn? then Ok(false)
    else if |inputs| == 1 then
      var input := inputs[0];
      var windowFnApplicable := input.windowing.windowFnIsNonMerging;
      var triggerApplicable := input.windowing.trigger == DefaultTrigger;
      var accumulatorCoderAvailable: Result<bool> :=
        if input.coder.KvCoder? then
          match fn.accumulatorCoderFor(input.coder.valueCoder)
          case Provided => Ok(true)
          case ProvidedNull => Ok(false)
          case CannotProvide => Err(AccumulatorCoderNotConstructible)
        else Ok(false);
      if accumulatorCoderAvailable.Err? then Err(accumulatorCoderAvailable.error)
      else Ok(windowFnApplicable && triggerApplicable && accumulatorCoderAvailable.value)
    else Ok(false)
  }

  /** matcher().matches: only a Combine.PerKey is considered. */
  function Matches(application: AppliedTransform): (r: Result<bool>)
    ensures !application.transform.CombinePerKey? ==> r == Ok(false)
    ensures r == Ok(true) <==> application.transform.CombinePerKey? && Eligible(application.inputs, application.transform.fn)
    ensures r.Err? <==> application.transform.CombinePerKey? && DerivationThrows(application.inputs, application.transform.fn)
  {
    if application.transform.CombinePerKey? then IsApplicable(application.inputs, application.transform.fn)
    else Ok(false)
  }

  /** The rejection scenarios: a merging window function, a non-default
      trigger, more than one input, or a null accumulator coder each make the
      matcher answer false (or fail, never answer true). */
  lemma RejectionScenarios(application: AppliedTransform)
    requires application.transform.CombinePerKey?
    requires || |application.inputs| != 1
             || !application.inputs[0].windowing.windowFnIsNonMerging
             || application.inputs[0].windowing.trigger != DefaultTrigger
             || !application.inputs[0].coder.KvCoder?
             || (application.transform.fn.PlainCombineFn? &&
                 application.transform.fn.accumulatorCoderFor(application.inputs[0].coder.valueCoder) == ProvidedNull)
    ensures Matches(application) != Ok(true)
    ensures |application.inputs| != 1 ==> Matches(application) == Ok(false)
  {
  }

  /** A throwing derivation is fatal even when the window function already
      rules the rewrite out. */
  lemma DerivationFailureIsFatal(fn: GlobalCombineFn, input: PCollection)
    requires fn.PlainCombineFn? && input.coder.KvCoder?
    requires fn.accumulatorCoderFor(input.coder.valueCoder) == CannotProvide
    ensures IsApplicable([input], fn) == Err(AccumulatorCoderNotConstructible)
  {
  }

  /** The replacement: the original input and a MultiStepCombine built from
      the CombineFn and the original output's coder. */
  datatype MultiStepCombine = MultiStepCombine(fn: GlobalCombineFn, outputCoder: Coder)
  datatype Replacement = Replacement(input: PCollection, transform: MultiStepCombine)

  /** Factory.getReplacementTransform: checkState that the fn is a plain
      CombineFn, then take the only input and the only output. */
  function GetReplacementTransform(application: AppliedTransform): (r: Result<Replacement>)
    requires application.transform.CombinePerKey?
    ensures r == Err(NotACombineFn) <==> !application.transform.fn.PlainCombineFn?
    ensures r.Ok? <==> application.transform.fn.PlainCombineFn? && |application.inputs| == 1 && |application.outputs| == 1
    ensures application.transform.fn.PlainCombineFn? && |application.inputs| != 1 ==>
              r == Err(NotExactlyOneElement(|application.inputs|))
    ensures application.transform.fn.PlainCombineFn? && |application.inputs| == 1 && |application.outputs| != 1 ==>
              r == Err(NotExactlyOneElement(|application.outputs|))
    ensures r.Ok? ==> r.value.input == application.inputs[0]
    ensures r.Ok? ==> r.value.transform.outputCoder == application.outputs[0].coder
    ensures r.Ok? ==> r.value.transform.fn == application.transform.fn
  {
    var fn := application.transform.fn;
    if !fn.PlainCombineFn? then Err(NotACombineFn)
    else if |application.inputs| != 1 then Err(NotExactlyOneElement(|application.inputs|))
    else if |application.outputs| != 1 then Err(NotExactlyOneElement(|application.outputs|))
    else Ok(Replacement(application.inputs[0], MultiStepCombine(fn, application.outputs[0].coder)))
  }

  /** Whatever the matcher accepts, the factory can replace: its guard never
      fires on a matched Combine.PerKey with its one output. */
  lemma MatchedIsReplaceable(application: AppliedTransform)
    requires Matches(application) == Ok(true)
    requires |application.outputs| == 1
    ensures application.transform.CombinePerKey?
    ensures GetReplacementTransform(application).Ok?
    ensures GetReplacementTransform(application).value.input == application.inputs[0]
  {
  }
}
