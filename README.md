# Multi-step combine in the direct runner

A Dafny model of `MultiStepCombine`, the direct runner's rewrite of a
per-key `Combine` into three steps:

1. a DoFn (`CombineInputs`) that pre-aggregates each bundle into one
   accumulator and one output timestamp per key and window;
2. a `GroupByKey`;
3. an evaluator (`MergeAccumulatorsAndExtractOutputEvaluator`) that merges
   each key's partial accumulators and extracts the output.

It also models the matcher that decides when the rewrite applies, and the
override factory's guard.

Modules, one per file:

- `Common` (common.dfy): options, the fallible result of a user callback
  (`Try`), and the errors the runner raises.
- `Algebra` (algebra.dfy): the user's `CombineFn`, as five callbacks that
  may throw; the laws a conforming CombineFn obeys; a summing CombineFn
  that obeys them.
- `Windowing` (windowing.dfy): `KV`, `WindowedValue`, and the
  `TimestampCombiner` (`assign`, `combine`) with EARLIEST as an instance.
- `WindowedKeys` (windowed_key.dfy): `WindowedStructuralKey`, its creation
  and its equality.
- `Applicability` (applicability.dfy): `matcher()`, `isApplicable` and
  `Factory.getReplacementTransform`.
- `PreAggregation` (combine_inputs.dfy): the `CombineInputs` DoFn as a class.
  - Its two `LinkedHashMap` fields are an insertion order plus two maps
    keyed by the windowed key's identity.
  - Reference functions (`FirstSeen`, `ElementsFor`, `Emit`) say what the
    state and the emitted records must be for the elements of a bundle.
  - `Valid` (through `Summarises`) is the invariant the methods keep.
- `MergeEvaluation` (merge_evaluator.dfy): the evaluator as a class whose
  output bundle is an append-only sequence.
- `SplitInvariance` (split_invariance.dfy): why the rewrite is sound.
  - However the input is split into bundles, pre-combining, grouping and
    merging a key gives what one combine over all its values gives.
  - This is shown for the summing CombineFn, with the `GroupByKey`
    idealised as a filter over the concatenated bundle outputs.

In Java, `processElement` at line 259 stores
`combine(assigned, timestamps.get(key))`. For a first-seen key,
`timestamps.get(key)` is the assigned timestamp just put there, so the
first element stores `combine(a1, a1)`. `Windowing.CombineAll` keeps that
shape.

The Javadoc at lines 224-226 says the per-bundle state must be cleared
when a bundle is completed. The code nulls the maps only after the output
loop at lines 264-271 completes, so when a `compact` throws, both maps are
still set. The model follows
the code: `OutputAccumulators` then returns the fault and the records
output so far, and leaves the state as it was.

## Model

| member | source | states |
|---|---|---|
| Applicability.IsApplicable | runners/direct-java/src/main/java/org/apache/beam/runners/direct/MultiStepCombine.java:77-115 | false unless the fn is a plain CombineFn with exactly one input; true exactly when the window fn is non-merging, the trigger is the default one, the input coder is a KvCoder and a non-null accumulator coder is derived; an error (never false) exactly when the derivation throws |
| Applicability.Matches | runners/direct-java/src/main/java/org/apache/beam/runners/direct/MultiStepCombine.java:65-75 | only a Combine.PerKey is considered (anything else is false); true and error exactly as isApplicable says for the transform's fn and inputs |
| Applicability.RejectionScenarios | runners/direct-java/src/main/java/org/apache/beam/runners/direct/MultiStepCombine.java:79-114 | a merging window fn, a non-default trigger, a non-KV coder, a null accumulator coder or an input count other than one never yields true; a multi-input application yields false |
| Applicability.DerivationFailureIsFatal | runners/direct-java/src/main/java/org/apache/beam/runners/direct/MultiStepCombine.java:91-111 | a CombineFn whose accumulator coder cannot be provided makes isApplicable fail with the fatal error whatever the window fn and trigger are |
| Applicability.GetReplacementTransform | runners/direct-java/src/main/java/org/apache/beam/runners/direct/MultiStepCombine.java:130-155 | the checkState fires exactly when the fn is not a CombineFn; a CombineFn without exactly one input, or then without exactly one output, fails getOnlyElement; otherwise the replacement takes the only input and a MultiStepCombine over the application's own CombineFn with the only output's coder |
| Applicability.MatchedIsReplaceable | runners/direct-java/src/main/java/org/apache/beam/runners/direct/MultiStepCombine.java:65-155 | whatever the matcher accepts (with its one output) the factory replaces without the guard firing, from the matched input |
| WindowedKeys.New | runners/direct-java/src/main/java/org/apache/beam/runners/direct/MultiStepCombine.java:284-287 | construction fails on a null key first, then on a null window, and otherwise keeps both |
| WindowedKeys.Create | runners/direct-java/src/main/java/org/apache/beam/runners/direct/MultiStepCombine.java:276-279 | with a window present, the key keeps the user key and window and is identified by the key's encoding and the window; a null window fails |
| WindowedKeys.EqualsIsIdentity | runners/direct-java/src/main/java/org/apache/beam/runners/direct/MultiStepCombine.java:297-304 | equals agrees with the identity the per-bundle maps are keyed by: two windowed keys are equal exactly when their `WindowedId`s (encoding and window) are equal, so one map entry stands for one equals-class |
| WindowedKeys.SameEncodingGroups | runners/direct-java/src/main/java/org/apache/beam/runners/direct/MultiStepCombine.java:276-304 | keys with equal encodings give equal windowed keys in one window and unequal ones across two windows |
| Windowing.EarliestIsMinimum | runners/direct-java/src/main/java/org/apache/beam/runners/direct/MultiStepCombine.java:252-259 | under EARLIEST the stored timestamp of a group is one of its assigned timestamps and no later than any of them |
| Windowing.EarliestExample | runners/direct-java/src/main/java/org/apache/beam/runners/direct/MultiStepCombine.java:252-259 | event times 10, 5, 7 under EARLIEST are stored as 5 |
| PreAggregation.CombineInputs.constructor | runners/direct-java/src/main/java/org/apache/beam/runners/direct/MultiStepCombine.java:232-239 | the DoFn holds the CombineFn, timestamp combiner and key coder and starts with no per-bundle state |
| PreAggregation.CombineInputs.StartBundle | runners/direct-java/src/main/java/org/apache/beam/runners/direct/MultiStepCombine.java:241-245 | both maps start empty and the state summarises the empty bundle |
| PreAggregation.CombineInputs.ProcessElement | runners/direct-java/src/main/java/org/apache/beam/runners/direct/MultiStepCombine.java:247-260 | a first-seen windowed key is appended to the order with createAccumulator(); its accumulator becomes addInput(old or fresh, value) and its timestamp combine(assigned, stored or assigned); no other entry changes; a throwing create leaves the state untouched, a throwing addInput leaves the fresh entry put; without a throw the state summarises the bundle plus the element |
| PreAggregation.CombineInputs.OutputAccumulators | runners/direct-java/src/main/java/org/apache/beam/runners/direct/MultiStepCombine.java:262-272 | emits exactly the records of the reference emission over the entries in insertion order; without a throw both maps are dropped and no state survives; a throwing compact leaves the state as it was |
| PreAggregation.CombineInputs.CoveredWhenValid | runners/direct-java/src/main/java/org/apache/beam/runners/direct/MultiStepCombine.java:264-268 | every listed entry has an accumulator and a timestamp to emit |
| PreAggregation.PreCombineBundle | runners/direct-java/src/main/java/org/apache/beam/runners/direct/MultiStepCombine.java:241-272 | a CombineFn that never throws always gets its records back; for any CombineFn, a whole bundle run through the DoFn without a throw emits one record per distinct windowed key in first-seen order, each the key, the compacted fold of its values, the combined timestamp of its elements and its window; a throw discards the bundle's records |
| PreAggregation.FirstSeenExactly | runners/direct-java/src/main/java/org/apache/beam/runners/direct/MultiStepCombine.java:249-257 | a windowed key has a map entry exactly when some element of the bundle has that key and window |
| PreAggregation.FirstSeenDistinct | runners/direct-java/src/main/java/org/apache/beam/runners/direct/MultiStepCombine.java:249-257 | no windowed key has two entries |
| PreAggregation.FirstSeenFromFirstOccurrence | runners/direct-java/src/main/java/org/apache/beam/runners/direct/MultiStepCombine.java:249-257 | each entry's key object is that of the first element with its windowed key, and carries that key's encoding |
| PreAggregation.ProcessStep | runners/direct-java/src/main/java/org/apache/beam/runners/direct/MultiStepCombine.java:247-260 | the updates processElement makes turn the summary of a bundle into the summary of the bundle plus the element |
| PreAggregation.AccumulatorsStep | runners/direct-java/src/main/java/org/apache/beam/runners/direct/MultiStepCombine.java:251-258 | after the update each accumulator is createAccumulator() folded with addInput over exactly its key's values |
| PreAggregation.TimestampsStep | runners/direct-java/src/main/java/org/apache/beam/runners/direct/MultiStepCombine.java:252-259 | after the update each timestamp is the combine-fold of its key's assigned timestamps, never an overwrite |
| PreAggregation.FinishedBundle | runners/direct-java/src/main/java/org/apache/beam/runners/direct/MultiStepCombine.java:262-272 | from the summary of a bundle whose accumulators all compact without throwing (`CompactsCleanly`, about this bundle's state only), outputAccumulators emits one record per distinct windowed key in first-seen order with the compacted fold of its values at its combined timestamp in its window |
| PreAggregation.EmittedBundle | runners/direct-java/src/main/java/org/apache/beam/runners/direct/MultiStepCombine.java:262-272 | for any CombineFn, the records of an emission that ended without a fault are one per distinct windowed key in first-seen order, each the compacted fold of its values at its combined timestamp in its window |
| PreAggregation.EmitComplete | runners/direct-java/src/main/java/org/apache/beam/runners/direct/MultiStepCombine.java:264-269 | when no compact throws, record i is entry i's key with its compacted accumulator at its stored timestamp in its window |
| PreAggregation.EmitStopsAtFault | runners/direct-java/src/main/java/org/apache/beam/runners/direct/MultiStepCombine.java:264-269 | once a compact throws, later entries emit nothing |
| PreAggregation.EmitLength | runners/direct-java/src/main/java/org/apache/beam/runners/direct/MultiStepCombine.java:264-269 | one record per emitted entry; a complete emission has one record per entry |
| PreAggregation.EmitNoFault | runners/direct-java/src/main/java/org/apache/beam/runners/direct/MultiStepCombine.java:264-269 | an emission that ended without a fault compacted every entry it reached without a throw |
| PreAggregation.SummarisedCovers | runners/direct-java/src/main/java/org/apache/beam/runners/direct/MultiStepCombine.java:264-268 | a summarised state has an accumulator and a timestamp for every entry |
| MergeEvaluation.MergeIgnoresFreshAccumulators | runners/direct-java/src/main/java/org/apache/beam/runners/direct/MultiStepCombine.java:417-424 | under the empty-accumulator law, bracketing the partials with two fresh accumulators gives the output of merging the partials alone |
| MergeEvaluation.MergeAndExtractReturns | runners/direct-java/src/main/java/org/apache/beam/runners/direct/MultiStepCombine.java:416-428 | a CombineFn whose callbacks never throw always yields an output |
| MergeEvaluation.SumMergeAndExtract | runners/direct-java/src/main/java/org/apache/beam/runners/direct/MultiStepCombine.java:417-424 | with the summing CombineFn the output is the sum of the partials |
| MergeEvaluation.MergeAccumulatorsAndExtractOutputEvaluator.constructor | runners/direct-java/src/main/java/org/apache/beam/runners/direct/MultiStepCombine.java:393-406 | the evaluator starts with the CombineFn and an empty output bundle |
| MergeEvaluation.MergeAccumulatorsAndExtractOutputEvaluator.ProcessElement | runners/direct-java/src/main/java/org/apache/beam/runners/direct/MultiStepCombine.java:408-429 | fails unless the element is in exactly one window; wraps any throwing callback in a UserCodeException and outputs nothing then; otherwise appends exactly (key, extract(merge([create()] ++ partials ++ [create()]))) with the input's timestamp and windows |
| MergeEvaluation.MergeAccumulatorsAndExtractOutputEvaluator.FinishBundle | runners/direct-java/src/main/java/org/apache/beam/runners/direct/MultiStepCombine.java:431-436 | returns everything output so far with no watermark hold |
| Algebra.CompactTwice | runners/direct-java/src/main/java/org/apache/beam/runners/direct/MultiStepCombine.java:266 | under the compact law, compacting an already compacted accumulator again does not change its output |
| Algebra.SumFnLaws | runners/direct-java/src/main/java/org/apache/beam/runners/direct/MultiStepCombine.java:254-266 | the summing CombineFn never throws and obeys the empty-accumulator and compact laws |
| Algebra.SumAccumulate | runners/direct-java/src/main/java/org/apache/beam/runners/direct/MultiStepCombine.java:254-258 | adding values to a fresh summing accumulator gives their sum |
| SplitInvariance.BundlePartials | runners/direct-java/src/main/java/org/apache/beam/runners/direct/MultiStepCombine.java:207-216 | when none of the bundle's own accumulators makes compact throw (`CompactsCleanly`), the grouping receives from the bundle exactly one partial for a windowed key, the compacted fold of its values, when the bundle has an element with that key, and none otherwise |
| SplitInvariance.BundlePartialSum | runners/direct-java/src/main/java/org/apache/beam/runners/direct/MultiStepCombine.java:207-216 | with the summing CombineFn one bundle's partials for a key add up to that key's values in the bundle |
| SplitInvariance.PartialSums | runners/direct-java/src/main/java/org/apache/beam/runners/direct/MultiStepCombine.java:207-216 | over any split into bundles the partials of a key add up to the sum of its values in the whole input |
| SplitInvariance.SplitInvariance | runners/direct-java/src/main/java/org/apache/beam/runners/direct/MultiStepCombine.java:207-216 | however the input is split into bundles, pre-combining, grouping and merging a key gives the sum of all its values |
| SplitInvariance.SplitExample | runners/direct-java/src/main/java/org/apache/beam/runners/direct/MultiStepCombine.java:207-216 | key A with 1, 3, 4 and key B with 2 split as [A1, B2] and [A3, A4] merge to A = 8 and B = 2 |
| SplitInvariance.EmitPartials | runners/direct-java/src/main/java/org/apache/beam/runners/direct/MultiStepCombine.java:264-269 | when none of the state's accumulators makes compact throw (`CompactsCleanly`), a windowed key's group gathers at most one record from the emission of the first n entries: its own entry's compacted accumulator, if that entry is among them |

## Left out

- `expand` (lines 187-217), `MergeAndExtractAccumulatorOutput` with its `getUrn`, `getSpec` and `expand`, `of` and the constructors: graph wiring with no behaviour beyond what the matcher and the factory guard already decide.
- `MergeAndExtractAccumulatorOutputEvaluatorFactory` (lines 354-381): framework dispatch and casting.
- Coders, the `CoderRegistry` and `StructuralKey.of` are foreign code. The key coder is a function from key to bytes. `getAccumulatorCoder` is a per-value-coder oracle answering provided, null or throws.
- The `GroupByKey` and the bundle commit protocol of the runner are external. Grouping is idealised as `SplitInvariance.Partials`, a filter over the concatenated bundle outputs. Output bundles are sequences.
- Concurrency between bundles is left out: each bundle owns its state, so the model is one sequential bundle at a time.
- Joda `Instant` is an `int` of milliseconds. Windows are an abstract type with equality. Window functions and triggers are reduced to the facts the matcher reads: non-merging, and whether the trigger is the default one.
- Pane information, the DoFn runner's wrapping of exceptions thrown from `CombineInputs`, and aborting a bundle are runner behaviour outside this file. Faults from `CombineInputs` are returned raw, as `Option<Fault>`.
- `hashCode` is subsumed by equality on the windowed key's identity (`WindowedId`); hash collisions are not modelled.
- A `null` accumulator stored by a CombineFn is treated as present. Java's `accumulator == null` test would create a fresh one on the next element.
- Accumulators are immutable values. `addInput`, `compact` and `mergeAccumulators` may update their argument in place in Java. A callback that mutates an accumulator and then throws is not captured: on those error paths the model keeps the accumulator as it was before the call (`CombineInputs.ProcessElement` after a throwing `addInput`, `CombineInputs.OutputAccumulators` after a throwing `compact`).
- `createAccumulator` is a function of nothing. So the second call in the evaluator returns what the first did and cannot throw where the first did not.
- Split invariance is proved for the summing CombineFn. For a general CombineFn, the lemma `SplitInvariance.BundlePartials` states what each bundle contributes. Merge associativity over arbitrary splits is not stated as a law.
- PreAggregation.CombineInputs.ProcessElement: requires only that the two maps have the same keys, which the Java maps always do inside a bundle. It keeps `Valid` only when `Valid` held before and no callback threw, because a throwing `addInput` leaves a freshly created entry behind, as Java does.
- PreAggregation.CombineInputs.OutputAccumulators: requires that every listed entry has an accumulator and a timestamp (`Covers`). `CoveredWhenValid` shows that every state `ProcessElement` leaves without a throw meets this.
