/** Why the rewrite is sound: however the input is split into bundles,
    pre-combining each bundle, grouping the partial accumulators by windowed
    key and merging them gives what combining all values of the key at once
    gives. The GroupByKey between the two steps is idealised as a filter over
    the concatenated outputs of the bundles. */
module SplitInvariance {
  import opened Common
  import opened Algebra
  import opened Windowing
  import opened WindowedKeys
  import opened PreAggregation
  import opened MergeEvaluation

  function Flatten<T>(ss: seq<seq<T>>): seq<T>
    decreases |ss|
  {
    if ss == [] then [] else Flatten(ss[..|ss| - 1]) + ss[|ss| - 1]
  }

  /** Does the record fall in the group of windowed key id: its key encodes
      to id's encoding and id's window is one of its windows. */
  predicate InGroup<K, A, W(==)>(encode: K -> Bytes, r: Record<K, A, W>, id: WindowedId<W>)
  {
    encode(r.value.key) == id.encoded && id.window in r.windows
  }

  /** The accumulators the GroupByKey gathers for id, in arrival order. */
  function Partials<K, A, W(==)>(encode: K -> Bytes, records: seq<Record<K, A, W>>, id: WindowedId<W>): seq<A>
    decreases |records|
  {
    if records == [] then []
    else
      var r := records[|records| - 1];
      Partials(encode, records[..|records| - 1], id) + if InGroup(encode, r, id) then [r.value.value] else []
  }

  /** The state a bundle left behind when it finished. */
  datatype BundleState<K, A, W> = BundleState(order: seq<WindowedStructuralKey<K, W>>,
                                              accumulators: map<WindowedId<W>, A>,
                                              timestamps: map<WindowedId<W>, int>)

  /** The records outputAccumulators emits from a bundle's state. */
  ghost function BundleOutput<V, K, A, O, W>(fn: CombineFn<V, A, O>, s: BundleState<K, A, W>): seq<Record<K, A, W>>
  {
    if Covers(s.order, s.accumulators, s.timestamps)
    then Emit(fn, s.order, s.accumulators, s.timestamps, |s.order|).records
    else []
  }

  ghost function Outputs<V, K, A, O, W>(fn: CombineFn<V, A, O>, states: seq<BundleState<K, A, W>>): seq<seq<Record<K, A, W>>>
    decreases |states|
  {
    if states == [] then [] else Outputs(fn, states[..|states| - 1]) + [BundleOutput(fn, states[|states| - 1])]
  }

  // ---------------------------------------------------------------------------
  // Concatenation.

  lemma FlattenSnoc<T>(ss: seq<seq<T>>, s: seq<T>)
    ensures Flatten(ss + [s]) == Flatten(ss) + s
  {
    assert (ss + [s])[..|ss|] == ss;
  }

  lemma PartialsSnoc<K, A, W>(encode: K -> Bytes, records: seq<Record<K, A, W>>, r: Record<K, A, W>, id: WindowedId<W>)
    ensures Partials(encode, records + [r], id) == Partials(encode, records, id) + if InGroup(encode, r, id) then [r.value.value] else []
  {
    assert (records + [r])[..|records|] == records;
  }

  lemma {:induction false} PartialsConcat<K, A, W>(encode: K -> Bytes, a: seq<Record<K, A, W>>, b: seq<Record<K, A, W>>, id: WindowedId<W>)
    ensures Partials(encode, a + b, id) == Partials(encode, a, id) + Partials(encode, b, id)
    decreases |b|
  {
    if b == [] {
      assert a + b == a;
    } else {
      var init, r := b[..|b| - 1], b[|b| - 1];
      assert a + b == (a + init) + [r];
      assert (a + b)[..|a + b| - 1] == a + init;
      PartialsConcat(encode, a, init, id);
    }
  }

  lemma {:induction false} ElementsForConcat<K, V, W>(encode: K -> Bytes, a: seq<Element<K, V, W>>, b: seq<Element<K, V, W>>, id: WindowedId<W>)
    ensures ElementsFor(encode, a + b, id) == ElementsFor(encode, a, id) + ElementsFor(encode, b, id)
    decreases |b|
  {
    if b == [] {
      assert a + b == a;
    } else {
      var init, e := b[..|b| - 1], b[|b| - 1];
      assert a + b == (a + init) + [e];
      assert b == init + [e];
      ElementsForConcat(encode, a, init, id);
      ElementsForSnoc(encode, a + init, e, id);
      ElementsForSnoc(encode, init, e, id);
    }
  }

  lemma {:induction false} ValuesConcat<K, V, W>(a: seq<Element<K, V, W>>, b: seq<Element<K, V, W>>)
    ensures Values(a + b) == Values(a) + Values(b)
    decreases |b|
  {
    if b == [] {
      assert a + b == a;
    } else {
      var init, e := b[..|b| - 1], b[|b| - 1];
      assert a + b == (a + init) + [e];
      assert b == init + [e];
      ValuesConcat(a, init);
      ValuesSnoc(a + init, e);
      ValuesSnoc(init, e);
    }
  }

  // ---------------------------------------------------------------------------
  // One bundle.



  lemma IdsOfPrefix<K, W>(ks: seq<WindowedStructuralKey<K, W>>, n: nat)
    requires 0 < n <= |ks|
    ensures Ids(ks[..n]) == Ids(ks[..n - 1]) + {ks[n - 1].Id()}
  {
    assert ks[..n] == ks[..n - 1] + [ks[n - 1]];
    IdsAppend(ks[..n - 1], ks[n - 1]);
  }

  /** Entries with distinct identities: no entry repeats an earlier one. */
  lemma DistinctNotEarlier<K, W>(ks: seq<WindowedStructuralKey<K, W>>, n: nat)
    requires DistinctIds(ks)
    requires 0 < n <= |ks|
    ensures ks[n - 1].Id() !in Ids(ks[..n - 1])
  {
    if ks[n - 1].Id() in Ids(ks[..n - 1]) {
      IdsHasOwner(ks[..n - 1], ks[n - 1].Id());
      assert false;
    }
  }

  /** The record of an entry falls in exactly the group of the entry's own
      windowed key. */
  lemma InGroupOfEntry<K, A, W>(encode: K -> Bytes, wk: WindowedStructuralKey<K, W>, c: A, t: int, id: WindowedId<W>)
    requires wk.key.encoded == encode(wk.GetKey())
    ensures InGroup(encode, WindowedValue(KV(wk.GetKey(), c), t, [wk.GetWindow()]), id) <==> wk.Id() == id
  {
    assert id.window in [wk.GetWindow()] <==> id.window == wk.window;
  }

  /** The group of id gathers at most one record from the first n entries:
      the one of the entry with identity id, if there is one. */
  lemma {:induction false} EmitPartials<V, K, A, O, W>(fn: CombineFn<V, A, O>, encode: K -> Bytes,
                                                       order: seq<WindowedStructuralKey<K, W>>,
                                                       accumulators: map<WindowedId<W>, A>, timestamps: map<WindowedId<W>, int>,
                                                       n: nat, id: WindowedId<W>)
    requires Covers(order, accumulators, timestamps)
    requires n <= |order|
    requires DistinctIds(order)
    requires forall i :: 0 <= i < |order| ==> order[i].key.encoded == encode(order[i].GetKey())
    requires CompactsCleanly(fn, accumulators)
    ensures Emit(fn, order, accumulators, timestamps, n).thrown.None?
    ensures id in Ids(order[..n]) ==> id in accumulators
    ensures Partials(encode, Emit(fn, order, accumulators, timestamps, n).records, id)
         == if id in Ids(order[..n]) then [fn.compact(accumulators[id]).value] else []
    decreases n
  {
    if n == 0 {
      assert order[..0] == [];
    } else {
      EmitPartials(fn, encode, order, accumulators, timestamps, n - 1, id);
      var prior := Emit(fn, order, accumulators, timestamps, n - 1).records;
      var wk := order[n - 1];
      var r := WindowedValue(KV(wk.GetKey(), fn.compact(accumulators[wk.Id()]).value), timestamps[wk.Id()], [wk.GetWindow()]);
      assert Emit(fn, order, accumulators, timestamps, n).records == prior + [r];
      PartialsSnoc(encode, prior, r, id);
      InGroupOfEntry(encode, wk, fn.compact(accumulators[wk.Id()]).value, timestamps[wk.Id()], id);
      IdsOfPrefix(order, n);
      DistinctNotEarlier(order, n);
    }
  }

  /** The GroupByKey view of one finished bundle: the group of id receives one
      partial, the compacted fold of id's values, exactly when the bundle had
      an element with windowed key id. */
  lemma BundlePartials<V, K, A, O, W>(fn: CombineFn<V, A, O>, tsc: TimestampCombiner<W>, encode: K -> Bytes,
                                      es: seq<Element<K, V, W>>, s: BundleState<K, A, W>, id: WindowedId<W>)
    requires Summarises(fn, tsc, encode, es, s.order, s.accumulators, s.timestamps)
    requires CompactsCleanly(fn, s.accumulators)
    ensures ElementsFor(encode, es, id) == [] ==> Partials(encode, BundleOutput(fn, s), id) == []
    ensures ElementsFor(encode, es, id) != [] ==>
      && Accumulate(fn, Values(ElementsFor(encode, es, id))).Returned?
      && fn.compact(Accumulate(fn, Values(ElementsFor(encode, es, id))).value).Returned?
      && Partials(encode, BundleOutput(fn, s), id) == [fn.compact(Accumulate(fn, Values(ElementsFor(encode, es, id))).value).value]
  {
    SummarisedCovers(fn, tsc, encode, es, s.order, s.accumulators, s.timestamps);
    FirstSeenDistinct(encode, es);
    forall i | 0 <= i < |s.order| ensures s.order[i].key.encoded == encode(s.order[i].GetKey()) {
      FirstSeenFromFirstOccurrence(encode, es, i);
    }
    EmitPartials(fn, encode, s.order, s.accumulators, s.timestamps, |s.order|, id);
    assert s.order[..|s.order|] == s.order;
    FirstSeenExactly(encode, es, id);
  }

  /** With the summing CombineFn, the partial of one bundle for id is the sum
      of id's values in that bundle. */
  lemma BundlePartialSum<K, W>(tsc: TimestampCombiner<W>, encode: K -> Bytes,
                               es: seq<Element<K, int, W>>, s: BundleState<K, int, W>, id: WindowedId<W>)
    requires Summarises(SumFn(), tsc, encode, es, s.order, s.accumulators, s.timestamps)
    ensures Sum(Partials(encode, BundleOutput(SumFn(), s), id)) == Sum(Values(ElementsFor(encode, es, id)))
  {
    BundlePartials(SumFn(), tsc, encode, es, s, id);
    var vs := Values(ElementsFor(encode, es, id));
    SumAccumulate(vs);
    if ElementsFor(encode, es, id) == [] {
      assert vs == [];
    } else {
      var p := Partials(encode, BundleOutput(SumFn(), s), id);
      assert p == [Sum(vs)];
      assert p[..0] == [];
    }
  }

  // ---------------------------------------------------------------------------
  // Any split.

  /** The partials of id across all bundles add up to the sum of id's values
      in the whole input. */
  lemma {:induction false} PartialSums<K, W>(tsc: TimestampCombiner<W>, encode: K -> Bytes,
                                             bundles: seq<seq<Element<K, int, W>>>, states: seq<BundleState<K, int, W>>,
                                             id: WindowedId<W>)
    requires |states| == |bundles|
    requires forall i :: 0 <= i < |bundles| ==>
               Summarises(SumFn(), tsc, encode, bundles[i], states[i].order, states[i].accumulators, states[i].timestamps)
    ensures Sum(Partials(encode, Flatten(Outputs(SumFn(), states)), id)) == Sum(Values(ElementsFor(encode, Flatten(bundles), id)))
    decreases |bundles|
  {
    if bundles != [] {
      var n := |bundles| - 1;
      var bs, ss := bundles[..n], states[..n];
      PartialSums(tsc, encode, bs, ss, id);
      BundlePartialSum(tsc, encode, bundles[n], states[n], id);
      FlattenSnoc(Outputs(SumFn(), ss), BundleOutput(SumFn(), states[n]));
      FlattenSnoc(bs, bundles[n]);
      SumsAppend(encode, Flatten(Outputs(SumFn(), ss)), BundleOutput(SumFn(), states[n]), Flatten(bs), bundles[n], id);
    }
  }

  /** Partial sums that match the values on two pieces match on the whole. */
  lemma SumsAppend<K, W>(encode: K -> Bytes, out1: seq<Record<K, int, W>>, out2: seq<Record<K, int, W>>,
                         es1: seq<Element<K, int, W>>, es2: seq<Element<K, int, W>>, id: WindowedId<W>)
    requires Sum(Partials(encode, out1, id)) == Sum(Values(ElementsFor(encode, es1, id)))
    requires Sum(Partials(encode, out2, id)) == Sum(Values(ElementsFor(encode, es2, id)))
    ensures Sum(Partials(encode, out1 + out2, id)) == Sum(Values(ElementsFor(encode, es1 + es2, id)))
  {
    PartialsConcat(encode, out1, out2, id);
    SumConcat(Partials(encode, out1, id), Partials(encode, out2, id));
    ElementsForConcat(encode, es1, es2, id);
    ValuesConcat(ElementsFor(encode, es1, id), ElementsFor(encode, es2, id));
    SumConcat(Values(ElementsFor(encode, es1, id)), Values(ElementsFor(encode, es2, id)));
  }

  /** Split invariance: for any split of the input into bundles, the merged
      and extracted output for a windowed key is the sum of all its values. */
  lemma SplitInvariance<K, W>(tsc: TimestampCombiner<W>, encode: K -> Bytes,
                              bundles: seq<seq<Element<K, int, W>>>, states: seq<BundleState<K, int, W>>,
                              id: WindowedId<W>)
    requires |states| == |bundles|
    requires forall i :: 0 <= i < |bundles| ==>
               Summarises(SumFn(), tsc, encode, bundles[i], states[i].order, states[i].accumulators, states[i].timestamps)
    ensures MergeAndExtract(SumFn(), Partials(encode, Flatten(Outputs(SumFn(), states)), id))
         == Returned(Sum(Values(ElementsFor(encode, Flatten(bundles), id))))
  {
    PartialSums(tsc, encode, bundles, states, id);
    SumMergeAndExtract(Partials(encode, Flatten(Outputs(SumFn(), states)), id));
  }

  /** Keys that are their own encoding. */
  function Verbatim(k: Bytes): Bytes { k }

  /** Key A with values 1, 3, 4 and key B with value 2, all in window 0, split
      into the bundles [A1, B2] and [A3, A4]. */
  function ExampleBundles(): seq<seq<Element<Bytes, int, int>>>
  {
    [[Element([65], 1, 0, 0), Element([66], 2, 0, 0)], [Element([65], 3, 0, 0), Element([65], 4, 0, 0)]]
  }

  lemma ExampleFlattened()
    ensures Flatten(ExampleBundles())
         == [Element([65], 1, 0, 0), Element([66], 2, 0, 0), Element([65], 3, 0, 0), Element([65], 4, 0, 0)]
  {
    var b0: seq<Element<Bytes, int, int>> := [Element([65], 1, 0, 0), Element([66], 2, 0, 0)];
    var b1: seq<Element<Bytes, int, int>> := [Element([65], 3, 0, 0), Element([65], 4, 0, 0)];
    assert ExampleBundles() == [b0, b1];
    assert Flatten([b0]) == b0 by { assert [b0][..0] == []; }
    assert [b0, b1][..1] == [b0];
  }


  lemma ExampleGroupA()
    ensures ElementsFor(Verbatim, Flatten(ExampleBundles()), WindowedId([65], 0))
         == [Element([65], 1, 0, 0), Element([65], 3, 0, 0), Element([65], 4, 0, 0)]
  {
    var a1: Element<Bytes, int, int>, b2: Element<Bytes, int, int> := Element([65], 1, 0, 0), Element([66], 2, 0, 0);
    var a3: Element<Bytes, int, int>, a4: Element<Bytes, int, int> := Element([65], 3, 0, 0), Element([65], 4, 0, 0);
    ExampleFlattened();
    assert [a1, b2, a3, a4] == [a1, b2, a3] + [a4];
    assert [a1, b2, a3] == [a1, b2] + [a3];
    assert [a1, b2] == [a1] + [b2];
    assert [a1] == [] + [a1];
    ElementsForSnoc(Verbatim, [a1, b2, a3], a4, WindowedId([65], 0));
    ElementsForSnoc(Verbatim, [a1, b2], a3, WindowedId([65], 0));
    ElementsForSnoc(Verbatim, [a1], b2, WindowedId([65], 0));
    ElementsForSnoc(Verbatim, [], a1, WindowedId([65], 0));
  }

  lemma ExampleGroupB()
    ensures ElementsFor(Verbatim, Flatten(ExampleBundles()), WindowedId([66], 0)) == [Element([66], 2, 0, 0)]
  {
    var a1: Element<Bytes, int, int>, b2: Element<Bytes, int, int> := Element([65], 1, 0, 0), Element([66], 2, 0, 0);
    var a3: Element<Bytes, int, int>, a4: Element<Bytes, int, int> := Element([65], 3, 0, 0), Element([65], 4, 0, 0);
    ExampleFlattened();
    assert [a1, b2, a3, a4] == [a1, b2, a3] + [a4];
    assert [a1, b2, a3] == [a1, b2] + [a3];
    assert [a1, b2] == [a1] + [b2];
    assert [a1] == [] + [a1];
    ElementsForSnoc(Verbatim, [a1, b2, a3], a4, WindowedId([66], 0));
    ElementsForSnoc(Verbatim, [a1, b2], a3, WindowedId([66], 0));
    ElementsForSnoc(Verbatim, [a1], b2, WindowedId([66], 0));
    ElementsForSnoc(Verbatim, [], a1, WindowedId([66], 0));
  }

  /** Over the whole input, A's values add up to 8 and B's to 2. */
  lemma ExampleTotals()
    ensures Sum(Values(ElementsFor(Verbatim, Flatten(ExampleBundles()), WindowedId([65], 0)))) == 8
    ensures Sum(Values(ElementsFor(Verbatim, Flatten(ExampleBundles()), WindowedId([66], 0)))) == 2
  {
    var a1: Element<Bytes, int, int>, b2: Element<Bytes, int, int> := Element([65], 1, 0, 0), Element([66], 2, 0, 0);
    var a3: Element<Bytes, int, int>, a4: Element<Bytes, int, int> := Element([65], 3, 0, 0), Element([65], 4, 0, 0);
    ExampleGroupA();
    ExampleGroupB();
    assert Values([a1, a3, a4]) == [1, 3, 4] by {
      assert [a1, a3, a4] == [a1, a3] + [a4];
      assert [a1, a3] == [a1] + [a3];
      assert [a1] == [] + [a1];
      ValuesSnoc([a1, a3], a4);
      ValuesSnoc([a1], a3);
      ValuesSnoc([], a1);
    }
    assert Values([b2]) == [2] by {
      assert [b2] == [] + [b2];
      ValuesSnoc([], b2);
    }
    assert Sum([1, 3, 4]) == 8 by {
      assert [1, 3, 4] == [1, 3] + [4];
      assert [1, 3] == [1] + [3];
      SumConcat([1, 3], [4]);
      SumConcat([1], [3]);
      assert Sum([1]) == 1 by { assert [1][..0] == []; }
      assert Sum([3]) == 3 by { assert [3][..0] == []; }
      assert Sum([4]) == 4 by { assert [4][..0] == []; }
    }
    assert Sum([2]) == 2 by { assert [2][..0] == []; }
  }

  /** Whatever states the two bundles of the example leave, merging gives
      A = 8 and B = 2, as one combine over all values would. */
  lemma {:induction false} SplitExample(tsc: TimestampCombiner<int>, states: seq<BundleState<Bytes, int, int>>)
    requires |states| == 2
    requires forall i :: 0 <= i < 2 ==>
               Summarises(SumFn(), tsc, Verbatim, ExampleBundles()[i], states[i].order, states[i].accumulators, states[i].timestamps)
    ensures MergeAndExtract(SumFn(), Partials(Verbatim, Flatten(Outputs(SumFn(), states)), WindowedId([65], 0))) == Returned(8)
    ensures MergeAndExtract(SumFn(), Partials(Verbatim, Flatten(Outputs(SumFn(), states)), WindowedId([66], 0))) == Returned(2)
  {
    SplitInvariance(tsc, Verbatim, ExampleBundles(), states, WindowedId([65], 0));
    SplitInvariance(tsc, Verbatim, ExampleBundles(), states, WindowedId([66], 0));
    ExampleTotals();
  }
}
