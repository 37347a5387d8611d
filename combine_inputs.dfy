/** The first step of the multi-step combine: CombineInputs, a DoFn that
    folds the elements of one bundle into one accumulator per windowed key and
    emits the compacted accumulators when the bundle finishes. */
module PreAggregation {
  import opened Common
  import opened Algebra
  import opened Windowing
  import opened WindowedKeys

  /** One element as processElement sees it: the key and value of the KV, its
      event time and the one window it is being processed in. */
  datatype Element<K, V, W> = Element(key: K, value: V, timestamp: int, window: W)

  /** What finishing the bundle produced: the records output before any
      failure, and the failure, if a callback threw. */
  datatype Emission<T> = Emission(records: seq<T>, thrown: Option<Fault>)

  type Record<K, A, W> = WindowedValue<KV<K, A>, W>

  // ---------------------------------------------------------------------------
  // Reference definitions: what the per-bundle state should hold after a
  // sequence of elements.

  function KeyOf<K, V, W(==)>(encode: K -> Bytes, e: Element<K, V, W>): WindowedStructuralKey<K, W>
  {
    Create(encode, e.key, Some(e.window)).value
  }

  function IdOf<K, V, W>(encode: K -> Bytes, e: Element<K, V, W>): WindowedId<W>
  {
    WindowedId(encode(e.key), e.window)
  }

  function Ids<K, W(==)>(ks: seq<WindowedStructuralKey<K, W>>): set<WindowedId<W>>
    decreases |ks|
  {
    if ks == [] then {} else Ids(ks[..|ks| - 1]) + {ks[|ks| - 1].Id()}
  }

  ghost predicate DistinctIds<K, W>(ks: seq<WindowedStructuralKey<K, W>>)
  {
    forall i, j :: 0 <= i < j < |ks| ==> ks[i].Id() != ks[j].Id()
  }

  /** The windowed keys of es, each once, in the order of their first
      occurrence, each holding the key of that first occurrence. */
  function FirstSeen<K, V, W(==)>(encode: K -> Bytes, es: seq<Element<K, V, W>>): seq<WindowedStructuralKey<K, W>>
    decreases |es|
  {
    if es == [] then []
    else
      var prior := FirstSeen(encode, es[..|es| - 1]);
      var e := es[|es| - 1];
      if IdOf(encode, e) in Ids(prior) then prior else prior + [KeyOf(encode, e)]
  }

  /** The elements of es with windowed key id, in order. */
  function ElementsFor<K, V, W(==)>(encode: K -> Bytes, es: seq<Element<K, V, W>>, id: WindowedId<W>): seq<Element<K, V, W>>
    decreases |es|
  {
    if es == [] then []
    else
      var e := es[|es| - 1];
      ElementsFor(encode, es[..|es| - 1], id) + if IdOf(encode, e) == id then [e] else []
  }

  function Values<K, V, W>(es: seq<Element<K, V, W>>): seq<V>
    decreases |es|
  {
    if es == [] then [] else Values(es[..|es| - 1]) + [es[|es| - 1].value]
  }

  /** The timestamps the combiner assigns to es, in order. */
  function Assigned<K, V, W>(tsc: TimestampCombiner<W>, es: seq<Element<K, V, W>>): seq<int>
    decreases |es|
  {
    if es == [] then []
    else
      var e := es[|es| - 1];
      Assigned(tsc, es[..|es| - 1]) + [tsc.assign(e.window, e.timestamp)]
  }

  // ---------------------------------------------------------------------------
  // Facts about the reference definitions.

  lemma PrefixOfSnoc<T>(s: seq<T>, x: T)
    ensures (s + [x])[..|s|] == s
    ensures (s + [x])[|s|] == x
  {
  }

  /** An index of s keeps its element and its prefix once x is appended. */
  lemma EarlierInSnoc<T>(s: seq<T>, x: T, i: nat)
    requires i < |s|
    ensures (s + [x])[i] == s[i] && (s + [x])[..i] == s[..i]
  {
  }

  lemma IdsAppend<K, W>(ks: seq<WindowedStructuralKey<K, W>>, k: WindowedStructuralKey<K, W>)
    ensures Ids(ks + [k]) == Ids(ks) + {k.Id()}
  {
    PrefixOfSnoc(ks, k);
  }

  /** Every entry's identity is among the identities of the entries. */
  lemma {:induction false} IdsHasEntry<K, W>(ks: seq<WindowedStructuralKey<K, W>>, i: nat)
    requires i < |ks|
    ensures ks[i].Id() in Ids(ks)
    decreases |ks|
  {
    if i < |ks| - 1 {
      IdsHasEntry(ks[..|ks| - 1], i);
    }
  }
  /** A listed identity belongs to some entry. */
  lemma {:induction false} IdsHasOwner<K, W>(ks: seq<WindowedStructuralKey<K, W>>, id: WindowedId<W>)
    requires id in Ids(ks)
    ensures exists j :: 0 <= j < |ks| && ks[j].Id() == id
    decreases |ks|
  {
    var init := ks[..|ks| - 1];
    if id != ks[|ks| - 1].Id() {
      IdsHasOwner(init, id);
      var j :| 0 <= j < |init| && init[j].Id() == id;
      assert ks[j] == init[j];
    }
  }

  /** The windowed key create() builds for an element has the element's key,
      window and encoding. */
  lemma KeyOfElement<K, V, W>(encode: K -> Bytes, e: Element<K, V, W>)
    ensures KeyOf(encode, e).Id() == IdOf(encode, e)
    ensures KeyOf(encode, e).GetKey() == e.key && KeyOf(encode, e).GetWindow() == e.window
    ensures KeyOf(encode, e).key.encoded == encode(e.key)
  {
  }

  lemma FirstSeenSnoc<K, V, W>(encode: K -> Bytes, es: seq<Element<K, V, W>>, e: Element<K, V, W>)
    ensures FirstSeen(encode, es + [e])
         == if IdOf(encode, e) in Ids(FirstSeen(encode, es)) then FirstSeen(encode, es)
            else FirstSeen(encode, es) + [KeyOf(encode, e)]
  {
    PrefixOfSnoc(es, e);
  }

  lemma ElementsForSnoc<K, V, W>(encode: K -> Bytes, es: seq<Element<K, V, W>>, e: Element<K, V, W>, id: WindowedId<W>)
    ensures ElementsFor(encode, es + [e], id) == ElementsFor(encode, es, id) + if IdOf(encode, e) == id then [e] else []
  {
    PrefixOfSnoc(es, e);
  }

  lemma ValuesSnoc<K, V, W>(es: seq<Element<K, V, W>>, e: Element<K, V, W>)
    ensures Values(es + [e]) == Values(es) + [e.value]
  {
    PrefixOfSnoc(es, e);
  }

  lemma AssignedSnoc<K, V, W>(tsc: TimestampCombiner<W>, es: seq<Element<K, V, W>>, e: Element<K, V, W>)
    ensures Assigned(tsc, es + [e]) == Assigned(tsc, es) + [tsc.assign(e.window, e.timestamp)]
  {
    PrefixOfSnoc(es, e);
  }

  lemma AccumulateSnoc<V, A, O>(fn: CombineFn<V, A, O>, vs: seq<V>, v: V)
    ensures Accumulate(fn, vs + [v]) == match Accumulate(fn, vs) case Threw(f) => Threw(f) case Returned(a) => fn.add(a, v)
  {
    assert (vs + [v])[..|vs|] == vs;
  }

  lemma CombineAllSnoc<W>(tsc: TimestampCombiner<W>, ts: seq<int>, t: int)
    ensures CombineAll(tsc, ts + [t]) == tsc.combine(t, if ts == [] then t else CombineAll(tsc, ts))
  {
    assert (ts + [t])[..|ts|] == ts;
  }

  /** No windowed key is listed twice. */
  lemma {:induction false} FirstSeenDistinct<K, V, W>(encode: K -> Bytes, es: seq<Element<K, V, W>>)
    ensures DistinctIds(FirstSeen(encode, es))
    decreases |es|
  {
    if es != [] {
      var init, e := es[..|es| - 1], es[|es| - 1];
      assert es == init + [e];
      FirstSeenDistinct(encode, init);
      FirstSeenSnoc(encode, init, e);
      var prior := FirstSeen(encode, init);
      if IdOf(encode, e) !in Ids(prior) {
        forall i | 0 <= i < |prior| ensures prior[i].Id() != IdOf(encode, e) {
          IdsHasEntry(prior, i);
        }
        KeyOfElement(encode, e);
      }
    }
  }

  /** A windowed key is listed exactly when some element of the bundle has it. */
  lemma {:induction false} FirstSeenExactly<K, V, W>(encode: K -> Bytes, es: seq<Element<K, V, W>>, id: WindowedId<W>)
    ensures id in Ids(FirstSeen(encode, es)) <==> ElementsFor(encode, es, id) != []
    decreases |es|
  {
    if es != [] {
      var init, e := es[..|es| - 1], es[|es| - 1];
      assert es == init + [e];
      FirstSeenExactly(encode, init, id);
      FirstSeenSnoc(encode, init, e);
      ElementsForSnoc(encode, init, e, id);
      if IdOf(encode, e) !in Ids(FirstSeen(encode, init)) {
        IdsAppend(FirstSeen(encode, init), KeyOf(encode, e));
        KeyOfElement(encode, e);
      }
    }
  }

  /** Every listed windowed key carries a key together with that key's
      encoding, taken from the first element with that windowed key. */
  lemma {:induction false} FirstSeenFromFirstOccurrence<K, V, W>(encode: K -> Bytes, es: seq<Element<K, V, W>>, k: nat)
    requires k < |FirstSeen(encode, es)|
    ensures exists i :: 0 <= i < |es| && FirstSeen(encode, es)[k] == KeyOf(encode, es[i])
                        && ElementsFor(encode, es[..i], IdOf(encode, es[i])) == []
    ensures FirstSeen(encode, es)[k].key.encoded == encode(FirstSeen(encode, es)[k].GetKey())
    decreases |es|
  {
    var init, e := es[..|es| - 1], es[|es| - 1];
    assert es == init + [e];
    FirstSeenSnoc(encode, init, e);
    var prior := FirstSeen(encode, init);
    if k < |prior| {
      FirstSeenFromFirstOccurrence(encode, init, k);
      var i :| 0 <= i < |init| && prior[k] == KeyOf(encode, init[i])
               && ElementsFor(encode, init[..i], IdOf(encode, init[i])) == [];
      EarlierInSnoc(init, e, i);
    } else {
      FirstSeenExactly(encode, init, IdOf(encode, e));
      assert es[..|es| - 1] == init;
      KeyOfElement(encode, e);
    }
  }

  // ---------------------------------------------------------------------------
  // Finishing the bundle.

  ghost predicate Covers<K, A, W>(order: seq<WindowedStructuralKey<K, W>>, accumulators: map<WindowedId<W>, A>, timestamps: map<WindowedId<W>, int>)
  {
    forall i :: 0 <= i < |order| ==> order[i].Id() in accumulators && order[i].Id() in timestamps
  }

  /** What outputAccumulators emits for the first n entries of order: for
      each, in order, the key with its compacted accumulator, at the entry's
      timestamp, in the entry's window; a compact that throws ends the
      emission. */
  function Emit<V, K, A, O, W(==)>(fn: CombineFn<V, A, O>, order: seq<WindowedStructuralKey<K, W>>,
                                    accumulators: map<WindowedId<W>, A>, timestamps: map<WindowedId<W>, int>, n: nat): Emission<Record<K, A, W>>
    requires Covers(order, accumulators, timestamps)
    requires n <= |order|
  {
    if n == 0 then Emission([], None)
    else
      var prior := Emit(fn, order, accumulators, timestamps, n - 1);
      var wk := order[n - 1];
      if prior.thrown.Some? then prior
      else
        match fn.compact(accumulators[wk.Id()])
        case Threw(f) => Emission(prior.records, Some(f))
        case Returned(c) =>
          Emission(prior.records + [WindowedValue(KV(wk.GetKey(), c), timestamps[wk.Id()], [wk.GetWindow()])], None)
  }

  /** Once a compact has thrown, later entries emit nothing more. */
  lemma {:induction false} EmitStopsAtFault<V, K, A, O, W>(fn: CombineFn<V, A, O>, order: seq<WindowedStructuralKey<K, W>>,
                                                           accumulators: map<WindowedId<W>, A>, timestamps: map<WindowedId<W>, int>,
                                                           i: nat, n: nat)
    requires Covers(order, accumulators, timestamps)
    requires i <= n <= |order|
    requires Emit(fn, order, accumulators, timestamps, i).thrown.Some?
    ensures Emit(fn, order, accumulators, timestamps, n) == Emit(fn, order, accumulators, timestamps, i)
    decreases n
  {
    if i < n {
      EmitStopsAtFault(fn, order, accumulators, timestamps, i, n - 1);
    }
  }

  /** When no compact throws, one record per entry, entry by entry. */
  lemma {:induction false} EmitComplete<V, K, A, O, W>(fn: CombineFn<V, A, O>, order: seq<WindowedStructuralKey<K, W>>,
                                                       accumulators: map<WindowedId<W>, A>, timestamps: map<WindowedId<W>, int>, n: nat)
    requires Covers(order, accumulators, timestamps)
    requires n <= |order|
    requires forall i :: 0 <= i < n ==> fn.compact(accumulators[order[i].Id()]).Returned?
    ensures Emit(fn, order, accumulators, timestamps, n).thrown.None?
    ensures |Emit(fn, order, accumulators, timestamps, n).records| == n
    ensures forall i :: 0 <= i < n ==>
      Emit(fn, order, accumulators, timestamps, n).records[i]
        == WindowedValue(KV(order[i].GetKey(), fn.compact(accumulators[order[i].Id()]).value),
                         timestamps[order[i].Id()], [order[i].GetWindow()])
    decreases n
  {
    if n > 0 {
      EmitComplete(fn, order, accumulators, timestamps, n - 1);
    }
  }

  /** Each entry emitted adds one record; a full emission has one per entry. */
  lemma {:induction false} EmitLength<V, K, A, O, W>(fn: CombineFn<V, A, O>, order: seq<WindowedStructuralKey<K, W>>,
                                                     accumulators: map<WindowedId<W>, A>, timestamps: map<WindowedId<W>, int>, n: nat)
    requires Covers(order, accumulators, timestamps)
    requires n <= |order|
    ensures |Emit(fn, order, accumulators, timestamps, n).records| <= n
    ensures Emit(fn, order, accumulators, timestamps, n).thrown.None? ==> |Emit(fn, order, accumulators, timestamps, n).records| == n
    decreases n
  {
    if n > 0 {
      EmitLength(fn, order, accumulators, timestamps, n - 1);
    }
  }

  /** No accumulator held in the state makes compact throw. */
  ghost predicate CompactsCleanly<V, A, O, W>(fn: CombineFn<V, A, O>, accumulators: map<WindowedId<W>, A>)
  {
    forall id :: id in accumulators ==> fn.compact(accumulators[id]).Returned?
  }

  /** An emission that ended without a fault compacted every entry it reached. */
  lemma {:induction false} EmitNoFault<V, K, A, O, W>(fn: CombineFn<V, A, O>, order: seq<WindowedStructuralKey<K, W>>,
                                                      accumulators: map<WindowedId<W>, A>, timestamps: map<WindowedId<W>, int>, n: nat)
    requires Covers(order, accumulators, timestamps)
    requires n <= |order|
    requires Emit(fn, order, accumulators, timestamps, n).thrown.None?
    ensures forall i :: 0 <= i < n ==> fn.compact(accumulators[order[i].Id()]).Returned?
    decreases n
  {
    if n > 0 {
      EmitNoFault(fn, order, accumulators, timestamps, n - 1);
    }
  }

  // ---------------------------------------------------------------------------
  // The per-bundle state and the step processElement takes.

  /** order, accumulators and timestamps hold what the reference definitions
      give for the elements es: one entry per windowed key, in first-seen
      order; each accumulator is createAccumulator() folded with addInput over
      that key's values; each timestamp is the combined assigned timestamps. */
  ghost predicate Summarises<V, K, A, O, W>(fn: CombineFn<V, A, O>, tsc: TimestampCombiner<W>, encode: K -> Bytes,
                                            es: seq<Element<K, V, W>>, order: seq<WindowedStructuralKey<K, W>>,
                                            accumulators: map<WindowedId<W>, A>, timestamps: map<WindowedId<W>, int>)
  {
    && order == FirstSeen(encode, es)
    && accumulators.Keys == Ids(order)
    && timestamps.Keys == Ids(order)
    && AccumulatorsFold(fn, encode, es, accumulators)
    && TimestampsFold(tsc, encode, es, timestamps)
  }

  ghost predicate AccumulatorsFold<V, K, A, O, W>(fn: CombineFn<V, A, O>, encode: K -> Bytes,
                                                  es: seq<Element<K, V, W>>, accumulators: map<WindowedId<W>, A>)
  {
    forall id {:trigger ElementsFor(encode, es, id)} :: id in accumulators ==> Accumulate(fn, Values(ElementsFor(encode, es, id))) == Returned(accumulators[id])
  }

  ghost predicate TimestampsFold<K, V, W>(tsc: TimestampCombiner<W>, encode: K -> Bytes,
                                          es: seq<Element<K, V, W>>, timestamps: map<WindowedId<W>, int>)
  {
    forall id {:trigger ElementsFor(encode, es, id)} :: id in timestamps ==> timestamps[id] == CombineAll(tsc, Assigned(tsc, ElementsFor(encode, es, id)))
  }

  /** The accumulator processElement folds e into: the stored one, or a fresh
      one on the first sighting of e's windowed key. */
  function Current<V, K, A, O, W(==)>(fn: CombineFn<V, A, O>, encode: K -> Bytes,
                                      accumulators: map<WindowedId<W>, A>, e: Element<K, V, W>): Try<A>
  {
    var id := IdOf(encode, e);
    if id in accumulators then Returned(accumulators[id]) else fn.create()
  }

  lemma AccumulatorsStep<V, K, A, O, W>(fn: CombineFn<V, A, O>, encode: K -> Bytes, es: seq<Element<K, V, W>>,
                                        accumulators: map<WindowedId<W>, A>, e: Element<K, V, W>, acc: A)
    requires accumulators.Keys == Ids(FirstSeen(encode, es))
    requires AccumulatorsFold(fn, encode, es, accumulators)
    requires Current(fn, encode, accumulators, e).Returned?
    requires fn.add(Current(fn, encode, accumulators, e).value, e.value) == Returned(acc)
    ensures AccumulatorsFold(fn, encode, es + [e], accumulators[IdOf(encode, e) := acc])
  {
    var id := IdOf(encode, e);
    var updated := accumulators[id := acc];
    forall x | x in updated
      ensures Accumulate(fn, Values(ElementsFor(encode, es + [e], x))) == Returned(updated[x])
    {
      ElementsForSnoc(encode, es, e, x);
      if x == id {
        var mine := ElementsFor(encode, es, id);
        assert ElementsFor(encode, es + [e], x) == mine + [e];
        ValuesSnoc(mine, e);
        AccumulateSnoc(fn, Values(mine), e.value);
        FirstSeenExactly(encode, es, id);
        if id in accumulators {
          assert Accumulate(fn, Values(mine)) == Returned(accumulators[id]);
        } else {
          assert mine == [];
          assert Values(mine) == [];
          assert Accumulate(fn, Values(mine)) == fn.create();
        }
      } else {
        assert ElementsFor(encode, es + [e], x) == ElementsFor(encode, es, x);
        assert x in accumulators;
      }
    }
  }

  lemma TimestampsStep<K, V, W>(tsc: TimestampCombiner<W>, encode: K -> Bytes, es: seq<Element<K, V, W>>,
                                timestamps: map<WindowedId<W>, int>, e: Element<K, V, W>)
    requires timestamps.Keys == Ids(FirstSeen(encode, es))
    requires TimestampsFold(tsc, encode, es, timestamps)
    ensures
      var id := IdOf(encode, e);
      var assignedTs := tsc.assign(e.window, e.timestamp);
      var stored := if id in timestamps then timestamps[id] else assignedTs;
      TimestampsFold(tsc, encode, es + [e], timestamps[id := tsc.combine(assignedTs, stored)])
  {
    var id := IdOf(encode, e);
    var assignedTs := tsc.assign(e.window, e.timestamp);
    var stored := if id in timestamps then timestamps[id] else assignedTs;
    var updated := timestamps[id := tsc.combine(assignedTs, stored)];
    forall x | x in updated
      ensures updated[x] == CombineAll(tsc, Assigned(tsc, ElementsFor(encode, es + [e], x)))
    {
      ElementsForSnoc(encode, es, e, x);
      if x == id {
        var mine := ElementsFor(encode, es, id);
        assert ElementsFor(encode, es + [e], x) == mine + [e];
        AssignedSnoc(tsc, mine, e);
        CombineAllSnoc(tsc, Assigned(tsc, mine), assignedTs);
        FirstSeenExactly(encode, es, id);
        if id in timestamps {
          assert mine != [];
          assert Assigned(tsc, mine) != [];
          assert stored == CombineAll(tsc, Assigned(tsc, mine));
        } else {
          assert mine == [];
          assert Assigned(tsc, mine) == [];
        }
      } else {
        assert ElementsFor(encode, es + [e], x) == ElementsFor(encode, es, x);
        assert x in timestamps;
      }
    }
  }

  /** A second put under the same key replaces the first. */
  lemma PutTwice<X, Y>(m: map<X, Y>, x: X, a: Y, b: Y)
    ensures m[x := a][x := b] == m[x := b]
  {
  }

  /** processElement's updates, when no callback throws, turn the state of es
      into the state of es + [e]. */
  lemma ProcessStep<V, K, A, O, W>(fn: CombineFn<V, A, O>, tsc: TimestampCombiner<W>, encode: K -> Bytes,
                                   es: seq<Element<K, V, W>>, order: seq<WindowedStructuralKey<K, W>>,
                                   accumulators: map<WindowedId<W>, A>, timestamps: map<WindowedId<W>, int>,
                                   e: Element<K, V, W>, acc: A,
                                   order': seq<WindowedStructuralKey<K, W>>,
                                   accumulators': map<WindowedId<W>, A>, timestamps': map<WindowedId<W>, int>)
    requires Summarises(fn, tsc, encode, es, order, accumulators, timestamps)
    requires Current(fn, encode, accumulators, e).Returned?
    requires fn.add(Current(fn, encode, accumulators, e).value, e.value) == Returned(acc)
    requires order' == order + (if IdOf(encode, e) !in accumulators then [KeyOf(encode, e)] else [])
    requires accumulators' == accumulators[IdOf(encode, e) := acc]
    requires timestamps' == timestamps[IdOf(encode, e) := tsc.combine(tsc.assign(e.window, e.timestamp),
               if IdOf(encode, e) in accumulators then timestamps[IdOf(encode, e)] else tsc.assign(e.window, e.timestamp))]
    ensures Summarises(fn, tsc, encode, es + [e], order', accumulators', timestamps')
  {
    var id := IdOf(encode, e);
    var firstSight := id !in accumulators;
    FirstSeenSnoc(encode, es, e);
    assert FirstSeen(encode, es + [e]) == order';
    if firstSight {
      IdsAppend(order, KeyOf(encode, e));
      KeyOfElement(encode, e);
      assert Ids(order') == Ids(order) + {id};
    } else {
      assert order' == order;
    }
    assert accumulators'.Keys == Ids(order');
    AccumulatorsStep(fn, encode, es, accumulators, e, acc);
    TimestampsStep(tsc, encode, es, timestamps, e);
  }

  /** The entries of a state that summarises es cover its windowed keys. */
  lemma SummarisedCovers<V, K, A, O, W>(fn: CombineFn<V, A, O>, tsc: TimestampCombiner<W>, encode: K -> Bytes,
                                        es: seq<Element<K, V, W>>, order: seq<WindowedStructuralKey<K, W>>,
                                        accumulators: map<WindowedId<W>, A>, timestamps: map<WindowedId<W>, int>)
    requires Summarises(fn, tsc, encode, es, order, accumulators, timestamps)
    ensures Covers(order, accumulators, timestamps)
  {
    forall i | 0 <= i < |order| ensures order[i].Id() in accumulators && order[i].Id() in timestamps {
      IdsHasEntry(order, i);
    }
  }

  /** What a bundle of elements es comes to when compact throws on none of
      its accumulators: one
      record per distinct windowed key of es, in first-seen order, holding the
      key, the compacted fold of the key's values, the combined timestamp of
      the key's elements and the window. */
  lemma {:induction false} FinishedBundle<V, K, A, O, W>(fn: CombineFn<V, A, O>, tsc: TimestampCombiner<W>, encode: K -> Bytes,
                                                         es: seq<Element<K, V, W>>, order: seq<WindowedStructuralKey<K, W>>,
                                                         accumulators: map<WindowedId<W>, A>, timestamps: map<WindowedId<W>, int>)
    requires Summarises(fn, tsc, encode, es, order, accumulators, timestamps)
    requires CompactsCleanly(fn, accumulators)
    ensures Covers(order, accumulators, timestamps)
    ensures Emit(fn, order, accumulators, timestamps, |order|).thrown.None?
    ensures |Emit(fn, order, accumulators, timestamps, |order|).records| == |FirstSeen(encode, es)|
    ensures forall i :: 0 <= i < |order| ==>
      var mine := ElementsFor(encode, es, order[i].Id());
      && order[i] == FirstSeen(encode, es)[i]
      && Accumulate(fn, Values(mine)).Returned?
      && fn.compact(Accumulate(fn, Values(mine)).value).Returned?
      && Emit(fn, order, accumulators, timestamps, |order|).records[i]
         == WindowedValue(KV(order[i].GetKey(), fn.compact(Accumulate(fn, Values(mine)).value).value),
                          CombineAll(tsc, Assigned(tsc, mine)), [order[i].GetWindow()])
  {
    SummarisedCovers(fn, tsc, encode, es, order, accumulators, timestamps);
    EmitComplete(fn, order, accumulators, timestamps, |order|);
    forall i | 0 <= i < |order|
      ensures Accumulate(fn, Values(ElementsFor(encode, es, order[i].Id()))) == Returned(accumulators[order[i].Id()])
      ensures timestamps[order[i].Id()] == CombineAll(tsc, Assigned(tsc, ElementsFor(encode, es, order[i].Id())))
    {
      IdsHasEntry(order, i);
    }
  }

  /** A complete emission from a state that summarises es: FinishedBundle
      stated for the records actually emitted. */
  lemma EmittedBundle<V, K, A, O, W>(fn: CombineFn<V, A, O>, tsc: TimestampCombiner<W>, encode: K -> Bytes,
                                     es: seq<Element<K, V, W>>, order: seq<WindowedStructuralKey<K, W>>,
                                     accumulators: map<WindowedId<W>, A>, timestamps: map<WindowedId<W>, int>,
                                     records: seq<Record<K, A, W>>)
    requires Summarises(fn, tsc, encode, es, order, accumulators, timestamps)
    requires Covers(order, accumulators, timestamps)
    requires Emit(fn, order, accumulators, timestamps, |order|) == Emission(records, None)
    ensures |records| == |FirstSeen(encode, es)|
    ensures forall i :: 0 <= i < |records| ==>
      var wk := FirstSeen(encode, es)[i];
      var mine := ElementsFor(encode, es, wk.Id());
      && Accumulate(fn, Values(mine)).Returned?
      && fn.compact(Accumulate(fn, Values(mine)).value).Returned?
      && records[i] == WindowedValue(KV(wk.GetKey(), fn.compact(Accumulate(fn, Values(mine)).value).value),
                                     CombineAll(tsc, Assigned(tsc, mine)), [wk.GetWindow()])
  {
    EmitLength(fn, order, accumulators, timestamps, |order|);
    EmitNoFault(fn, order, accumulators, timestamps, |order|);
    forall id | id in accumulators ensures fn.compact(accumulators[id]).Returned? {
      IdsHasOwner(order, id);
    }
    FinishedBundle(fn, tsc, encode, es, order, accumulators, timestamps);
  }


  // ---------------------------------------------------------------------------
  // The DoFn.

  class CombineInputs<K, V, A, O, W(==)> {
    const fn: CombineFn<V, A, O>
    const timestampCombiner: TimestampCombiner<W>
    /** The key coder, as the encoding it gives each key. */
    const encode: K -> Bytes

    /** False where the Java fields are null: outside a bundle. */
    var inBundle: bool
    /** The iteration order of the two LinkedHashMaps. */
    var order: seq<WindowedStructuralKey<K, W>>
    var accumulators: map<WindowedId<W>, A>
    var timestamps: map<WindowedId<W>, int>
    /** The elements processed in the current bundle. */
    ghost var processed: seq<Element<K, V, W>>

    /** Outside a bundle there is no state; inside one, the state is what the
        reference definitions give for the elements processed so far. */
    ghost predicate Valid()
      reads this
    {
      if inBundle then Summarises(fn, timestampCombiner, encode, processed, order, accumulators, timestamps)
      else order == [] && accumulators == map[] && timestamps == map[] && processed == []
    }

    constructor (fn: CombineFn<V, A, O>, timestampCombiner: TimestampCombiner<W>, encode: K -> Bytes)
      ensures this.fn == fn && this.timestampCombiner == timestampCombiner && this.encode == encode
      ensures !inBundle && Valid()
    {
      this.fn := fn;
      this.timestampCombiner := timestampCombiner;
      this.encode := encode;
      inBundle := false;
      order, accumulators, timestamps := [], map[], map[];
      processed := [];
    }

    /** startBundle: fresh, empty per-bundle state. */
    method StartBundle()
      modifies this
      ensures inBundle && order == [] && accumulators == map[] && timestamps == map[]
      ensures processed == [] && Valid()
    {
      inBundle := true;
      order, accumulators, timestamps := [], map[], map[];
      processed := [];
    }

    /** processElement. A callback that throws escapes unwrapped and leaves
        whatever was already put: on a first sighting, the fresh accumulator
        and the assigned timestamp. */
    method ProcessElement(e: Element<K, V, W>) returns (thrown: Option<Fault>)
      requires inBundle && accumulators.Keys == timestamps.Keys
      modifies this
      ensures inBundle && accumulators.Keys == timestamps.Keys
      ensures thrown.None? ==> processed == old(processed) + [e]
      ensures thrown.None? && old(Valid()) ==> Valid()
      ensures old(Current(fn, encode, accumulators, e)).Threw? ==>
                && thrown == Some(old(Current(fn, encode, accumulators, e)).fault)
                && order == old(order) && accumulators == old(accumulators)
                && timestamps == old(timestamps) && processed == old(processed)
      ensures old(Current(fn, encode, accumulators, e)).Returned? ==>
                order == old(order) + (if IdOf(encode, e) in old(accumulators) then [] else [KeyOf(encode, e)])
      ensures old(Current(fn, encode, accumulators, e)).Returned? ==>
                var acc := old(Current(fn, encode, accumulators, e)).value;
                var assignedTs := timestampCombiner.assign(e.window, e.timestamp);
                var stored := if IdOf(encode, e) in old(accumulators) then old(timestamps)[IdOf(encode, e)] else assignedTs;
                match fn.add(acc, e.value)
                case Threw(f) =>
                  && thrown == Some(f) && processed == old(processed)
                  && accumulators == old(accumulators)[IdOf(encode, e) := acc]
                  && timestamps == old(timestamps)[IdOf(encode, e) := stored]
                case Returned(acc') =>
                  && thrown.None?
                  && accumulators == old(accumulators)[IdOf(encode, e) := acc']
                  && timestamps == old(timestamps)[IdOf(encode, e) := timestampCombiner.combine(assignedTs, stored)]
    {
      var key := Create(encode, e.key, Some(e.window)).value;
      var id := key.Id();
      var assignedTs := timestampCombiner.assign(e.window, e.timestamp);
      assert key == KeyOf(encode, e) && id == IdOf(encode, e);
      ghost var es0, order0, accumulators0, timestamps0 := processed, order, accumulators, timestamps;
      ghost var wasValid := Valid();
      ghost var current := Current(fn, encode, accumulators, e);
      if id !in accumulators {
        var created := fn.create();
        assert created == current;
        if created.Threw? {
          return Some(created.fault);
        }
        accumulators := accumulators[id := created.value];
        timestamps := timestamps[id := assignedTs];
        order := order + [key];
      }
      assert current == Returned(accumulators[id]);
      var added := fn.add(accumulators[id], e.value);
      if added.Threw? {
        return Some(added.fault);
      }
      var stored := timestamps[id];
      if id !in accumulators0 {
        PutTwice(accumulators0, id, accumulators[id], added.value);
        PutTwice(timestamps0, id, assignedTs, timestampCombiner.combine(assignedTs, stored));
      }
      accumulators := accumulators[id := added.value];
      timestamps := timestamps[id := timestampCombiner.combine(assignedTs, stored)];
      processed := processed + [e];
      thrown := None;
      if wasValid {
        ProcessStep(fn, timestampCombiner, encode, es0, order0, accumulators0, timestamps0, e, added.value,
                    order, accumulators, timestamps);
      }
    }

    /** outputAccumulators (the @FinishBundle method): emit every entry, then
        drop both maps. If a compact throws, the records output so far stay
        output and the state is left as it was. */
    method OutputAccumulators() returns (emitted: seq<Record<K, A, W>>, thrown: Option<Fault>)
      requires inBundle && Covers(order, accumulators, timestamps)
      modifies this
      ensures Emission(emitted, thrown) == old(Emit(fn, order, accumulators, timestamps, |order|))
      ensures thrown.None? ==> !inBundle && Valid()
      ensures thrown.Some? ==> inBundle && order == old(order) && accumulators == old(accumulators)
                               && timestamps == old(timestamps) && processed == old(processed)
    {
      emitted := [];
      var i := 0;
      while i < |order|
        invariant 0 <= i <= |order|
        invariant Emit(fn, order, accumulators, timestamps, i) == Emission(emitted, None)
      {
        var entry := order[i];
        var compacted := fn.compact(accumulators[entry.Id()]);
        if compacted.Threw? {
          thrown := Some(compacted.fault);
          EmitStopsAtFault(fn, order, accumulators, timestamps, i + 1, |order|);
          return;
        }
        emitted := emitted + [WindowedValue(KV(entry.GetKey(), compacted.value), timestamps[entry.Id()], [entry.GetWindow()])];
        i := i + 1;
      }
      thrown := None;
      inBundle := false;
      order, accumulators, timestamps := [], map[], map[];
      processed := [];
    }

    lemma CoveredWhenValid()
      requires Valid() && inBundle
      ensures Covers(order, accumulators, timestamps)
    {
      SummarisedCovers(fn, timestampCombiner, encode, processed, order, accumulators, timestamps);
    }
  }

  /** One bundle as the runner drives the DoFn: startBundle, processElement
      for each element in turn, then outputAccumulators. When no callback
      throws, the output is one record per distinct windowed key, in
      first-seen order, holding the compacted fold of that key's values at
      the combined timestamp of its elements; a CombineFn that never throws
      always gets its records. When one throws, the records
      already output are dropped with the rest of the bundle, as the runner
      does when it aborts a bundle; that abort is not part of the DoFn. */
  method PreCombineBundle<K, V(!new), A(!new), O, W(==)>(fn: CombineFn<V, A, O>, tsc: TimestampCombiner<W>, encode: K -> Bytes,
                                             es: seq<Element<K, V, W>>)
    returns (records: seq<Record<K, A, W>>, thrown: Option<Fault>)
    ensures NeverThrows(fn) ==> thrown.None?
    ensures thrown.Some? ==> records == []
    ensures thrown.None? ==> |records| == |FirstSeen(encode, es)|
    ensures thrown.None? ==>
      forall i :: 0 <= i < |records| ==>
        var wk := FirstSeen(encode, es)[i];
        var mine := ElementsFor(encode, es, wk.Id());
        && Accumulate(fn, Values(mine)).Returned?
        && fn.compact(Accumulate(fn, Values(mine)).value).Returned?
        && records[i] == WindowedValue(KV(wk.GetKey(), fn.compact(Accumulate(fn, Values(mine)).value).value),
                                       CombineAll(tsc, Assigned(tsc, mine)), [wk.GetWindow()])
  {
    var doFn := new CombineInputs(fn, tsc, encode);
    doFn.StartBundle();
    var i := 0;
    while i < |es|
      invariant 0 <= i <= |es|
      invariant doFn.inBundle && doFn.Valid() && doFn.processed == es[..i]
      invariant doFn.fn == fn && doFn.timestampCombiner == tsc && doFn.encode == encode
    {
      assert es[..i + 1] == es[..i] + [es[i]];
      thrown := doFn.ProcessElement(es[i]);
      if thrown.Some? {
        return [], thrown;
      }
      i := i + 1;
    }
    assert es[..i] == es;
    doFn.CoveredWhenValid();
    ghost var order, accumulators, timestamps := doFn.order, doFn.accumulators, doFn.timestamps;
    if NeverThrows(fn) {
      EmitComplete(fn, order, accumulators, timestamps, |order|);
    }
    records, thrown := doFn.OutputAccumulators();
    if thrown.Some? {
      records := [];
    } else {
      EmittedBundle(fn, tsc, encode, es, order, accumulators, timestamps, records);
    }
  }
}
