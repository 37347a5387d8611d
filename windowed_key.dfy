/** WindowedStructuralKey: the lookup key of the per-bundle state, a key
    identified by its encoding, paired with a window. */
module WindowedKeys {
  import opened Common

  type Bytes = seq<bv8>

  /** A key together with its encoding under the key coder; two structural
      keys are the same group when their encodings are equal. */
  datatype StructuralKey<K> = StructuralKey(key: K, encoded: Bytes)

  function StructuralKeyOf<K>(encode: K -> Bytes, key: K): StructuralKey<K>
  {
    StructuralKey(key, encode(key))
  }

  /** The identity of a windowed key: what equals and hashCode look at. */
  datatype WindowedId<W> = WindowedId(encoded: Bytes, window: W)

  datatype WindowedStructuralKey<K, W(==)> = WindowedStructuralKey(key: StructuralKey<K>, window: W)
  {
    function GetKey(): K { key.key }

    function GetWindow(): W { window }

    function Id(): WindowedId<W> { WindowedId(key.encoded, window) }

    /** equals: same window and same structural key. */
    predicate Equals(that: WindowedStructuralKey<K, W>)
    {
      window == that.window && key.encoded == that.key.encoded
    }
  }

  /** The private constructor: checkNotNull on the key, then on the window. */
  function New<K, W(==)>(key: Option<StructuralKey<K>>, window: Option<W>): (r: Result<WindowedStructuralKey<K, W>>)
    ensures key.None? ==> r == Err(KeyIsNull)
    ensures key.Some? && window.None? ==> r == Err(WindowIsNull)
    ensures r.Ok? <==> key.Some? && window.Some?
    ensures r.Ok? ==> r.value.key == key.value && r.value.GetWindow() == window.value
  {
    if key.None? then Err(KeyIsNull)
    else if window.None? then Err(WindowIsNull)
    else Ok(WindowedStructuralKey(key.value, window.value))
  }

  /** create: encode the key with the key coder, pair it with the window. */
  function Create<K, W(==)>(encode: K -> Bytes, key: K, window: Option<W>): (r: Result<WindowedStructuralKey<K, W>>)
    ensures window.None? ==> r == Err(WindowIsNull)
    ensures window.Some? ==> r.Ok?
    ensures r.Ok? ==> r.value.GetKey() == key && r.value.GetWindow() == window.value
    ensures r.Ok? ==> r.value.Id() == WindowedId(encode(key), window.value)
  {
    New(Some(StructuralKeyOf(encode, key)), window)
  }

  /** Java's equals on windowed keys agrees with the identity the
      per-bundle maps are keyed by: two windowed keys are equal exactly when
      their WindowedIds are, so one map entry stands for one equals-class. */
  lemma EqualsIsIdentity<K, W>(a: WindowedStructuralKey<K, W>, b: WindowedStructuralKey<K, W>)
    ensures a.Equals(b) <==> a.Id() == b.Id()
    ensures a.Equals(b) <==> a.GetWindow() == b.GetWindow() && a.key.encoded == b.key.encoded
  {
  }

  /** Two keys with the same encoding fall in one group within a window and
      in two groups across two windows. */
  lemma SameEncodingGroups<K, W>(encode: K -> Bytes, k1: K, k2: K, w1: W, w2: W)
    requires encode(k1) == encode(k2)
    ensures Create(encode, k1, Some(w1)).value.Equals(Create(encode, k2, Some(w1)).value)
    ensures w1 != w2 ==> !Create(encode, k1, Some(w1)).value.Equals(Create(encode, k2, Some(w2)).value)
  {
  }
}
