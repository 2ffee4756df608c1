/**
 * Python dictionaries with string keys.  A dict remembers the order in which its
 * keys were first inserted, and `list(d.values())` lists the values in that order,
 * so the model keeps the key order beside the key-to-value map.
 */
module Dicts {

  datatype Dict<V> = Dict(keys: seq<string>, entries: map<string, V>) {

    /** Every key is listed once, and exactly the mapped keys are listed. */
    ghost predicate Valid() {
      && (forall i, j :: 0 <= i < j < |keys| ==> keys[i] != keys[j])
      && (forall k :: k in entries <==> k in keys)
    }
  }

  /** `{}`. */
  function Empty<V>(): (d: Dict<V>)
    ensures d.Valid() && d.entries == map[]
  {
    Dict([], map[])
  }

  /** `d[k] = v`: a new key goes last in the order, an existing key keeps its place. */
  function Put<V>(d: Dict<V>, k: string, v: V): (d': Dict<V>)
    requires d.Valid()
    ensures d'.Valid()
    ensures d'.entries == d.entries[k := v]
    ensures k in d.entries ==> d'.keys == d.keys
    ensures k !in d.entries ==> d'.keys == d.keys + [k]
  {
    if k in d.entries then Dict(d.keys, d.entries[k := v]) else Dict(d.keys + [k], d.entries[k := v])
  }

  /** `list(d.values())`: one value per key, in insertion order. */
  function Values<V>(d: Dict<V>): (vs: seq<V>)
    requires d.Valid()
    ensures |vs| == |d.keys|
    ensures forall i :: 0 <= i < |vs| ==> d.keys[i] in d.entries && vs[i] == d.entries[d.keys[i]]
    ensures forall k :: k in d.entries ==> d.entries[k] in vs
  {
    var vs := seq(|d.keys|, i requires 0 <= i < |d.keys| => d.entries[d.keys[i]]);
    assert forall k :: k in d.entries ==> exists i :: 0 <= i < |d.keys| && d.keys[i] == k;
    vs
  }

  /** `len(d)`: the number of keys, which is also the number of values listed. */
  function Size<V>(d: Dict<V>): (n: nat)
    requires d.Valid()
    ensures n == |d.keys| == |Values(d)|
  {
    DistinctCard(d.keys);
    assert d.entries.Keys == set k | k in d.keys;
    |d.entries|
  }

  /** A sequence without repetitions has as many elements as its set of elements. */
  lemma {:induction false} DistinctCard(ks: seq<string>)
    requires forall i, j :: 0 <= i < j < |ks| ==> ks[i] != ks[j]
    ensures |set k | k in ks| == |ks|
  {
    if ks != [] {
      var init := ks[..|ks| - 1];
      var last := ks[|ks| - 1];
      DistinctCard(init);
      assert (set k | k in ks) == (set k | k in init) + {last};
      assert last !in (set k | k in init);
    }
  }

  /**
   * `{key(v): v for v in vs}`: every element is stored under its key, a later element
   * replacing an earlier one with the same key (FromListKeys and FromListLastWins state this).
   */
  function FromList<V>(vs: seq<V>, key: V -> string): (d: Dict<V>)
    ensures d.Valid()
    decreases |vs|
  {
    if vs == [] then Empty() else Put(FromList(vs[..|vs| - 1], key), key(vs[|vs| - 1]), vs[|vs| - 1])
  }

  /** Appending one element to the list is one more `Put`. */
  lemma FromListSnoc<V>(vs: seq<V>, v: V, key: V -> string)
    ensures FromList(vs + [v], key) == Put(FromList(vs, key), key(v), v)
  {
    assert (vs + [v])[..|vs|] == vs;
  }

  /** No element after index `j` of `vs` has the key of `vs[j]`. */
  ghost predicate LastWithKey<V>(vs: seq<V>, key: V -> string, j: nat)
    requires j < |vs|
  {
    forall j' :: j < j' < |vs| ==> key(vs[j']) != key(vs[j])
  }

  /** Some element of `vs` has key `k`. */
  ghost predicate Occurs<V>(vs: seq<V>, key: V -> string, k: string) {
    exists i :: 0 <= i < |vs| && key(vs[i]) == k
  }

  /** A key occurs in `init + [v]` iff it occurs in `init` or is the key of `v`. */
  lemma OccursSnoc<V>(init: seq<V>, v: V, key: V -> string, k: string)
    ensures Occurs(init + [v], key, k) <==> Occurs(init, key, k) || key(v) == k
  {
    var vs := init + [v];
    assert forall j :: 0 <= j < |init| ==> vs[j] == init[j];
    assert vs[|init|] == v;
  }

  /** The keys of `FromList(vs, key)` are exactly the keys of the elements. */
  lemma {:induction false} FromListKeys<V>(vs: seq<V>, key: V -> string)
    ensures forall k :: k in FromList(vs, key).entries <==> Occurs(vs, key, k)
    decreases |vs|
  {
    if vs != [] {
      var init, last := vs[..|vs| - 1], vs[|vs| - 1];
      assert vs == init + [last];
      FromListKeys(init, key);
      FromListSnoc(init, last, key);
      forall k ensures k in FromList(vs, key).entries <==> Occurs(vs, key, k) {
        OccursSnoc(init, last, key, k);
      }
    }
  }

  /** Each key of `FromList(vs, key)` holds the last element with that key. */
  lemma {:induction false} FromListLastWins<V>(vs: seq<V>, key: V -> string, j: nat)
    requires j < |vs| && LastWithKey(vs, key, j)
    ensures key(vs[j]) in FromList(vs, key).entries && FromList(vs, key).entries[key(vs[j])] == vs[j]
    decreases |vs|
  {
    var init, last := vs[..|vs| - 1], vs[|vs| - 1];
    FromListSnoc(init, last, key);
    assert vs == init + [last];
    if j < |init| {
      assert init[j] == vs[j];
      assert key(last) != key(vs[j]);
      assert LastWithKey(init, key, j) by {
        forall j' | j < j' < |init| ensures key(init[j']) != key(init[j]) {
          assert init[j'] == vs[j'];
        }
      }
      FromListLastWins(init, key, j);
    }
  }

  /** The index of the first element of `vs` with key `k`. */
  ghost function FirstIndex<V>(vs: seq<V>, key: V -> string, k: string): (i: nat)
    requires Occurs(vs, key, k)
    ensures i < |vs| && key(vs[i]) == k
    ensures forall i' :: 0 <= i' < i ==> key(vs[i']) != k
    decreases |vs|
  {
    if key(vs[0]) == k then 0
    else
      assert Occurs(vs[1..], key, k) by {
        var i :| 0 <= i < |vs| && key(vs[i]) == k;
        assert vs[1..][i - 1] == vs[i];
      }
      var i := FirstIndex(vs[1..], key, k);
      assert forall i' :: 1 <= i' < i + 1 ==> vs[i'] == vs[1..][i' - 1];
      1 + i
  }

  /** Appending an element does not move the first occurrence of a key, and a new key first occurs at the end. */
  lemma FirstIndexSnoc<V>(init: seq<V>, v: V, key: V -> string, k: string)
    ensures Occurs(init, key, k) ==>
      Occurs(init + [v], key, k) && FirstIndex(init + [v], key, k) == FirstIndex(init, key, k)
    ensures !Occurs(init, key, k) && key(v) == k ==>
      Occurs(init + [v], key, k) && FirstIndex(init + [v], key, k) == |init|
  {
    var vs := init + [v];
    if Occurs(init, key, k) {
      var i0 := FirstIndex(init, key, k);
      assert vs[i0] == init[i0];
      var i := FirstIndex(vs, key, k);
      assert i <= i0;
      assert vs[i] == init[i];
    } else if key(v) == k {
      assert vs[|init|] == v;
      assert forall j :: 0 <= j < |init| ==> vs[j] == init[j];
    }
  }

  /** Keys `a` and `b` both occur in `vs`, and `a` first occurs before `b` does. */
  ghost predicate FirstBefore<V>(vs: seq<V>, key: V -> string, a: string, b: string) {
    Occurs(vs, key, a) && Occurs(vs, key, b) && FirstIndex(vs, key, a) < FirstIndex(vs, key, b)
  }

  /** The keys `ks` all occur in `vs`, listed in the order of their first occurrence. */
  ghost predicate FirstOccurrenceOrder<V>(vs: seq<V>, key: V -> string, ks: seq<string>) {
    forall p, q :: 0 <= p < q < |ks| ==> FirstBefore(vs, key, ks[p], ks[q])
  }

  /**
   * The keys of `FromList(vs, key)` are listed in the order in which they first
   * occur in `vs`: a later element with a key already present keeps its place.
   */
  lemma {:induction false} FromListOrder<V>(vs: seq<V>, key: V -> string)
    ensures FirstOccurrenceOrder(vs, key, FromList(vs, key).keys)
    decreases |vs|
  {
    if vs != [] {
      var init, last := vs[..|vs| - 1], vs[|vs| - 1];
      assert vs == init + [last];
      FromListOrder(init, key);
      OrderSnoc(init, last, key);
    }
  }

  /** A key already in `FromList(init, key)` first occurs in `init + [v]` where it first occurs in `init`. */
  lemma KeptPlace<V>(init: seq<V>, v: V, key: V -> string, k: string)
    requires k in FromList(init, key).entries
    ensures Occurs(init, key, k) && Occurs(init + [v], key, k)
    ensures FirstIndex(init + [v], key, k) == FirstIndex(init, key, k) < |init|
  {
    FromListKeys(init, key);
    FirstIndexSnoc(init, v, key, k);
  }

  /** One more element keeps the keys of `FromList` in the order of their first occurrence. */
  lemma OrderSnoc<V>(init: seq<V>, v: V, key: V -> string)
    requires FirstOccurrenceOrder(init, key, FromList(init, key).keys)
    ensures FirstOccurrenceOrder(init + [v], key, FromList(init + [v], key).keys)
  {
    FromListSnoc(init, v, key);
    FromListKeys(init, key);
    var d0 := FromList(init, key);
    var ks0, ks := d0.keys, FromList(init + [v], key).keys;
    assert ks == ks0 || (ks == ks0 + [key(v)] && !Occurs(init, key, key(v)));
    forall p, q | 0 <= p < q < |ks|
      ensures FirstBefore(init + [v], key, ks[p], ks[q])
    {
      PairSnoc(init, v, key, ks0, ks, p, q);
    }
  }

  /** One pair of keys of `FromList(init + [v], key)`, split on whether the later one is new. */
  lemma PairSnoc<V>(init: seq<V>, v: V, key: V -> string, ks0: seq<string>, ks: seq<string>, p: nat, q: nat)
    requires ks0 == FromList(init, key).keys && FirstOccurrenceOrder(init, key, ks0)
    requires ks == ks0 || (ks == ks0 + [key(v)] && !Occurs(init, key, key(v)))
    requires p < q < |ks|
    ensures FirstBefore(init + [v], key, ks[p], ks[q])
  {
    var d0 := FromList(init, key);
    assert ks[p] == ks0[p] && ks0[p] in d0.entries;
    if q < |ks0| {
      assert ks[q] == ks0[q] && ks0[q] in d0.entries;
      assert FirstBefore(init, key, ks0[p], ks0[q]);
      KeptPair(init, v, key, ks0[p], ks0[q]);
    } else {
      assert ks[q] == key(v);
      NewLast(init, v, key, ks0[p]);
    }
  }

  /** Two keys already in `FromList(init, key)` keep their relative first occurrence. */
  lemma KeptPair<V>(init: seq<V>, v: V, key: V -> string, a: string, b: string)
    requires a in FromList(init, key).entries && b in FromList(init, key).entries
    requires FirstBefore(init, key, a, b)
    ensures FirstBefore(init + [v], key, a, b)
  {
    KeptPlace(init, v, key, a);
    KeptPlace(init, v, key, b);
  }

  /** A key already in `FromList(init, key)` first occurs before a key that `v` brings in. */
  lemma NewLast<V>(init: seq<V>, v: V, key: V -> string, a: string)
    requires a in FromList(init, key).entries && !Occurs(init, key, key(v))
    ensures FirstBefore(init + [v], key, a, key(v))
  {
    KeptPlace(init, v, key, a);
    FirstIndexSnoc(init, v, key, key(v));
  }

  /** Every value is stored under its own key. */
  ghost predicate KeyedBy<V>(d: Dict<V>, key: V -> string) {
    forall k :: k in d.entries ==> key(d.entries[k]) == k
  }

  /** `d` without its most recently inserted key. */
  ghost function DropLast<V>(d: Dict<V>): (d': Dict<V>)
    requires d.Valid() && d.keys != []
    ensures d'.Valid()
  {
    var last := d.keys[|d.keys| - 1];
    var init := d.keys[..|d.keys| - 1];
    assert forall i :: 0 <= i < |init| ==> init[i] == d.keys[i] != last;
    Dict(init, d.entries - {last})
  }

  /** The values of `d` are those of `DropLast(d)` followed by the last key's value. */
  lemma ValuesDropLast<V>(d: Dict<V>)
    requires d.Valid() && d.keys != []
    ensures Values(d) == Values(DropLast(d)) + [d.entries[d.keys[|d.keys| - 1]]]
  {
    var d' := DropLast(d);
    var last := d.keys[|d.keys| - 1];
    var a, b := Values(d), Values(d') + [d.entries[last]];
    forall i | 0 <= i < |a| ensures a[i] == b[i] {
      if i < |d'.keys| {
        assert d'.keys[i] == d.keys[i] != last;
        assert b[i] == d'.entries[d.keys[i]];
      }
    }
    assert a == b;
  }

  /** Putting the last key back into `DropLast(d)` gives `d`. */
  lemma PutDropLast<V>(d: Dict<V>)
    requires d.Valid() && d.keys != []
    ensures Put(DropLast(d), d.keys[|d.keys| - 1], d.entries[d.keys[|d.keys| - 1]]) == d
  {
    var last := d.keys[|d.keys| - 1];
    assert d.keys[..|d.keys| - 1] + [last] == d.keys;
    assert (d.entries - {last})[last := d.entries[last]] == d.entries;
  }

  /** Dropping the last key keeps every value filed under its own key. */
  lemma KeyedDropLast<V>(d: Dict<V>, key: V -> string)
    requires d.Valid() && d.keys != [] && KeyedBy(d, key)
    ensures KeyedBy(DropLast(d), key)
  {
  }

  /**
   * Rebuilding a dict from its own values, keyed by each value's key, gives the dict
   * back, order included, as long as every value is stored under its own key.
   */
  lemma {:induction false} FromValues<V>(d: Dict<V>, key: V -> string)
    requires d.Valid() && KeyedBy(d, key)
    ensures FromList(Values(d), key) == d
    decreases |d.keys|
  {
    if d.keys == [] {
      assert d.entries == map[];
    } else {
      var d' := DropLast(d);
      var last := d.keys[|d.keys| - 1];
      KeyedDropLast(d, key);
      FromValues(d', key);
      ValuesDropLast(d);
      FromListSnoc(Values(d'), d.entries[last], key);
      PutDropLast(d);
    }
  }
}
