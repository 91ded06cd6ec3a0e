/**
 * Plain JavaScript objects, as the client sees them after JSON parsing: a list
 * of own properties in `Object.keys` order. Keeping the order explicit is what
 * lets the model talk about the order of `Object.keys` and `Object.values`.
 */
module JsObjects {
  import opened Wrappers

  type Object<V> = seq<(string, V)>

  /** `Object.keys(obj)`. */
  function Keys<V>(obj: Object<V>): seq<string> {
    seq(|obj|, i requires 0 <= i < |obj| => obj[i].0)
  }

  lemma KeysCons<V>(obj: Object<V>)
    requires obj != []
    ensures Keys(obj) == [obj[0].0] + Keys(obj[1..])
  {
  }

  /** A real object never has the same own property twice. */
  predicate DistinctKeys<V>(obj: Object<V>) {
    forall i, j :: 0 <= i < j < |obj| ==> obj[i].0 != obj[j].0
  }

  /** `obj[k]`, with `None` for `undefined`. */
  function Get<V>(obj: Object<V>, k: string): (r: Option<V>)
    ensures r.Some? <==> k in Keys(obj)
  {
    if obj == [] then None
    else
      KeysCons(obj);
      if obj[0].0 == k then Some(obj[0].1) else Get(obj[1..], k)
  }

  /** `obj[k] = v`: an existing property is overwritten where it stands, a new one goes last. */
  function Set<V>(obj: Object<V>, k: string, v: V): (r: Object<V>)
    ensures Get(r, k) == Some(v)
    ensures Get(obj, k).Some? ==> Keys(r) == Keys(obj)
    ensures Get(obj, k).None? ==> r == obj + [(k, v)]
  {
    if obj == [] then [(k, v)]
    else if obj[0].0 == k then [(k, v)] + obj[1..]
    else
      var rest := Set(obj[1..], k, v);
      assert ([obj[0]] + rest)[1..] == rest;
      KeysCons(obj);
      KeysCons([obj[0]] + rest);
      [obj[0]] + rest
  }

  /** Assigning one property leaves every other property as it was. */
  lemma {:induction false} SetLeavesOthers<V>(obj: Object<V>, k: string, v: V, other: string)
    requires other != k
    ensures Get(Set(obj, k, v), other) == Get(obj, other)
  {
    if obj != [] && obj[0].0 != k {
      var rest := Set(obj[1..], k, v);
      assert ([obj[0]] + rest)[1..] == rest;
      SetLeavesOthers(obj[1..], k, v, other);
    }
  }

  /** With distinct keys, assigning the i-th key rewrites the i-th pair where it stands. */
  lemma {:induction false} SetAt<V>(obj: Object<V>, i: int, v: V)
    requires DistinctKeys(obj)
    requires 0 <= i < |obj|
    ensures Set(obj, obj[i].0, v) == obj[i := (obj[i].0, v)]
  {
    if i > 0 {
      var k := obj[i].0;
      assert obj[0].0 != k;
      assert obj[1..][i - 1] == obj[i];
      SetAt(obj[1..], i - 1, v);
      assert [obj[0]] + obj[1..][i - 1 := (k, v)] == obj[i := (k, v)];
    }
  }

  lemma {:induction false} KeysAppend<V>(a: Object<V>, b: Object<V>)
    ensures Keys(a + b) == Keys(a) + Keys(b)
  {
  }

  /** In an object with distinct keys, looking up the i-th key finds the i-th value. */
  lemma {:induction false} GetAt<V>(obj: Object<V>, i: int)
    requires DistinctKeys(obj)
    requires 0 <= i < |obj|
    ensures Get(obj, obj[i].0) == Some(obj[i].1)
  {
    if i > 0 {
      assert obj[0].0 != obj[i].0;
      assert obj[1..][i - 1] == obj[i];
      GetAt(obj[1..], i - 1);
    }
  }
}
