/**
 * Python dicts as the services build them: insertion-ordered (key, value)
 * pairs where keys compare as Python compares them. Assigning to a key that
 * is already present replaces its value in place; a new key goes last.
 */
module PyDict {
  import opened Wrappers
  import opened JsonValue

  /** A Python dict in insertion order. */
  type Pairs = seq<(Json, Json)>

  /** Python dict keys compare numbers by value: `1`, `1.0` and `True` are one key. */
  function Canon(k: Json): Json {
    if IsPyNumber(k) then JReal(PyNumber(k)) else k
  }

  predicate KeyEq(a: Json, b: Json) {
    Canon(a) == Canon(b)
  }

  /** Lists and dicts cannot be dict keys. */
  predicate Hashable(k: Json) {
    !k.JArr? && !k.JObj?
  }

  predicate DistinctKeys(d: Pairs) {
    forall i, j :: 0 <= i < j < |d| ==> !KeyEq(d[i].0, d[j].0)
  }

  function Keys(d: Pairs): (ks: seq<Json>)
    ensures |ks| == |d|
  {
    seq(|d|, i requires 0 <= i < |d| => d[i].0)
  }

  /** `d[k]`, or None when `k` is not a key. */
  function Lookup(d: Pairs, k: Json): Option<Json> {
    if d == [] then None
    else if KeyEq(d[0].0, k) then Some(d[0].1)
    else Lookup(d[1..], k)
  }

  /** `d[k] = v`: an existing key keeps its place and its first spelling; a new key goes last. */
  function Put(d: Pairs, k: Json, v: Json): Pairs {
    if d == [] then [(k, v)]
    else if KeyEq(d[0].0, k) then [(d[0].0, v)] + d[1..]
    else [d[0]] + Put(d[1..], k, v)
  }

  /** After `d[k] = v`, `k` maps to `v` and every other key keeps its value. */
  lemma {:induction false} PutLookup(d: Pairs, k: Json, v: Json, q: Json)
    ensures Lookup(Put(d, k, v), q) == if KeyEq(k, q) then Some(v) else Lookup(d, q)
  {
    if d != [] && !KeyEq(d[0].0, k) {
      PutLookup(d[1..], k, v, q);
    }
  }

  /** `d[k] = v` keeps the key order, appending `k` only when it is new. */
  lemma {:induction false} PutKeys(d: Pairs, k: Json, v: Json)
    ensures Keys(Put(d, k, v)) == if Lookup(d, k).Some? then Keys(d) else Keys(d) + [k]
  {
    if d != [] && !KeyEq(d[0].0, k) {
      PutKeys(d[1..], k, v);
      assert Keys(d) == [d[0].0] + Keys(d[1..]);
      assert Keys(Put(d, k, v)) == [d[0].0] + Keys(Put(d[1..], k, v));
    }
  }

  /** Assigning a key that is not there yet appends the pair. */
  lemma {:induction false} PutNew(d: Pairs, k: Json, v: Json)
    requires Lookup(d, k).None?
    ensures Put(d, k, v) == d + [(k, v)]
  {
    if d != [] {
      PutNew(d[1..], k, v);
      assert d == [d[0]] + d[1..];
    }
  }

  lemma {:induction false} LookupSome(d: Pairs, k: Json)
    ensures Lookup(d, k).Some? <==> exists i :: 0 <= i < |d| && KeyEq(d[i].0, k)
  {
    if d != [] {
      LookupSome(d[1..], k);
      if !KeyEq(d[0].0, k) && (exists i :: 0 <= i < |d| && KeyEq(d[i].0, k)) {
        var i :| 0 <= i < |d| && KeyEq(d[i].0, k);
        assert d[1..][i - 1] == d[i];
      }
    }
  }

  /** A dict never holds two equal keys. */
  lemma PutDistinct(d: Pairs, k: Json, v: Json)
    requires DistinctKeys(d)
    ensures DistinctKeys(Put(d, k, v))
  {
    var r := Put(d, k, v);
    PutKeys(d, k, v);
    LookupSome(d, k);
    forall i, j | 0 <= i < j < |r| ensures !KeyEq(r[i].0, r[j].0) {
      assert r[i].0 == Keys(r)[i] && r[j].0 == Keys(r)[j];
      if j < |d| {
        assert Keys(d)[i] == d[i].0 && Keys(d)[j] == d[j].0;
      } else {
        assert Keys(d)[i] == d[i].0;
      }
    }
  }
}
