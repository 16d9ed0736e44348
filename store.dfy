/**
 * The JavaScript `Map<string, V>` the in-memory database keeps its
 * entities in: a dictionary that remembers insertion order. `set` on a new
 * key appends it, `set` on a present key replaces the value in place, and
 * `delete` removes the key. `values()` enumerates in key order.
 * Also the order-preserving `Array.prototype.filter` the queries use.
 */
module Store {
  import opened Wrappers

  datatype Table<V> = Table(keys: seq<string>, rows: map<string, V>)

  predicate Distinct(ks: seq<string>)
  {
    forall i, j :: 0 <= i < j < |ks| ==> ks[i] != ks[j]
  }

  /** Every key is listed exactly once, in insertion order. */
  ghost predicate Valid<V>(t: Table<V>)
  {
    Distinct(t.keys) && forall k :: k in t.rows <==> k in t.keys
  }

  function Empty<V>(): (t: Table<V>)
    ensures Valid(t) && t.keys == []
  {
    Table([], map[])
  }

  /** `map.get(k)`, with `undefined` as `None`. */
  function Get<V>(t: Table<V>, k: string): Option<V>
  {
    if k in t.rows then Some(t.rows[k]) else None
  }

  /** `map.set(k, v)`. */
  function Put<V>(t: Table<V>, k: string, v: V): (r: Table<V>)
    requires Valid(t)
    ensures Valid(r)
    ensures Get(r, k) == Some(v)
    ensures forall j :: j != k ==> Get(r, j) == Get(t, j)
    ensures k in t.rows ==> r.keys == t.keys
    ensures k !in t.rows ==> r.keys == t.keys + [k]
  {
    if k in t.rows then Table(t.keys, t.rows[k := v]) else Table(t.keys + [k], t.rows[k := v])
  }

  function RemoveKey(ks: seq<string>, k: string): (r: seq<string>)
    ensures forall j :: j in r <==> j in ks && j != k
    ensures Distinct(ks) ==> Distinct(r)
  {
    if ks == [] then []
    else if ks[0] == k then RemoveKey(ks[1..], k)
    else
      assert Distinct(ks) ==> ks[0] !in ks[1..] && Distinct(ks[1..]);
      [ks[0]] + RemoveKey(ks[1..], k)
  }

  /** `map.delete(k)`; a missing key leaves the table as it was. */
  function Delete<V>(t: Table<V>, k: string): (r: Table<V>)
    requires Valid(t)
    ensures Valid(r)
    ensures Get(r, k) == None
    ensures forall j :: j != k ==> Get(r, j) == Get(t, j)
  {
    Table(RemoveKey(t.keys, k), t.rows - {k})
  }

  /** Deleting a missing key changes nothing. */
  lemma DeleteMissing<V>(t: Table<V>, k: string)
    requires Valid(t) && k !in t.rows
    ensures Delete(t, k) == t
  {
    RemoveMissing(t.keys, k);
  }

  lemma {:induction false} RemoveMissing(ks: seq<string>, k: string)
    requires k !in ks
    ensures RemoveKey(ks, k) == ks
  {
    if ks != [] {
      RemoveMissing(ks[1..], k);
    }
  }

  /** Every entry is stored under its own id. */
  predicate KeyedById<V>(t: Table<V>, id: V -> string)
  {
    forall k :: k in t.rows ==> id(t.rows[k]) == k
  }

  /** Storing a value under its own id keeps the table keyed by id. */
  lemma PutKeyedById<V>(t: Table<V>, k: string, v: V, id: V -> string)
    requires Valid(t) && KeyedById(t, id) && id(v) == k
    ensures KeyedById(Put(t, k, v), id)
  {
    forall j | j in Put(t, k, v).rows ensures id(Put(t, k, v).rows[j]) == j {
      if j != k {
        assert Get(Put(t, k, v), j) == Get(t, j);
      } else {
        assert Get(Put(t, k, v), k) == Some(v);
      }
    }
  }

  /** Deleting a key keeps every remaining entry under its own id. */
  lemma DeleteKeyedById<V>(t: Table<V>, k: string, id: V -> string)
    requires Valid(t) && KeyedById(t, id)
    ensures KeyedById(Delete(t, k), id)
  {
    forall j | j in Delete(t, k).rows ensures id(Delete(t, k).rows[j]) == j {
      assert Get(Delete(t, k), j) == Get(t, j);
    }
  }

  /** Every stored value satisfies `p`. */
  predicate AllRows<V>(t: Table<V>, p: V -> bool)
  {
    forall k :: k in t.rows ==> p(t.rows[k])
  }

  /** Storing a value that satisfies `p` keeps every value satisfying it. */
  lemma PutAllRows<V>(t: Table<V>, k: string, v: V, p: V -> bool)
    requires Valid(t) && AllRows(t, p) && p(v)
    ensures AllRows(Put(t, k, v), p)
  {
    forall j | j in Put(t, k, v).rows ensures p(Put(t, k, v).rows[j]) {
      if j != k {
        assert Get(Put(t, k, v), j) == Get(t, j);
      } else {
        assert Get(Put(t, k, v), k) == Some(v);
      }
    }
  }

  /** Deleting keeps every remaining value satisfying `p`. */
  lemma DeleteAllRows<V>(t: Table<V>, k: string, p: V -> bool)
    requires Valid(t) && AllRows(t, p)
    ensures AllRows(Delete(t, k), p)
  {
    forall j | j in Delete(t, k).rows ensures p(Delete(t, k).rows[j]) {
      assert Get(Delete(t, k), j) == Get(t, j);
    }
  }

  /** `Array.from(map.values())`. */
  function Values<V>(t: Table<V>): (vs: seq<V>)
    requires Valid(t)
    ensures |vs| == |t.keys|
    ensures forall i :: 0 <= i < |t.keys| ==> vs[i] == t.rows[t.keys[i]]
  {
    seq(|t.keys|, i requires 0 <= i < |t.keys| => t.rows[t.keys[i]])
  }

  /** A value is enumerated exactly when some key maps to it. */
  lemma InValues<V>(t: Table<V>, v: V)
    requires Valid(t)
    ensures v in Values(t) <==> exists k :: k in t.rows && t.rows[k] == v
  {
    if exists k :: k in t.rows && t.rows[k] == v {
      var k :| k in t.rows && t.rows[k] == v;
      var i :| 0 <= i < |t.keys| && t.keys[i] == k;
      assert Values(t)[i] == v;
    }
  }

  /** Setting a new key appends its value to the enumeration. */
  lemma ValuesPutNew<V>(t: Table<V>, k: string, v: V)
    requires Valid(t) && k !in t.rows
    ensures Values(Put(t, k, v)) == Values(t) + [v]
  {
  }

  /** Setting a present key replaces its value where it stands. */
  lemma ValuesPutPresent<V>(t: Table<V>, k: string, v: V)
    requires Valid(t) && k in t.rows
    ensures |Values(Put(t, k, v))| == |Values(t)|
    ensures forall i :: 0 <= i < |t.keys| ==>
      Values(Put(t, k, v))[i] == if t.keys[i] == k then v else Values(t)[i]
  {
  }

  /** `xs.filter(p)`. */
  function Filter<T>(xs: seq<T>, p: T -> bool): (r: seq<T>)
    ensures |r| <= |xs|
    ensures forall i :: 0 <= i < |r| ==> r[i] in xs && p(r[i])
    ensures forall i :: 0 <= i < |xs| && p(xs[i]) ==> xs[i] in r
  {
    if xs == [] then [] else (if p(xs[0]) then [xs[0]] else []) + Filter(xs[1..], p)
  }

  /** Filtering works piecewise, so it keeps the relative order of what it keeps. */
  lemma {:induction false} FilterAppend<T>(a: seq<T>, b: seq<T>, p: T -> bool)
    ensures Filter(a + b, p) == Filter(a, p) + Filter(b, p)
  {
    if a == [] {
      assert a + b == b;
    } else {
      assert (a + b)[0] == a[0];
      assert (a + b)[1..] == a[1..] + b;
      FilterAppend(a[1..], b, p);
    }
  }

  /** `r` is `xs` with some elements left out and the rest in their order. */
  predicate SubsequenceOf<T(==)>(r: seq<T>, xs: seq<T>)
    decreases |xs|
  {
    if r == [] then true
    else if xs == [] then false
    else (r[0] == xs[0] && SubsequenceOf(r[1..], xs[1..])) || SubsequenceOf(r, xs[1..])
  }

  /** A filter only leaves elements out: what it keeps stays in its order. */
  lemma {:induction false} FilterSubsequence<T>(xs: seq<T>, p: T -> bool)
    ensures SubsequenceOf(Filter(xs, p), xs)
  {
    if xs != [] {
      FilterSubsequence(xs[1..], p);
      if p(xs[0]) {
        assert Filter(xs, p)[0] == xs[0] && Filter(xs, p)[1..] == Filter(xs[1..], p);
      } else {
        assert Filter(xs, p) == Filter(xs[1..], p);
      }
    }
  }

  /** `xs.find(p)`: the first element satisfying `p`. */
  function Find<T>(xs: seq<T>, p: T -> bool): (r: Option<T>)
    ensures r.Some? ==> r.value in xs && p(r.value)
    ensures r.Some? ==> exists i :: 0 <= i < |xs| && xs[i] == r.value && p(xs[i]) && forall j :: 0 <= j < i ==> !p(xs[j])
    ensures r.None? ==> forall i :: 0 <= i < |xs| ==> !p(xs[i])
  {
    if xs == [] then None else if p(xs[0]) then Some(xs[0]) else Find(xs[1..], p)
  }
}
