/** Python dicts, JavaScript objects and JSON objects keep their keys in insertion order.
    They are modelled as sequences of (key, value) pairs; `Put` is dict assignment, which
    overwrites an existing key in place and appends a new one. */
module Assoc {
  import opened Wrappers

  function Keys<V>(m: seq<(string, V)>): set<string>
  {
    if m == [] then {} else {m[0].0} + Keys(m[1..])
  }

  /** Each key occurs at most once, as in a dict. */
  predicate DistinctKeys<V>(m: seq<(string, V)>)
  {
    m == [] || (m[0].0 !in Keys(m[1..]) && DistinctKeys(m[1..]))
  }

  /** `d.get(k)`: the value stored under `k`, or `None`. */
  function Get<V>(m: seq<(string, V)>, k: string): (r: Option<V>)
    ensures r.Some? <==> k in Keys(m)
    ensures r.Some? ==> (k, r.value) in m
  {
    if m == [] then None
    else if m[0].0 == k then Some(m[0].1)
    else Get(m[1..], k)
  }

  /** `d[k] = v`. */
  function Put<V>(m: seq<(string, V)>, k: string, v: V): (r: seq<(string, V)>)
    ensures Keys(r) == Keys(m) + {k}
    ensures Get(r, k) == Some(v)
    ensures forall k' :: k' != k ==> Get(r, k') == Get(m, k')
    ensures k in Keys(m) ==> |r| == |m|
    ensures k !in Keys(m) ==> r == m + [(k, v)]
  {
    if m == [] then [(k, v)]
    else if m[0].0 == k then [(k, v)] + m[1..]
    else [m[0]] + Put(m[1..], k, v)
  }

  lemma {:induction false} KeysIn<V>(m: seq<(string, V)>, k: string)
    ensures k in Keys(m) <==> exists i :: 0 <= i < |m| && m[i].0 == k
  {
    if m != [] {
      KeysIn(m[1..], k);
      if k in Keys(m[1..]) {
        var i :| 0 <= i < |m[1..]| && m[1..][i].0 == k;
        assert m[i + 1].0 == k;
      }
      if exists i :: 0 <= i < |m| && m[i].0 == k {
        var i :| 0 <= i < |m| && m[i].0 == k;
        if i > 0 { assert m[1..][i - 1].0 == k; }
      }
    }
  }

  lemma {:induction false} KeysAppend<V>(a: seq<(string, V)>, b: seq<(string, V)>)
    ensures Keys(a + b) == Keys(a) + Keys(b)
    decreases |a|
  {
    if a != [] {
      KeysAppend(a[1..], b);
      assert (a + b)[1..] == a[1..] + b;
    } else {
      assert a + b == b;
    }
  }

  /** `for k, t in items: d[k] = f(k, t)`, in order. */
  function PutEach<T, V>(m: seq<(string, V)>, items: seq<(string, T)>, f: (string, T) -> V)
    : seq<(string, V)>
    decreases |items|
  {
    if items == [] then m
    else
      var last := items[|items| - 1];
      Put(PutEach(m, items[..|items| - 1], f), last.0, f(last.0, last.1))
  }

  /** One more item: its key is assigned after the earlier ones. */
  lemma {:induction false} PutEachStep<T, V>(m: seq<(string, V)>, items: seq<(string, T)>,
                                             f: (string, T) -> V, i: int)
    requires 0 <= i < |items|
    ensures PutEach(m, items[..i + 1], f) == Put(PutEach(m, items[..i], f), items[i].0, f(items[i].0, items[i].1))
  {
    assert items[..i + 1][..i] == items[..i];
  }

  /** The loop adds exactly the items' keys. */
  lemma {:induction false} PutEachKeys<T, V>(m: seq<(string, V)>, items: seq<(string, T)>,
                                             f: (string, T) -> V)
    ensures Keys(PutEach(m, items, f)) == Keys(m) + Keys(items)
    decreases |items|
  {
    if items != [] {
      var init := items[..|items| - 1];
      var last := items[|items| - 1];
      PutEachKeys(m, init, f);
      KeysAppend(init, [last]);
      assert items == init + [last];
      assert Keys([last]) == {last.0} by {
        assert [last][1..] == [];
      }
    } else {
      assert Keys(items) == {};
    }
  }

  /** With distinct item keys, each key ends up holding its own item's value. */
  lemma {:induction false} PutEachGet<T, V>(m: seq<(string, V)>, items: seq<(string, T)>,
                                            f: (string, T) -> V)
    requires forall i, j :: 0 <= i < j < |items| ==> items[i].0 != items[j].0
    ensures forall i :: 0 <= i < |items| ==> Get(PutEach(m, items, f), items[i].0) == Some(f(items[i].0, items[i].1))
    decreases |items|
  {
    if items != [] {
      var n := |items|;
      var init := items[..n - 1];
      PutEachGet(m, init, f);
      forall i | 0 <= i < n - 1
        ensures Get(PutEach(m, items, f), items[i].0) == Some(f(items[i].0, items[i].1))
      {
        assert init[i] == items[i];
        assert items[i].0 != items[n - 1].0;
      }
    }
  }

  /** Dict assignment never creates a second entry for a key. */
  lemma {:induction false} PutKeepsKeysDistinct<V>(m: seq<(string, V)>, k: string, v: V)
    requires DistinctKeys(m)
    ensures DistinctKeys(Put(m, k, v))
  {
    if m != [] && m[0].0 != k {
      PutKeepsKeysDistinct(m[1..], k, v);
      assert Put(m, k, v)[1..] == Put(m[1..], k, v);
    } else if m != [] {
      assert Put(m, k, v)[1..] == m[1..];
    }
  }
}
