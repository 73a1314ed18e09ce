/** Sums of reals over finite sets, and maps whose missing keys read as zero. */
module Sums {
  function Get<K>(m: map<K, real>, k: K): real {
    if k in m then m[k] else 0.0
  }

  /** The entry API's `or_default() += x`. */
  function AddTo<K(!new)>(m: map<K, real>, k: K, x: real): (r: map<K, real>)
    ensures r.Keys == m.Keys + {k}
    ensures Get(r, k) == Get(m, k) + x
    ensures forall j :: j != k ==> Get(r, j) == Get(m, j)
  {
    m[k := Get(m, k) + x]
  }

  ghost function SumOver<K(!new)>(keys: set<K>, f: K -> real): real {
    if keys == {} then 0.0
    else
      var k :| k in keys;
      f(k) + SumOver(keys - {k}, f)
  }

  lemma {:induction false} SumRemove<K(!new)>(keys: set<K>, f: K -> real, k: K)
    requires k in keys
    ensures SumOver(keys, f) == f(k) + SumOver(keys - {k}, f)
    decreases |keys|
  {
    var j :| j in keys && SumOver(keys, f) == f(j) + SumOver(keys - {j}, f);
    if j != k {
      SumRemove(keys - {j}, f, k);
      SumRemove(keys - {k}, f, j);
      assert keys - {j} - {k} == keys - {k} - {j};
    }
  }

  lemma SumNone<K(!new)>(f: K -> real)
    ensures SumOver({}, f) == 0.0
  {
  }

  /** Sums agree when the terms do. */
  lemma {:induction false} SumSame<K(!new)>(keys: set<K>, f: K -> real, g: K -> real)
    requires forall k :: k in keys ==> f(k) == g(k)
    ensures SumOver(keys, f) == SumOver(keys, g)
    decreases |keys|
  {
    if keys != {} {
      var k :| k in keys;
      SumRemove(keys, f, k);
      SumRemove(keys, g, k);
      SumSame(keys - {k}, f, g);
    }
  }

  /** A term changes at one key, which may be new; a key that is not there counts for nothing. */
  lemma SumChange<K(!new)>(keys: set<K>, f: K -> real, g: K -> real, k: K)
    requires forall j :: j in keys && j != k ==> f(j) == g(j)
    ensures SumOver(keys + {k}, g) - SumOver(keys, f) == g(k) - (if k in keys then f(k) else 0.0)
  {
    SumRemove(keys + {k}, g, k);
    SumSame(keys - {k}, f, g);
    assert keys + {k} - {k} == keys - {k};
    if k in keys {
      SumRemove(keys, f, k);
    } else {
      assert keys - {k} == keys;
    }
  }

  /** Sums subtract term by term. */
  lemma {:induction false} SumMinus<K(!new)>(keys: set<K>, f: K -> real, g: K -> real, h: K -> real)
    requires forall k :: k in keys ==> h(k) == f(k) - g(k)
    ensures SumOver(keys, h) == SumOver(keys, f) - SumOver(keys, g)
    decreases |keys|
  {
    if keys != {} {
      var k :| k in keys;
      SumRemove(keys, f, k);
      SumRemove(keys, g, k);
      SumRemove(keys, h, k);
      SumMinus(keys - {k}, f, g, h);
    }
  }

  /** Keys whose term is zero can be added without changing the sum. */
  lemma {:induction false} SumExtend<K(!new)>(keys: set<K>, more: set<K>, f: K -> real)
    requires keys <= more && forall k :: k in more - keys ==> f(k) == 0.0
    ensures SumOver(more, f) == SumOver(keys, f)
    decreases |more|
  {
    if more - keys == {} {
      assert more == keys;
    } else {
      var k :| k in more - keys;
      SumRemove(more, f, k);
      SumExtend(keys, more - {k}, f);
    }
  }

  lemma {:induction false} SumZero<K(!new)>(keys: set<K>, f: K -> real)
    requires forall k :: k in keys ==> f(k) == 0.0
    ensures SumOver(keys, f) == 0.0
    decreases |keys|
  {
    if keys != {} {
      var k :| k in keys;
      SumRemove(keys, f, k);
      SumZero(keys - {k}, f);
    }
  }
}
