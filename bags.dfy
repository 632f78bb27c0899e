/**
  Multisets gathered from the values of a map, in no particular order: what a
  Python loop collects when it walks a dict whose iteration order does not matter.
 */
module Bags {

  /** The union of `g(v)` over every value `v` of `m`, counted with multiplicity. */
  ghost function Sum<K, V, W>(m: map<K, V>, g: V -> multiset<W>): multiset<W>
    decreases |m|
  {
    if m == map[] then multiset{}
    else
      var k :| k in m;
      assert |m - {k}| == |m| - 1 by { assert m.Keys == (m - {k}).Keys + {k}; }
      g(m[k]) + Sum(m - {k}, g)
  }

  /** Any key may be taken out first. */
  lemma {:induction false} SumPick<K, V, W>(m: map<K, V>, g: V -> multiset<W>, k: K)
    requires k in m
    ensures Sum(m, g) == g(m[k]) + Sum(m - {k}, g)
    decreases |m|
  {
    var j :| j in m && Sum(m, g) == g(m[j]) + Sum(m - {j}, g);
    if j != k {
      var mj, mk := m - {j}, m - {k};
      assert |mj| == |m| - 1 by { assert m.Keys == mj.Keys + {j}; }
      assert |mk| == |m| - 1 by { assert m.Keys == mk.Keys + {k}; }
      SumPick(mj, g, k);
      SumPick(mk, g, j);
      assert mj - {k} == mk - {j};
    }
  }

  /** One step of a loop that takes `k` out of `m`. */
  lemma SumStep<K, V, W>(m: map<K, V>, g: V -> multiset<W>, k: K)
    requires k in m
    ensures |m - {k}| == |m| - 1
    ensures Sum(m, g) == g(m[k]) + Sum(m - {k}, g)
  {
    assert m.Keys == (m - {k}).Keys + {k};
    SumPick(m, g, k);
  }

  /** Taking away two bags one after the other takes away their union. */
  lemma DiffUnion<W>(m: multiset<W>, a: multiset<W>, b: multiset<W>)
    ensures m - (a + b) == m - a - b
  {
    assert forall w :: (m - (a + b))[w] == (m - a - b)[w];
  }

  lemma MinusNothing<W>(m: multiset<W>)
    ensures m - multiset{} == m
  {
    assert forall w :: (m - multiset{})[w] == m[w];
  }

  /** Adding a new key adds its bag. */
  lemma SumAdd<K, V, W>(m: map<K, V>, g: V -> multiset<W>, k: K, v: V)
    requires k !in m
    ensures Sum(m[k := v], g) == Sum(m, g) + g(v)
  {
    SumPick(m[k := v], g, k);
    assert m[k := v] - {k} == m;
  }

  /** An element is in the sum exactly when it is in the bag of some value. */
  lemma {:induction false} InSum<K, V, W>(m: map<K, V>, g: V -> multiset<W>, w: W)
    ensures w in Sum(m, g) <==> exists k :: k in m && w in g(m[k])
    decreases |m|
  {
    if m != map[] {
      var k :| k in m;
      SumPick(m, g, k);
      var mk := m - {k};
      assert |mk| == |m| - 1 by { assert m.Keys == mk.Keys + {k}; }
      InSum(mk, g, w);
      if w in Sum(m, g) && w !in g(m[k]) {
        var k' :| k' in mk && w in g(mk[k']);
        assert k' in m && w in g(m[k']);
      }
    }
  }

  /** Sums agree when the two maps' bags agree key by key. */
  lemma {:induction false} SumCongruent<K, V, W>(m: map<K, V>, g: V -> multiset<W>, n: map<K, V>, h: V -> multiset<W>)
    requires m.Keys == n.Keys
    requires forall k | k in m :: g(m[k]) == h(n[k])
    ensures Sum(m, g) == Sum(n, h)
    decreases |m|
  {
    if m != map[] {
      var k :| k in m;
      SumPick(m, g, k);
      SumPick(n, h, k);
      var mk, nk := m - {k}, n - {k};
      assert |mk| == |m| - 1 by { assert m.Keys == mk.Keys + {k}; }
      SumCongruent(mk, g, nk, h);
    }
  }

  /** `[f(x) for x in m]` as a multiset: the image of a multiset, with multiplicity. */
  ghost function Image<T, W>(m: multiset<T>, f: T -> W): multiset<W>
    decreases |m|
  {
    if m == multiset{} then multiset{}
    else
      var x :| x in m;
      multiset{f(x)} + Image(m - multiset{x}, f)
  }

  /** Any element may be taken out first. */
  lemma {:induction false} ImagePick<T, W>(m: multiset<T>, f: T -> W, x: T)
    requires x in m
    ensures Image(m, f) == multiset{f(x)} + Image(m - multiset{x}, f)
    decreases |m|
  {
    var y :| y in m && Image(m, f) == multiset{f(y)} + Image(m - multiset{y}, f);
    if y != x {
      var my, mx := m - multiset{y}, m - multiset{x};
      RemoveTwo(m, x, y);
      ImagePick(my, f, x);
      ImagePick(mx, f, y);
    }
  }

  lemma RemoveTwo<T>(m: multiset<T>, x: T, y: T)
    requires x in m && y in m && x != y
    ensures |m - multiset{x}| == |m| - 1 && |m - multiset{y}| == |m| - 1
    ensures y in m - multiset{x} && x in m - multiset{y}
    ensures m - multiset{y} - multiset{x} == m - multiset{x} - multiset{y}
  {
    assert m == (m - multiset{x}) + multiset{x};
    assert m == (m - multiset{y}) + multiset{y};
  }

  /** Adding an element adds its image. */
  lemma ImageAdd<T, W>(m: multiset<T>, f: T -> W, x: T)
    ensures Image(m + multiset{x}, f) == Image(m, f) + multiset{f(x)}
  {
    ImagePick(m + multiset{x}, f, x);
    assert m + multiset{x} - multiset{x} == m;
  }

  /** An element is in the image exactly when some element maps to it. */
  lemma {:induction false} InImage<T, W>(m: multiset<T>, f: T -> W, w: W)
    ensures w in Image(m, f) <==> exists x :: x in m && f(x) == w
    decreases |m|
  {
    if m != multiset{} {
      var x :| x in m;
      ImagePick(m, f, x);
      InImage(m - multiset{x}, f, w);
      if w in Image(m, f) && f(x) != w {
        var y :| y in m - multiset{x} && f(y) == w;
        assert y in m;
      }
    }
  }
}
