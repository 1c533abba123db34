/**
 * The pandas operations the dashboard composes, over a table given as a
 * sequence of rows: boolean-mask selection (`df[mask]`), dropping missing
 * cells, `groupby` with its group sizes, and a NaN-skipping `mean`.
 */
module Frames {
  import opened Wrappers
  import opened Ordering

  /** `df[mask]`: the rows satisfying `p`, each kept as often as it occurs, in their order. */
  function Filter<T(!new)>(s: seq<T>, p: T -> bool): (r: seq<T>)
    ensures |r| <= |s|
    ensures forall x :: x in r <==> x in s && p(x)
  {
    if s == [] then [] else (if p(s[0]) then [s[0]] else []) + Filter(s[1..], p)
  }

  /** Selection keeps every selected row exactly as often as the table has it. */
  lemma {:induction false} FilterMultiset<T(!new)>(s: seq<T>, p: T -> bool, x: T)
    ensures multiset(Filter(s, p))[x] == if p(x) then multiset(s)[x] else 0
  {
    if s != [] {
      assert s == [s[0]] + s[1..];
      FilterMultiset(s[1..], p, x);
    }
  }

  /** Selection works row by row: selecting from two stacked tables is stacking the selections. */
  lemma {:induction false} FilterConcat<T(!new)>(a: seq<T>, b: seq<T>, p: T -> bool)
    ensures Filter(a + b, p) == Filter(a, p) + Filter(b, p)
  {
    if a == [] {
      assert a + b == b;
    } else {
      assert (a + b)[0] == a[0];
      assert (a + b)[1..] == a[1..] + b;
      FilterConcat(a[1..], b, p);
      var h := if p(a[0]) then [a[0]] else [];
      calc {
        Filter(a + b, p);
        h + Filter(a[1..] + b, p);
        h + (Filter(a[1..], p) + Filter(b, p));
        (h + Filter(a[1..], p)) + Filter(b, p);
      }
    }
  }

  /** Selecting by `q` after selecting by a weaker `p` is selecting by `q` alone. */
  lemma {:induction false} FilterSubsumed<T(!new)>(s: seq<T>, p: T -> bool, q: T -> bool)
    requires forall x :: q(x) ==> p(x)
    ensures Filter(Filter(s, p), q) == Filter(s, q)
  {
    if s != [] {
      FilterSubsumed(s[1..], p, q);
      var h := if q(s[0]) then [s[0]] else [];
      if p(s[0]) {
        var t := [s[0]] + Filter(s[1..], p);
        assert t[0] == s[0] && t[1..] == Filter(s[1..], p);
        assert Filter(t, q) == h + Filter(Filter(s[1..], p), q);
      } else {
        assert Filter(s, p) == Filter(s[1..], p);
        assert h == [];
      }
    }
  }

  /** Selecting rows that nothing in the table satisfies gives the empty table. */
  lemma FilterNone<T(!new)>(s: seq<T>, p: T -> bool)
    requires forall x :: x in s ==> !p(x)
    ensures Filter(s, p) == []
  {
  }

  /** Column `f` of the table, one cell per row, in row order (`df[col]`). */
  function Column<T, V>(s: seq<T>, f: T -> V): (c: seq<V>)
    ensures |c| == |s|
    ensures forall i :: 0 <= i < |s| ==> c[i] == f(s[i])
  {
    seq(|s|, i requires 0 <= i < |s| => f(s[i]))
  }

  /** The non-missing cells of column `f`, in row order (`dropna` on one column). */
  function Present<T(!new), V(!new)>(s: seq<T>, f: T -> Option<V>): (r: seq<V>)
    ensures |r| <= |s|
    ensures forall v :: v in r <==> exists x :: x in s && f(x) == Some(v)
    ensures (forall x :: x in s ==> f(x).Some?) ==> |r| == |s|
  {
    if s == [] then []
    else
      var rest := Present(s[1..], f);
      assert forall x :: x in s <==> x == s[0] || x in s[1..];
      match f(s[0])
      case Some(v) => [v] + rest
      case None => rest
  }

  /** Dropping missing cells keeps each value exactly as often as the column holds it. */
  lemma {:induction false} PresentMultiset<T(!new), V(!new)>(s: seq<T>, f: T -> Option<V>, v: V)
    ensures multiset(Present(s, f))[v] == multiset(Column(s, f))[Some(v)]
  {
    if s != [] {
      assert Column(s, f) == [f(s[0])] + Column(s[1..], f);
      PresentMultiset(s[1..], f, v);
    }
  }

  /** Selection keeps the rows in their order, so a sorted table stays sorted. */
  lemma {:induction false} FilterKeepsSorted<T(!new)>(s: seq<T>, p: T -> bool, lt: (T, T) -> bool)
    requires StrictlySorted(s, lt)
    ensures StrictlySorted(Filter(s, p), lt)
  {
    if s != [] {
      FilterKeepsSorted(s[1..], p, lt);
      var rest := Filter(s[1..], p);
      assert forall y :: y in rest ==> lt(s[0], y);
    }
  }

  /** The mask `df[key] == k`; a missing key never matches. */
  function HasKey<T, K(==)>(key: T -> Option<K>, k: K): T -> bool {
    x => key(x) == Some(k)
  }

  /** The rows of `groupby(key)`'s group `k`; a row whose key is missing is in no group. */
  function Group<T(!new), K(==)>(s: seq<T>, key: T -> Option<K>, k: K): (g: seq<T>)
    ensures forall x :: x in g <==> x in s && key(x) == Some(k)
  {
    Filter(s, HasKey(key, k))
  }

  /** `groupby(key).size()` for group `k`: the number of rows whose key is `k`. */
  function Count<T(!new), K(==)>(s: seq<T>, key: T -> Option<K>, k: K): (n: nat)
    ensures n > 0 <==> exists x :: x in s && key(x) == Some(k)
    ensures n <= |s|
  {
    var g := Group(s, key, k);
    assert g != [] ==> g[0] in g;
    |g|
  }

  /** A group's size is the number of times its key occurs in the key column. */
  lemma {:induction false} CountOccurrences<T(!new), K>(s: seq<T>, key: T -> Option<K>, k: K)
    ensures Count(s, key, k) == multiset(Column(s, key))[Some(k)]
  {
    if s != [] {
      assert Column(s, key) == [key(s[0])] + Column(s[1..], key);
      CountOccurrences(s[1..], key, k);
    }
  }

  /** The group keys in `groupby`'s ascending order: exactly the keys some row has. */
  function Keys<T(!new), K(==,!new)>(s: seq<T>, key: T -> Option<K>, lt: (K, K) -> bool): (ks: seq<K>)
    requires StrictTotalOrder(lt)
    ensures StrictlySorted(ks, lt)
    ensures forall k :: k in ks <==> Count(s, key, k) > 0
  {
    SortedDistinct(Present(s, key), lt)
  }

  function Sum(xs: seq<real>): real {
    if xs == [] then 0.0 else xs[0] + Sum(xs[1..])
  }

  /** pandas `mean` over the non-missing values: missing when there are none. */
  function Mean(xs: seq<real>): (m: Option<real>)
    ensures m.Some? <==> |xs| > 0
    ensures m.Some? ==> m.value * |xs| as real == Sum(xs)
  {
    if xs == [] then None else Some(Sum(xs) / |xs| as real)
  }

  /** `groupby(key)[val].mean()` for group `k`. */
  function GroupMean<T(!new), K(==)>(s: seq<T>, key: T -> Option<K>, k: K, val: T -> Option<real>): (m: Option<real>)
    ensures m.Some? ==> Count(s, key, k) > 0
    ensures m.Some? <==> exists x :: x in s && key(x) == Some(k) && val(x).Some?
  {
    var g := Group(s, key, k);
    var vs := Present(g, val);
    assert vs != [] ==> vs[0] in vs;
    Mean(vs)
  }

  lemma {:induction false} SumBounds(xs: seq<real>, lo: real, hi: real)
    requires forall x :: x in xs ==> lo <= x <= hi
    ensures |xs| as real * lo <= Sum(xs) <= |xs| as real * hi
  {
    if xs != [] {
      assert xs[0] in xs;
      assert forall x :: x in xs[1..] ==> x in xs;
      SumBounds(xs[1..], lo, hi);
      var n := |xs[1..]| as real;
      assert |xs| as real * lo == n * lo + lo;
      assert |xs| as real * hi == n * hi + hi;
    }
  }

  lemma {:induction false} SumAbove(xs: seq<real>, lo: real)
    requires xs != []
    requires forall x :: x in xs ==> lo < x
    ensures |xs| as real * lo < Sum(xs)
  {
    assert xs[0] in xs;
    if |xs| > 1 {
      assert forall x :: x in xs[1..] ==> x in xs;
      SumAbove(xs[1..], lo);
      var n := |xs[1..]| as real;
      assert |xs| as real * lo == n * lo + lo;
    }
  }

  /** A mean of values in the interval (lo, hi] lies in (lo, hi]. */
  lemma MeanInHalfOpen(xs: seq<real>, lo: real, hi: real)
    requires forall x :: x in xs ==> lo < x <= hi
    ensures Mean(xs).Some? ==> lo < Mean(xs).value <= hi
  {
    if xs != [] {
      SumBounds(xs, lo, hi);
      SumAbove(xs, lo);
      var n := |xs| as real;
      var m := Mean(xs).value;
      assert n * (m - lo) > 0.0;
      assert n * (hi - m) >= 0.0;
    }
  }

  /** A mean of values in the interval [lo, hi] lies in [lo, hi]. */
  lemma MeanInClosed(xs: seq<real>, lo: real, hi: real)
    requires forall x :: x in xs ==> lo <= x <= hi
    ensures Mean(xs).Some? ==> lo <= Mean(xs).value <= hi
  {
    if xs != [] {
      SumBounds(xs, lo, hi);
      var n := |xs| as real;
      var m := Mean(xs).value;
      assert n * (m - lo) >= 0.0;
      assert n * (hi - m) >= 0.0;
    }
  }
}
