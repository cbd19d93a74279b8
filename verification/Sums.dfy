/** Sums over lists and over finite sets. */
module Sums {
  /** The sum over the first n elements. */
  function SumTo<T>(xs: seq<T>, n: nat, w: T -> nat): nat
    requires n <= |xs|
  {
    if n == 0 then 0 else SumTo(xs, n - 1, w) + w(xs[n - 1])
  }

  function Sum<T>(xs: seq<T>, w: T -> nat): nat {
    SumTo(xs, |xs|, w)
  }

  lemma {:induction false} SumPrefix<T>(xs: seq<T>, ys: seq<T>, n: nat, w: T -> nat)
    requires n <= |xs| && n <= |ys| && forall i :: 0 <= i < n ==> xs[i] == ys[i]
    ensures SumTo(xs, n, w) == SumTo(ys, n, w)
  {
    if n > 0 {
      SumPrefix(xs, ys, n - 1, w);
    }
  }

  lemma SumPush<T>(xs: seq<T>, x: T, w: T -> nat)
    ensures Sum(xs + [x], w) == Sum(xs, w) + w(x)
  {
    SumPrefix(xs, xs + [x], |xs|, w);
  }

  lemma SumOne<T>(x: T, w: T -> nat)
    ensures Sum([x], w) == w(x)
    ensures Sum([], w) == 0
  {
    assert SumTo([x], 0, w) == 0;
  }

  lemma {:induction false} SumAppendTo<T>(xs: seq<T>, ys: seq<T>, n: nat, w: T -> nat)
    requires n <= |ys|
    ensures SumTo(xs + ys, |xs| + n, w) == Sum(xs, w) + SumTo(ys, n, w)
  {
    if n == 0 {
      SumPrefix(xs, xs + ys, |xs|, w);
    } else {
      SumAppendTo(xs, ys, n - 1, w);
    }
  }

  lemma SumAppend<T>(xs: seq<T>, ys: seq<T>, w: T -> nat)
    ensures Sum(xs + ys, w) == Sum(xs, w) + Sum(ys, w)
  {
    SumAppendTo(xs, ys, |ys|, w);
  }

  lemma {:induction false} SumBelow<T>(xs: seq<T>, n: nat, v: T -> nat, w: T -> nat)
    requires n <= |xs| && forall i :: 0 <= i < n ==> v(xs[i]) <= w(xs[i])
    ensures SumTo(xs, n, v) <= SumTo(xs, n, w)
  {
    if n > 0 {
      SumBelow(xs, n - 1, v, w);
    }
  }

  lemma SumSame<T>(xs: seq<T>, v: T -> nat, w: T -> nat)
    requires forall i :: 0 <= i < |xs| ==> v(xs[i]) == w(xs[i])
    ensures Sum(xs, v) == Sum(xs, w)
  {
    SumBelow(xs, |xs|, v, w);
    SumBelow(xs, |xs|, w, v);
  }

  lemma {:induction false} SumZero<T>(xs: seq<T>, n: nat, w: T -> nat)
    requires n <= |xs| && forall i :: 0 <= i < n ==> w(xs[i]) == 0
    ensures SumTo(xs, n, w) == 0
  {
    if n > 0 {
      SumZero(xs, n - 1, w);
    }
  }

  ghost function Total<K>(s: set<K>, w: K -> nat): nat {
    if s == {} then 0
    else
      var k :| k in s;
      w(k) + Total(s - {k}, w)
  }

  /** Taking one item out takes its weight out. */
  lemma SumRemove<T>(xs: seq<T>, i: nat, w: T -> nat)
    requires i < |xs|
    ensures Sum(xs, w) == Sum(xs[..i] + xs[i + 1..], w) + w(xs[i])
    ensures multiset(xs) == multiset(xs[..i] + xs[i + 1..]) + multiset{xs[i]}
  {
    var a, x, b := xs[..i], xs[i], xs[i + 1..];
    assert xs == (a + [x]) + b;
    SumAppend(a + [x], b, w);
    SumPush(a, x, w);
    SumAppend(a, b, w);
  }

  /** A sum does not depend on the order of its items. */
  lemma {:induction false} SumUnordered<T>(xs: seq<T>, ys: seq<T>, w: T -> nat)
    requires multiset(xs) == multiset(ys)
    ensures Sum(xs, w) == Sum(ys, w)
  {
    if xs == [] {
      assert |multiset(ys)| == 0;
    } else {
      var x := xs[0];
      assert x in multiset(ys);
      var j :| 0 <= j < |ys| && ys[j] == x;
      SumRemove(xs, 0, w);
      SumRemove(ys, j, w);
      var rest, left := xs[..0] + xs[1..], ys[..j] + ys[j + 1..];
      assert multiset(rest) == multiset(xs) - multiset{x} == multiset(left);
      SumUnordered(rest, left, w);
    }
  }

  lemma {:induction false} TotalRemove<K>(s: set<K>, k: K, w: K -> nat)
    requires k in s
    ensures Total(s, w) == w(k) + Total(s - {k}, w)
  {
    var first :| first in s && Total(s, w) == w(first) + Total(s - {first}, w);
    if first != k {
      TotalRemove(s - {first}, k, w);
      TotalRemove(s - {k}, first, w);
      assert s - {first} - {k} == s - {k} - {first};
    }
  }

  lemma {:induction false} TotalSame<K>(s: set<K>, v: K -> nat, w: K -> nat)
    requires forall k :: k in s ==> v(k) == w(k)
    ensures Total(s, v) == Total(s, w)
  {
    if s != {} {
      var k :| k in s;
      TotalRemove(s, k, v);
      TotalRemove(s, k, w);
      TotalSame(s - {k}, v, w);
    }
  }

  lemma {:induction false} TotalZero<K>(s: set<K>, w: K -> nat)
    requires forall k :: k in s ==> w(k) == 0
    ensures Total(s, w) == 0
  {
    if s != {} {
      var k :| k in s;
      TotalRemove(s, k, w);
      TotalZero(s - {k}, w);
    }
  }

  /** Changing the weight at one key, which may be new. */
  lemma TotalChange<K>(s: set<K>, k: K, v: K -> nat, w: K -> nat)
    requires forall j :: j in s && j != k ==> v(j) == w(j)
    ensures Total(s + {k}, w) == Total(s, v) - (if k in s then v(k) else 0) + w(k)
  {
    TotalRemove(s + {k}, k, w);
    assert (s + {k}) - {k} == s - {k};
    TotalSame(s - {k}, v, w);
    if k in s {
      TotalRemove(s, k, v);
    } else {
      assert s - {k} == s;
    }
  }

  /** Listing a set and summing the list gives the total. */
  lemma {:induction false} TotalOfList<K(!new)>(xs: seq<K>, n: nat, s: set<K>, w: K -> nat)
    requires n <= |xs| && forall k :: k in xs[..n] <==> k in s
    requires forall i, j :: 0 <= i < j < n ==> xs[i] != xs[j]
    ensures SumTo(xs, n, w) == Total(s, w)
  {
    if n == 0 {
      assert s == {};
    } else {
      var last := xs[n - 1];
      assert xs[..n] == xs[..n - 1] + [last];
      assert last in xs[..n];
      TotalRemove(s, last, w);
      assert last !in xs[..n - 1];
      TotalOfList(xs, n - 1, s - {last}, w);
    }
  }
}
