/**
 * Grouping of a sequence by a key, as the source does with
 * `if (!g[k]) g[k] = []; g[k].push(v)` inside a forEach: the groups, and the
 * order in which their keys first appear (the insertion order of Object.keys).
 */
module Grouping {

  /** The elements satisfying p, in their original order. */
  function Filter<T>(s: seq<T>, p: T -> bool): (r: seq<T>)
    ensures |r| <= |s|
    decreases |s|
  {
    if s == [] then []
    else Filter(s[..|s| - 1], p) + (if p(s[|s| - 1]) then [s[|s| - 1]] else [])
  }

  /** Filter keeps exactly the elements satisfying p. */
  lemma {:induction false} FilterMembership<T>(s: seq<T>, p: T -> bool, x: T)
    ensures x in Filter(s, p) <==> x in s && p(x)
    decreases |s|
  {
    if s != [] {
      var n := |s| - 1;
      FilterMembership(s[..n], p, x);
      assert s == s[..n] + [s[n]];
    }
  }

  /** Filtering a prefix gives a prefix of the filtered whole. */
  lemma {:induction false} FilterPrefix<T>(s: seq<T>, p: T -> bool, k: nat)
    requires k <= |s|
    ensures |Filter(s[..k], p)| <= |Filter(s, p)|
    ensures Filter(s, p)[..|Filter(s[..k], p)|] == Filter(s[..k], p)
    decreases |s| - k
  {
    if k < |s| {
      FilterPrefix(s, p, k + 1);
      FilterSnoc(s, p, k);
      PrefixOfPrefix(Filter(s, p), Filter(s[..k + 1], p), Filter(s[..k], p));
    } else {
      assert s[..k] == s;
    }
  }

  /** Filtering one more element of s. */
  lemma FilterSnoc<T>(s: seq<T>, p: T -> bool, k: nat)
    requires k < |s|
    ensures var a, b := Filter(s[..k], p), Filter(s[..k + 1], p);
      |a| <= |b| && b[..|a|] == a
  {
    assert s[..k + 1][..k] == s[..k];
    var a := Filter(s[..k], p);
    assert Filter(s[..k + 1], p) == a + (if p(s[k]) then [s[k]] else []);
  }

  /** A prefix of a prefix is a prefix. */
  lemma PrefixOfPrefix<T>(f: seq<T>, b: seq<T>, a: seq<T>)
    requires |a| <= |b| <= |f| && f[..|b|] == b && b[..|a|] == a
    ensures f[..|a|] == a
  {
    assert f[..|a|] == f[..|b|][..|a|];
  }

  /** Filter of a duplicate-free sequence is duplicate-free. */
  lemma {:induction false} FilterNoDuplicates<T>(s: seq<T>, p: T -> bool)
    requires NoDuplicates(s)
    ensures NoDuplicates(Filter(s, p))
    decreases |s|
  {
    if s != [] {
      var n := |s| - 1;
      assert NoDuplicates(s[..n]);
      FilterNoDuplicates(s[..n], p);
      if p(s[n]) {
        FilterMembership(s[..n], p, s[n]);
        assert s[n] !in s[..n];
      }
    }
  }

  /** Filter depends only on the predicate's values on the elements of s. */
  lemma {:induction false} FilterExt<T>(s: seq<T>, p: T -> bool, q: T -> bool)
    requires forall x :: x in s ==> p(x) == q(x)
    ensures Filter(s, p) == Filter(s, q)
    decreases |s|
  {
    if s != [] {
      FilterExt(s[..|s| - 1], p, q);
    }
  }

  /** Filtering by p and then by q is filtering once by their conjunction pq. */
  lemma {:induction false} FilterFilter<T>(s: seq<T>, p: T -> bool, q: T -> bool, pq: T -> bool)
    requires forall x :: pq(x) == (p(x) && q(x))
    ensures Filter(Filter(s, p), q) == Filter(s, pq)
    decreases |s|
  {
    if s != [] {
      var n := |s| - 1;
      FilterFilter(s[..n], p, q, pq);
      var f := Filter(s[..n], p);
      if p(s[n]) {
        var a := f + [s[n]];
        assert Filter(s, p) == a;
        assert a[..|a| - 1] == f && a[|a| - 1] == s[n];
        assert Filter(a, q) == Filter(f, q) + (if q(s[n]) then [s[n]] else []);
      } else {
        assert Filter(s, p) == f;
      }
    }
  }

  /** Filtering by a predicate every element satisfies keeps everything. */
  lemma {:induction false} FilterAll<T>(s: seq<T>, p: T -> bool)
    requires forall i :: 0 <= i < |s| ==> p(s[i])
    ensures Filter(s, p) == s
    decreases |s|
  {
    if s != [] {
      var n := |s| - 1;
      assert Filter(s[..n], p) == s[..n] by {
        assert forall i :: 0 <= i < n ==> s[..n][i] == s[i];
        FilterAll(s[..n], p);
      }
      assert s == s[..n] + [s[n]];
    }
  }

  /** Filter distributes over concatenation. */
  lemma {:induction false} FilterConcat<T>(a: seq<T>, b: seq<T>, p: T -> bool)
    ensures Filter(a + b, p) == Filter(a, p) + Filter(b, p)
    decreases |b|
  {
    if b != [] {
      var n := |b| - 1;
      FilterConcat(a, b[..n], p);
      assert (a + b)[..|a + b| - 1] == a + b[..n];
    } else {
      assert a + b == a;
    }
  }

  /** When q is the negation of p, the two filters share out s between them. */
  lemma {:induction false} FilterSplit<T>(s: seq<T>, p: T -> bool, q: T -> bool)
    requires forall x :: q(x) == !p(x)
    ensures |Filter(s, p)| + |Filter(s, q)| == |s|
    decreases |s|
  {
    if s != [] {
      FilterSplit(s[..|s| - 1], p, q);
    }
  }

  /** The views of the elements whose key is k, in their original order. */
  function Select<T, K(==), V>(s: seq<T>, key: T -> K, k: K, view: T -> V): seq<V>
    decreases |s|
  {
    if s == [] then []
    else Select(s[..|s| - 1], key, k, view) + (if key(s[|s| - 1]) == k then [view(s[|s| - 1])] else [])
  }

  /** The groups built by visiting s from left to right. */
  function GroupBy<T, K(==), V>(s: seq<T>, key: T -> K, view: T -> V): map<K, seq<V>>
    decreases |s|
  {
    if s == [] then map[]
    else
      var g := GroupBy(s[..|s| - 1], key, view);
      var k := key(s[|s| - 1]);
      g[k := (if k in g then g[k] else []) + [view(s[|s| - 1])]]
  }

  /** The keys of s in the order of their first appearance. */
  function KeyOrder<T, K(==)>(s: seq<T>, key: T -> K): seq<K>
    decreases |s|
  {
    if s == [] then []
    else
      var o := KeyOrder(s[..|s| - 1], key);
      if key(s[|s| - 1]) in o then o else o + [key(s[|s| - 1])]
  }

  predicate NoDuplicates<K(==)>(o: seq<K>) {
    forall i, j :: 0 <= i < j < |o| ==> o[i] != o[j]
  }

  /** Total size of the groups named in o, summed from the last key backwards. */
  function SumSizes<K(==), V>(g: map<K, seq<V>>, o: seq<K>): nat
    decreases |o|
  {
    if o == [] then 0
    else SumSizes(g, o[..|o| - 1]) + (if o[|o| - 1] in g then |g[o[|o| - 1]]| else 0)
  }

  /**
   * Every key has a group exactly when it occurs in s, the key order lists each
   * key once, and the group of k holds the views of exactly the elements whose
   * key is k, in the order of s.
   */
  lemma GroupIsSelection<T, K, V>(s: seq<T>, key: T -> K, view: T -> V, k: K)
    ensures k in GroupBy(s, key, view) <==> k in KeyOrder(s, key)
    ensures k in KeyOrder(s, key) <==> exists i :: 0 <= i < |s| && key(s[i]) == k
    ensures NoDuplicates(KeyOrder(s, key))
    ensures GroupBy(s, key, view).Keys == set x | x in KeyOrder(s, key)
    ensures k in GroupBy(s, key, view) ==> GroupBy(s, key, view)[k] == Select(s, key, k, view)
    ensures k !in GroupBy(s, key, view) ==> Select(s, key, k, view) == []
  {
    GroupKeys(s, key, view, k);
    GroupContents(s, key, view, k);
  }

  /** The keys with a group are the keys in the key order, which lists each key of s once. */
  lemma {:induction false} GroupKeys<T, K, V>(s: seq<T>, key: T -> K, view: T -> V, k: K)
    ensures k in GroupBy(s, key, view) <==> k in KeyOrder(s, key)
    ensures k in KeyOrder(s, key) <==> exists i :: 0 <= i < |s| && key(s[i]) == k
    ensures NoDuplicates(KeyOrder(s, key))
    ensures GroupBy(s, key, view).Keys == set x | x in KeyOrder(s, key)
    decreases |s|
  {
    if s != [] {
      var s' := s[..|s| - 1];
      GroupKeys(s', key, view, k);
      GroupKeys(s', key, view, key(s[|s| - 1]));
      if k in KeyOrder(s, key) && k !in KeyOrder(s', key) {
        assert key(s[|s| - 1]) == k;
      }
      if exists i :: 0 <= i < |s| && key(s[i]) == k {
        var i :| 0 <= i < |s| && key(s[i]) == k;
        if i < |s| - 1 {
          assert key(s'[i]) == k;
        }
      }
      if k in KeyOrder(s', key) {
        var i :| 0 <= i < |s'| && key(s'[i]) == k;
        assert key(s[i]) == k;
      }
    }
  }

  /** The group of k holds the views of the elements whose key is k, in the order of s; without a group there are none. */
  lemma {:induction false} GroupContents<T, K, V>(s: seq<T>, key: T -> K, view: T -> V, k: K)
    ensures k in GroupBy(s, key, view) ==> GroupBy(s, key, view)[k] == Select(s, key, k, view)
    ensures k !in GroupBy(s, key, view) ==> Select(s, key, k, view) == []
    decreases |s|
  {
    if s != [] {
      GroupContents(s[..|s| - 1], key, view, k);
    }
  }

  /** Incrementing one listed group's size by one raises the total by one. */
  lemma {:induction false} SumSizesBump<K, V>(g: map<K, seq<V>>, o: seq<K>, k: K, v: V)
    requires k in g && NoDuplicates(o)
    ensures SumSizes(g[k := g[k] + [v]], o) == SumSizes(g, o) + (if k in o then 1 else 0)
    decreases |o|
  {
    if o != [] {
      var o' := o[..|o| - 1];
      SumSizesBump(g, o', k, v);
      if o[|o| - 1] == k {
        assert k !in o';
      }
    }
  }

  /** Adding a group under a key not listed does not change the listed total. */
  lemma {:induction false} SumSizesFresh<K, V>(g: map<K, seq<V>>, o: seq<K>, k: K, w: seq<V>)
    requires k !in o
    ensures SumSizes(g[k := w], o) == SumSizes(g, o)
    decreases |o|
  {
    if o != [] {
      SumSizesFresh(g, o[..|o| - 1], k, w);
    }
  }

  /** The group sizes add up to the number of elements: every element lands in one group. */
  lemma {:induction false} GroupSizes<T, K, V>(s: seq<T>, key: T -> K, view: T -> V)
    ensures SumSizes(GroupBy(s, key, view), KeyOrder(s, key)) == |s|
    decreases |s|
  {
    if s != [] {
      var s' := s[..|s| - 1];
      var k := key(s[|s| - 1]);
      var g := GroupBy(s', key, view);
      var o := KeyOrder(s', key);
      GroupSizes(s', key, view);
      GroupIsSelection(s', key, view, k);
      if k in o {
        SumSizesBump(g, o, k, view(s[|s| - 1]));
      } else {
        var w := [view(s[|s| - 1])];
        assert k !in g;
        assert [] + w == w;
        assert GroupBy(s, key, view) == g[k := w];
        assert KeyOrder(s, key) == o + [k];
        SumSizesFresh(g, o, k, w);
        assert (o + [k])[..|o|] == o;
      }
    }
  }
}
