/**
 * Sums and filters over sequences, folded from the left in the way
 * `list.reduce((sum, x) => sum + f(x), 0)` folds them.  Every aggregate of
 * the screens (balances, totals, per-key totals) is one of these.
 */
module Sums {

  /** The sum of `f` over `s`, folded from the left. */
  function Sum<T>(s: seq<T>, f: T -> int): int
  {
    if s == [] then 0 else Sum(s[..|s| - 1], f) + f(s[|s| - 1])
  }

  /** The elements of `s` that satisfy `p`, in their order (`list.filter(p)`). */
  function Filter<T>(s: seq<T>, p: T -> bool): (r: seq<T>)
    ensures |r| <= |s|
    ensures forall i :: 0 <= i < |r| ==> r[i] in s && p(r[i])
    ensures forall i :: 0 <= i < |s| && p(s[i]) ==> s[i] in r
  {
    if s == [] then []
    else Filter(s[..|s| - 1], p) + (if p(s[|s| - 1]) then [s[|s| - 1]] else [])
  }

  /** The sum of `f` over the elements of `s` whose key is `k`. */
  function SumKey<T, K(==)>(s: seq<T>, key: T -> K, k: K, f: T -> int): int
  {
    if s == [] then 0
    else SumKey(s[..|s| - 1], key, k, f) + (if key(s[|s| - 1]) == k then f(s[|s| - 1]) else 0)
  }

  /** The per-key sums of `s`, added up over the list `keys`. */
  function SumByKeys<T, K(==)>(s: seq<T>, keys: seq<K>, key: T -> K, f: T -> int): int
  {
    if keys == [] then 0
    else SumByKeys(s, keys[..|keys| - 1], key, f) + SumKey(s, key, keys[|keys| - 1], f)
  }

  /** No value occurs twice in `keys`. */
  predicate Distinct<K(==)>(keys: seq<K>)
  {
    forall i, j :: 0 <= i < j < |keys| ==> keys[i] != keys[j]
  }

  /** A sum over a concatenation is the sum of the two sums. */
  lemma {:induction false} SumAppend<T>(a: seq<T>, b: seq<T>, f: T -> int)
    ensures Sum(a + b, f) == Sum(a, f) + Sum(b, f)
    decreases |b|
  {
    if b == [] {
      assert a + b == a;
    } else {
      var b' := b[..|b| - 1];
      assert (a + b)[..|a + b| - 1] == a + b';
      SumAppend(a, b', f);
    }
  }

  /** A per-key sum over a concatenation is the sum of the two per-key sums. */
  lemma {:induction false} SumKeyAppend<T, K>(a: seq<T>, b: seq<T>, key: T -> K, k: K, f: T -> int)
    ensures SumKey(a + b, key, k, f) == SumKey(a, key, k, f) + SumKey(b, key, k, f)
    decreases |b|
  {
    if b == [] {
      assert a + b == a;
    } else {
      var b' := b[..|b| - 1];
      assert (a + b)[..|a + b| - 1] == a + b';
      SumKeyAppend(a, b', key, k, f);
    }
  }

  /** Filtering a concatenation filters each part. */
  lemma {:induction false} FilterAppend<T>(a: seq<T>, b: seq<T>, p: T -> bool)
    ensures Filter(a + b, p) == Filter(a, p) + Filter(b, p)
    decreases |b|
  {
    if b == [] {
      assert a + b == a;
    } else {
      var b' := b[..|b| - 1];
      assert (a + b)[..|a + b| - 1] == a + b';
      FilterAppend(a, b', p);
    }
  }

  /**
   * Splitting a sequence by a predicate and summing each part gives the
   * whole sum: every element lies in exactly one of the two parts.
   */
  lemma {:induction false} SumPartition<T>(s: seq<T>, p: T -> bool, q: T -> bool, f: T -> int)
    requires forall x :: q(x) == !p(x)
    ensures Sum(Filter(s, p), f) + Sum(Filter(s, q), f) == Sum(s, f)
  {
    if s != [] {
      var s', x := s[..|s| - 1], s[|s| - 1];
      SumPartition(s', p, q, f);
      SumAppend(Filter(s', p), if p(x) then [x] else [], f);
      SumAppend(Filter(s', q), if q(x) then [x] else [], f);
      assert Sum([x], f) == f(x) by {
        assert [x][..0] == [];
      }
    }
  }

  /** Summing `f` over the filtered list is summing `f` where `p` holds and 0 elsewhere. */
  lemma {:induction false} SumFilter<T>(s: seq<T>, p: T -> bool, f: T -> int, g: T -> int)
    requires forall x :: g(x) == if p(x) then f(x) else 0
    ensures Sum(Filter(s, p), f) == Sum(s, g)
  {
    if s != [] {
      var s', x := s[..|s| - 1], s[|s| - 1];
      SumFilter(s', p, f, g);
      SumAppend(Filter(s', p), if p(x) then [x] else [], f);
      assert Sum([x], f) == f(x) by {
        assert [x][..0] == [];
      }
    }
  }

  /** Keys that are not in `s` at all contribute nothing. */
  lemma {:induction false} SumByKeysOfEmpty<T, K>(keys: seq<K>, key: T -> K, f: T -> int)
    ensures SumByKeys([], keys, key, f) == 0
  {
    if keys != [] {
      SumByKeysOfEmpty(keys[..|keys| - 1], key, f);
    }
  }

  /**
   * Appending one element to `s` adds its value to the per-key sums once
   * when its key is listed (the keys being distinct) and not at all otherwise.
   */
  lemma {:induction false} SumByKeysSnoc<T, K>(s: seq<T>, x: T, keys: seq<K>, key: T -> K, f: T -> int)
    requires Distinct(keys)
    ensures SumByKeys(s + [x], keys, key, f) == SumByKeys(s, keys, key, f) + (if key(x) in keys then f(x) else 0)
  {
    if keys != [] {
      var keys', last := keys[..|keys| - 1], keys[|keys| - 1];
      SumByKeysSnoc(s, x, keys', key, f);
      assert (s + [x])[..|s + [x]| - 1] == s;
      assert key(x) in keys <==> key(x) in keys' || key(x) == last by {
        assert keys == keys' + [last];
      }
      assert key(x) in keys' ==> key(x) != last;
    }
  }

  /**
   * Summing the per-key sums over a duplicate-free list of keys that covers
   * every element that carries a value gives the plain sum: grouping by key
   * neither loses nor double-counts an element.
   */
  lemma {:induction false} SumOverKeys<T, K>(s: seq<T>, keys: seq<K>, key: T -> K, f: T -> int)
    requires Distinct(keys)
    requires forall x :: x in s ==> key(x) in keys || f(x) == 0
    ensures SumByKeys(s, keys, key, f) == Sum(s, f)
  {
    if s == [] {
      SumByKeysOfEmpty(keys, key, f);
    } else {
      var s', x := s[..|s| - 1], s[|s| - 1];
      assert s == s' + [x];
      SumOverKeys(s', keys, key, f);
      SumByKeysSnoc(s', x, keys, key, f);
    }
  }

  /** A per-key sum over the filtered list is the per-key sum of `f` where `p` holds and 0 elsewhere. */
  lemma {:induction false} SumKeyFilter<T, K>(s: seq<T>, p: T -> bool, key: T -> K, k: K, f: T -> int, g: T -> int)
    requires forall x :: g(x) == if p(x) then f(x) else 0
    ensures SumKey(Filter(s, p), key, k, f) == SumKey(s, key, k, g)
  {
    if s != [] {
      var s', x := s[..|s| - 1], s[|s| - 1];
      SumKeyFilter(s', p, key, k, f, g);
      SumKeyAppend(Filter(s', p), if p(x) then [x] else [], key, k, f);
      assert SumKey([x], key, k, f) == (if key(x) == k then f(x) else 0) by {
        assert [x][..0] == [];
      }
    }
  }

  /** Summing `f` over the elements a filter keeps is the per-key sum for the key that filter selects. */
  lemma {:induction false} SumFilterByKey<T, K>(s: seq<T>, p: T -> bool, key: T -> K, k: K, f: T -> int)
    requires forall x :: p(x) == (key(x) == k)
    ensures Sum(Filter(s, p), f) == SumKey(s, key, k, f)
  {
    if s != [] {
      var s', x := s[..|s| - 1], s[|s| - 1];
      SumFilterByKey(s', p, key, k, f);
      SumAppend(Filter(s', p), if p(x) then [x] else [], f);
      assert Sum([x], f) == f(x) by {
        assert [x][..0] == [];
      }
    }
  }

  /** A per-key sum of a pointwise difference is the difference of the per-key sums. */
  lemma {:induction false} SumKeyDifference<T, K>(s: seq<T>, key: T -> K, k: K, f: T -> int, g: T -> int, h: T -> int)
    requires forall x :: f(x) == g(x) - h(x)
    ensures SumKey(s, key, k, f) == SumKey(s, key, k, g) - SumKey(s, key, k, h)
  {
    if s != [] {
      SumKeyDifference(s[..|s| - 1], key, k, f, g, h);
    }
  }

  /** A sum of a pointwise difference is the difference of the sums. */
  lemma {:induction false} SumDifference<T>(s: seq<T>, f: T -> int, g: T -> int, h: T -> int)
    requires forall x :: f(x) == g(x) - h(x)
    ensures Sum(s, f) == Sum(s, g) - Sum(s, h)
  {
    if s != [] {
      SumDifference(s[..|s| - 1], f, g, h);
    }
  }

  /** Elements whose key differs from `k` contribute nothing to the per-key sum for `k`. */
  lemma {:induction false} SumKeyOfOthers<T, K>(s: seq<T>, key: T -> K, k: K, f: T -> int)
    requires forall i :: 0 <= i < |s| ==> key(s[i]) != k
    ensures SumKey(s, key, k, f) == 0
  {
    if s != [] {
      SumKeyOfOthers(s[..|s| - 1], key, k, f);
    }
  }

  /** A filter that no element passes keeps nothing. */
  lemma {:induction false} FilterNone<T>(s: seq<T>, p: T -> bool)
    requires forall i :: 0 <= i < |s| ==> !p(s[i])
    ensures Filter(s, p) == []
  {
    if s != [] {
      FilterNone(s[..|s| - 1], p);
    }
  }

  /** Filters whose predicates agree on every element keep the same elements. */
  lemma {:induction false} FilterCongruent<T>(s: seq<T>, p: T -> bool, q: T -> bool)
    requires forall i :: 0 <= i < |s| ==> p(s[i]) == q(s[i])
    ensures Filter(s, p) == Filter(s, q)
  {
    if s != [] {
      FilterCongruent(s[..|s| - 1], p, q);
    }
  }
}
