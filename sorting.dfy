/**
 * Ordering a sequence by an integer key, as a stable insertion sort: the
 * result is ordered by the key and holds the same elements.
 */
module Sorting {

  predicate SortedBy<T>(s: seq<T>, key: T -> int)
  {
    forall i, j :: 0 <= i < j < |s| ==> key(s[i]) <= key(s[j])
  }

  /** No two elements of `s` carry the same tag. */
  predicate DistinctBy<T, K(==)>(s: seq<T>, tag: T -> K)
  {
    forall i, j :: 0 <= i < j < |s| ==> tag(s[i]) != tag(s[j])
  }

  /** Inserts `x` before the first element whose key is not smaller. */
  function InsertBy<T>(s: seq<T>, x: T, key: T -> int): (r: seq<T>)
    ensures multiset(r) == multiset(s) + multiset{x}
    ensures SortedBy(s, key) ==> SortedBy(r, key)
  {
    if s == [] then [x]
    else if key(x) <= key(s[0]) then [x] + s
    else
      var rest := InsertBy(s[1..], x, key);
      assert s == [s[0]] + s[1..];
      assert SortedBy(s, key) ==> forall i :: 0 <= i < |rest| ==> key(s[0]) <= key(rest[i]) by {
        if SortedBy(s, key) {
          forall i | 0 <= i < |rest|
            ensures key(s[0]) <= key(rest[i])
          {
            assert rest[i] in multiset(s[1..]) + multiset{x};
            if rest[i] in s[1..] {
              var k :| 0 <= k < |s[1..]| && s[1..][k] == rest[i];
              assert s[k + 1] == rest[i];
            }
          }
        }
      }
      [s[0]] + rest
  }

  /** `s` ordered by `key`. */
  function SortBy<T>(s: seq<T>, key: T -> int): (r: seq<T>)
    ensures multiset(r) == multiset(s)
    ensures SortedBy(r, key)
  {
    if s == [] then []
    else
      assert s == s[..|s| - 1] + [s[|s| - 1]];
      InsertBy(SortBy(s[..|s| - 1], key), s[|s| - 1], key)
  }

  /** Inserting an element whose tag is new keeps the tags distinct. */
  lemma {:induction false} InsertByDistinct<T, K>(s: seq<T>, x: T, key: T -> int, tag: T -> K)
    requires DistinctBy(s, tag) && forall i :: 0 <= i < |s| ==> tag(s[i]) != tag(x)
    ensures DistinctBy(InsertBy(s, x, key), tag)
  {
    if s != [] && key(x) > key(s[0]) {
      InsertByDistinct(s[1..], x, key, tag);
      var rest := InsertBy(s[1..], x, key);
      forall i | 0 <= i < |rest|
        ensures tag(s[0]) != tag(rest[i])
      {
        assert rest[i] in multiset(s[1..]) + multiset{x};
        if rest[i] in s[1..] {
          var k :| 0 <= k < |s[1..]| && s[1..][k] == rest[i];
          assert s[k + 1] == rest[i];
        }
      }
    }
  }

  /** Sorting keeps distinct tags distinct. */
  lemma {:induction false} SortByDistinct<T, K>(s: seq<T>, key: T -> int, tag: T -> K)
    requires DistinctBy(s, tag)
    ensures DistinctBy(SortBy(s, key), tag)
  {
    if s != [] {
      var init, x := s[..|s| - 1], s[|s| - 1];
      SortByDistinct(init, key, tag);
      var sorted := SortBy(init, key);
      forall i | 0 <= i < |sorted|
        ensures tag(sorted[i]) != tag(x)
      {
        assert sorted[i] in multiset(init);
        var k :| 0 <= k < |init| && init[k] == sorted[i];
        assert s[k] == sorted[i];
      }
      InsertByDistinct(sorted, x, key, tag);
    }
  }
}
