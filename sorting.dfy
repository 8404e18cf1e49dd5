/** A stable sort by a real-valued key: the behaviour the engines rely on
    when they call `Array.prototype.sort` with a numeric comparator
    (`(a, b) => key(a) - key(b)` sorts ascending by `key`; a descending sort is an
    ascending sort by the negated key). */
module Sorting {

  /** Elements appear in non-decreasing order of `key`. */
  ghost predicate SortedBy<T>(s: seq<T>, key: T -> real)
  {
    forall i, j :: 0 <= i < j < |s| ==> key(s[i]) <= key(s[j])
  }

  /** Insert `x` after every element whose key is not larger than its own. */
  function Insert<T>(x: T, s: seq<T>, key: T -> real): (r: seq<T>)
    requires SortedBy(s, key)
    ensures |r| == |s| + 1
    ensures multiset(r) == multiset(s) + multiset{x}
    ensures SortedBy(r, key)
  {
    if s == [] then [x]
    else if key(x) < key(s[0]) then [x] + s
    else
      var rest := Insert(x, s[1..], key);
      assert s == [s[0]] + s[1..];
      forall i | 0 <= i < |rest|
        ensures key(s[0]) <= key(rest[i])
      {
        assert rest[i] in multiset(rest);
        if rest[i] != x {
          assert rest[i] in multiset(s[1..]);
          var j :| 0 <= j < |s[1..]| && s[1..][j] == rest[i];
          assert s[j + 1] == rest[i];
        }
      }
      [s[0]] + rest
  }

  /** Insertion sort, taking the elements from the left. */
  function SortBy<T>(s: seq<T>, key: T -> real): (r: seq<T>)
    ensures |r| == |s|
    ensures multiset(r) == multiset(s)
    ensures SortedBy(r, key)
  {
    if s == [] then []
    else
      var r := Insert(s[|s| - 1], SortBy(s[..|s| - 1], key), key);
      assert s == s[..|s| - 1] + [s[|s| - 1]];
      r
  }

  /** Sum of `f` over the elements, from the front. */
  function Total<T>(s: seq<T>, f: T -> real): real
  {
    if s == [] then 0.0 else f(s[0]) + Total(s[1..], f)
  }

  lemma {:induction false} TotalInsert<T>(x: T, s: seq<T>, key: T -> real, f: T -> real)
    requires SortedBy(s, key)
    ensures Total(Insert(x, s, key), f) == Total(s, f) + f(x)
  {
    if s != [] && key(x) >= key(s[0]) {
      TotalInsert(x, s[1..], key, f);
      var r := Insert(x, s, key);
      assert r[1..] == Insert(x, s[1..], key);
    }
  }

  lemma {:induction false} TotalSnoc<T>(s: seq<T>, x: T, f: T -> real)
    ensures Total(s + [x], f) == Total(s, f) + f(x)
  {
    if s != [] {
      assert (s + [x])[1..] == s[1..] + [x];
      TotalSnoc(s[1..], x, f);
    }
  }

  /** Sorting does not change any total over the elements. */
  lemma {:induction false} TotalSortBy<T>(s: seq<T>, key: T -> real, f: T -> real)
    ensures Total(SortBy(s, key), f) == Total(s, f)
  {
    if s != [] {
      var init, last := s[..|s| - 1], s[|s| - 1];
      var sortedInit := SortBy(init, key);
      assert SortBy(s, key) == Insert(last, sortedInit, key);
      TotalSortBy(init, key, f);
      TotalInsert(last, sortedInit, key, f);
      TotalSnoc(init, last, f);
      assert init + [last] == s;
    }
  }
}
