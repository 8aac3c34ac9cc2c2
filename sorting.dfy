/** A stable sort by a numeric key: what `Array.prototype.sort` computes for a
    comparator of the form `(a, b) => key(a) - key(b)`. */
module Sorting {
  import opened Base

  ghost predicate Ordered<T>(s: seq<T>, key: T -> real) {
    forall i, j :: 0 <= i < j < |s| ==> key(s[i]) <= key(s[j])
  }

  /** Places `x` after every element whose key is not larger than its own. */
  function Insert<T>(s: seq<T>, x: T, key: T -> real): (r: seq<T>)
    ensures |r| == |s| + 1
    ensures multiset(r) == multiset(s) + multiset{x}
  {
    if s == [] then [x]
    else if key(s[|s| - 1]) > key(x) then
      assert s == s[..|s| - 1] + [s[|s| - 1]];
      Insert(s[..|s| - 1], x, key) + [s[|s| - 1]]
    else s + [x]
  }

  function SortByKey<T>(s: seq<T>, key: T -> real): (r: seq<T>)
    ensures multiset(r) == multiset(s)
    ensures |r| == |s|
  {
    if s == [] then []
    else
      assert s == s[..|s| - 1] + [s[|s| - 1]];
      Insert(SortByKey(s[..|s| - 1], key), s[|s| - 1], key)
  }

  lemma {:induction false} InsertOrdered<T>(s: seq<T>, x: T, key: T -> real)
    requires Ordered(s, key)
    ensures Ordered(Insert(s, x, key), key)
  {
    if s != [] && key(s[|s| - 1]) > key(x) {
      var init, last := s[..|s| - 1], s[|s| - 1];
      InsertOrdered(init, x, key);
      var t := Insert(init, x, key);
      forall i | 0 <= i < |t| ensures key(t[i]) <= key(last) {
        assert t[i] in multiset(t);
        if t[i] != x {
          assert t[i] in multiset(init);
          var k :| 0 <= k < |init| && init[k] == t[i];
          assert init[k] == s[k];
        }
      }
    }
  }

  /** The sort returns its input reordered so that keys never decrease. */
  lemma {:induction false} SortOrdered<T>(s: seq<T>, key: T -> real)
    ensures Ordered(SortByKey(s, key), key)
    ensures multiset(SortByKey(s, key)) == multiset(s)
  {
    if s != [] {
      SortOrdered(s[..|s| - 1], key);
      InsertOrdered(SortByKey(s[..|s| - 1], key), s[|s| - 1], key);
    }
  }

  /** Inserting `x` keeps every class of equal keys in order: `x` lands after
      every element whose key equals its own. */
  lemma {:induction false} InsertKeepsEqualKeys<T(!new)>(s: seq<T>, x: T, key: T -> real, p: T -> bool, v: real)
    requires forall y :: p(y) ==> key(y) == v
    ensures Filter(Insert(s, x, key), p) == Filter(s, p) + Filter([x], p)
  {
    if s != [] {
      var init, last := s[..|s| - 1], s[|s| - 1];
      assert s == init + [last];
      FilterAppend(init, [last], p);
      if key(last) > key(x) {
        var t := Insert(init, x, key);
        assert Insert(s, x, key) == t + [last];
        InsertKeepsEqualKeys(init, x, key, p, v);
        FilterAppend(t, [last], p);
        SwapPast(Filter(init, p), x, last, p, v, key);
      } else {
        FilterAppend(s, [x], p);
      }
    }
  }

  /** An element with a larger key than `x` and `x` are never both picked out
      by `p`, so their filtered parts commute. */
  lemma SwapPast<T(!new)>(a: seq<T>, x: T, last: T, p: T -> bool, v: real, key: T -> real)
    requires forall y :: p(y) ==> key(y) == v
    requires key(last) > key(x)
    ensures a + Filter([x], p) + Filter([last], p) == a + Filter([last], p) + Filter([x], p)
  {
    FilterSingle(x, p);
    FilterSingle(last, p);
    if p(x) {
      assert !p(last);
      assert Filter([last], p) == [];
    } else {
      assert Filter([x], p) == [];
    }
  }

  lemma FilterSingle<T(!new)>(x: T, p: T -> bool)
    ensures Filter([x], p) == if p(x) then [x] else []
  {
    assert [x][1..] == [];
  }

  /** The sort is stable: the elements that `p` picks out all have the key
      `v`, and the sort keeps them in their input order. */
  lemma {:induction false} SortStable<T(!new)>(s: seq<T>, key: T -> real, p: T -> bool, v: real)
    requires forall y :: p(y) ==> key(y) == v
    ensures Filter(SortByKey(s, key), p) == Filter(s, p)
  {
    if s != [] {
      var init, last := s[..|s| - 1], s[|s| - 1];
      assert s == init + [last];
      SortStable(init, key, p, v);
      InsertKeepsEqualKeys(SortByKey(init, key), last, key, p, v);
      FilterAppend(init, [last], p);
    }
  }

  /** A sequence already in key order is left exactly as it is; in particular a
      comparator that always answers 0 keeps the original order. */
  lemma {:induction false} SortKeepsOrdered<T>(s: seq<T>, key: T -> real)
    requires Ordered(s, key)
    ensures SortByKey(s, key) == s
  {
    if s != [] {
      var init := s[..|s| - 1];
      assert Ordered(init, key);
      SortKeepsOrdered(init, key);
      assert s == init + [s[|s| - 1]];
    }
  }

  /** Any prefix of a sorted sequence is sorted. */
  lemma PrefixOrdered<T>(s: seq<T>, n: nat, key: T -> real)
    requires Ordered(s, key) && n <= |s|
    ensures Ordered(s[..n], key)
  {
  }
}
