/**
 * `Array.prototype.sort` with a numeric comparator `(a, b) => key(a) - key(b)`, as the
 * display code uses it. Since ECMAScript 2019 the sort is required to be stable, so the model
 * is a stable insertion sort: the result is ordered by key, is a permutation of the input, and
 * keeps the input order among elements with equal keys.
 */
module Sorting {
  import opened Seqs

  ghost predicate SortedBy<T>(s: seq<T>, key: T -> int) {
    forall i, j :: 0 <= i < j < |s| ==> key(s[i]) <= key(s[j])
  }

  /** Puts `x` in front of the first element whose key is not smaller. */
  function Insert<T>(x: T, s: seq<T>, key: T -> int): (r: seq<T>)
    ensures |r| == |s| + 1
    ensures multiset(r) == multiset(s) + multiset{x}
    ensures r[0] == x || (|s| > 0 && r[0] == s[0])
  {
    if |s| == 0 || key(x) <= key(s[0]) then [x] + s
    else
      assert s == [s[0]] + s[1..];
      [s[0]] + Insert(x, s[1..], key)
  }

  lemma SortedCons<T>(x: T, s: seq<T>, key: T -> int)
    requires SortedBy(s, key)
    requires forall i :: 0 <= i < |s| ==> key(x) <= key(s[i])
    ensures SortedBy([x] + s, key)
  {
    var r := [x] + s;
    forall i, j | 0 <= i < j < |r| ensures key(r[i]) <= key(r[j]) {
      assert r[j] == s[j - 1];
      if i > 0 {
        assert r[i] == s[i - 1];
      }
    }
  }

  /** Every element of `Insert(x, s, key)` is `x` or an element of `s`. */
  lemma InsertMember<T>(x: T, s: seq<T>, key: T -> int, i: int)
    requires 0 <= i < |Insert(x, s, key)|
    ensures Insert(x, s, key)[i] == x || Insert(x, s, key)[i] in s
  {
    var y := Insert(x, s, key)[i];
    assert y in multiset(Insert(x, s, key));
  }

  lemma {:induction false} InsertSorted<T>(x: T, s: seq<T>, key: T -> int)
    requires SortedBy(s, key)
    ensures SortedBy(Insert(x, s, key), key)
  {
    if |s| > 0 && key(x) > key(s[0]) {
      var tail := Insert(x, s[1..], key);
      InsertSorted(x, s[1..], key);
      forall i | 0 <= i < |tail| ensures key(s[0]) <= key(tail[i]) {
        InsertMember(x, s[1..], key, i);
      }
      SortedCons(s[0], tail, key);
    } else {
      SortedCons(x, s, key);
    }
  }

  function SortBy<T>(s: seq<T>, key: T -> int): (r: seq<T>)
    ensures |r| == |s|
    ensures multiset(r) == multiset(s)
    ensures SortedBy(r, key)
  {
    if |s| == 0 then []
    else
      assert s == [s[0]] + s[1..];
      var rest := SortBy(s[1..], key);
      InsertSorted(s[0], rest, key);
      Insert(s[0], rest, key)
  }

  /** The predicate "has key `k`", as one function value, so that stability can be stated per key. */
  function HasKey<T>(key: T -> int, k: int): T -> bool {
    x => key(x) == k
  }

  lemma HasKeyApply<T>(key: T -> int, k: int, y: T)
    ensures HasKey(key, k)(y) == (key(y) == k)
  {
  }

  lemma {:induction false} InsertStable<T>(x: T, s: seq<T>, key: T -> int, k: int)
    ensures Filter(Insert(x, s, key), HasKey(key, k)) == Filter([x], HasKey(key, k)) + Filter(s, HasKey(key, k))
  {
    if |s| == 0 || key(x) <= key(s[0]) {
      assert Insert(x, s, key) == [x] + s;
      FilterConcat([x], s, HasKey(key, k));
    } else {
      InsertStable(x, s[1..], key, k);
      InsertPast(x, s, key, k);
    }
  }

  lemma InsertPast<T>(x: T, s: seq<T>, key: T -> int, k: int)
    requires |s| > 0 && key(x) > key(s[0])
    requires Filter(Insert(x, s[1..], key), HasKey(key, k)) == Filter([x], HasKey(key, k)) + Filter(s[1..], HasKey(key, k))
    ensures Filter(Insert(x, s, key), HasKey(key, k)) == Filter([x], HasKey(key, k)) + Filter(s, HasKey(key, k))
  {
    assert Insert(x, s, key) == [s[0]] + Insert(x, s[1..], key);
    PastHead(x, s[0], Insert(x, s[1..], key), s[1..], key, k);
    ConsSplit(s);
  }

  /** When `x` goes past a head `h` with a smaller key, the two do not share a key, so their relative order does not show. */
  lemma PastHead<T>(x: T, h: T, ins: seq<T>, tl: seq<T>, key: T -> int, k: int)
    requires key(x) > key(h)
    requires Filter(ins, HasKey(key, k)) == Filter([x], HasKey(key, k)) + Filter(tl, HasKey(key, k))
    ensures Filter([h] + ins, HasKey(key, k)) == Filter([x], HasKey(key, k)) + Filter([h] + tl, HasKey(key, k))
  {
    var p := HasKey(key, k);
    var a := Filter([h], p);
    var b := Filter([x], p);
    FilterConcat([h], ins, p);
    FilterConcat([h], tl, p);
    assert a == [] || b == [] by {
      HasKeyApply(key, k, x);
      HasKeyApply(key, k, h);
      FilterSingle(x, p);
      FilterSingle(h, p);
    }
    if a == [] {
      assert a + Filter(ins, p) == Filter(ins, p);
      assert a + Filter(tl, p) == Filter(tl, p);
    } else {
      assert b + (a + Filter(tl, p)) == a + Filter(tl, p);
      assert Filter(ins, p) == Filter(tl, p);
    }
  }

  lemma ConsFilter<T>(s: seq<T>, p: T -> bool)
    requires |s| > 0
    ensures Filter(s, p) == Filter([s[0]], p) + Filter(s[1..], p)
  {
    FilterSingle(s[0], p);
  }

  /** Stability: among the elements with any one key, the sorted order is the input order. */
  lemma {:induction false} SortByStable<T>(s: seq<T>, key: T -> int, k: int)
    ensures Filter(SortBy(s, key), HasKey(key, k)) == Filter(s, HasKey(key, k))
  {
    if |s| > 0 {
      SortByStable(s[1..], key, k);
      InsertStable(s[0], SortBy(s[1..], key), key, k);
      ConsFilter(s, HasKey(key, k));
    }
  }

  /** A subsequence chosen by `Filter` of a sorted sequence is sorted. */
  lemma {:induction false} FilterSorted<T>(s: seq<T>, p: T -> bool, key: T -> int)
    requires SortedBy(s, key)
    ensures SortedBy(Filter(s, p), key)
  {
    if |s| > 0 {
      FilterSorted(s[1..], p, key);
      var rest := Filter(s[1..], p);
      forall y | y in rest ensures key(s[0]) <= key(y) {
        FilterMembership(s[1..], p, y);
        var j :| 0 <= j < |s[1..]| && s[1..][j] == y;
        assert s[j + 1] == y;
      }
    }
  }
}
