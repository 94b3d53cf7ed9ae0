/**
 * The array operations the source uses on collections, as functions on sequences:
 * `filter` keeps the elements that satisfy a predicate, in order; `map` transforms
 * element by element; `slice(0, n)` keeps a prefix.
 */
module Seqs {

  function Filter<T>(s: seq<T>, p: T -> bool): (r: seq<T>)
    ensures |r| <= |s|
  {
    if |s| == 0 then [] else (if p(s[0]) then [s[0]] else []) + Filter(s[1..], p)
  }

  function Map<A, B>(s: seq<A>, f: A -> B): (r: seq<B>)
    ensures |r| == |s|
    ensures forall i :: 0 <= i < |s| ==> r[i] == f(s[i])
  {
    seq(|s|, i requires 0 <= i < |s| => f(s[i]))
  }

  /** `slice(0, n)`: at most `n` elements, taken from the front. */
  function Take<T>(s: seq<T>, n: nat): (r: seq<T>)
    ensures |r| <= n && |r| <= |s|
    ensures r == s[..|r|]
    ensures |s| <= n ==> r == s
  {
    if |s| <= n then s else s[..n]
  }

  /** Under a one-to-one `f`, `f(x)` is mapped exactly when `x` was there. */
  lemma MapMembership<A, B>(s: seq<A>, f: A -> B, x: A)
    requires forall a, b :: f(a) == f(b) ==> a == b
    ensures f(x) in Map(s, f) <==> x in s
  {
    var m := Map(s, f);
    if f(x) in m {
      var i :| 0 <= i < |m| && m[i] == f(x);
      assert s[i] == x;
    }
    if x in s {
      var i :| 0 <= i < |s| && s[i] == x;
      assert m[i] == f(x);
    }
  }

  /** Mapping an appended element appends its image. */
  lemma MapSnoc<A, B>(s: seq<A>, f: A -> B, x: A)
    ensures Map(s + [x], f) == Map(s, f) + [f(x)]
  {
    assert forall i :: 0 <= i < |s| ==> Map(s + [x], f)[i] == (Map(s, f) + [f(x)])[i];
  }

  /** The element at offset `i` past a prefix is the image of the `i`-th element mapped after it. */
  lemma MapAfter<A, B>(front: seq<B>, s: seq<A>, f: A -> B, i: int)
    requires 0 <= i < |s|
    ensures (front + Map(s, f))[|front| + i] == f(s[i])
  {
  }

  lemma ConsSplit<T>(s: seq<T>)
    requires |s| > 0
    ensures [s[0]] + s[1..] == s
  {
  }

  lemma FilterSingle<T>(y: T, p: T -> bool)
    ensures Filter([y], p) == if p(y) then [y] else []
  {
    assert [y][1..] == [];
  }

  ghost predicate All<T>(s: seq<T>, p: T -> bool) {
    forall i :: 0 <= i < |s| ==> p(s[i])
  }

  /** Filtering distributes over concatenation, so the order of the kept elements is the input order. */
  lemma {:induction false} FilterConcat<T>(a: seq<T>, b: seq<T>, p: T -> bool)
    ensures Filter(a + b, p) == Filter(a, p) + Filter(b, p)
  {
    if |a| > 0 {
      assert (a + b)[1..] == a[1..] + b;
      FilterConcat(a[1..], b, p);
    } else {
      assert a + b == b;
    }
  }

  /** An element is kept exactly when it is in the input and satisfies the predicate. */
  lemma {:induction false} FilterMembership<T>(s: seq<T>, p: T -> bool, x: T)
    ensures x in Filter(s, p) <==> x in s && p(x)
  {
    if |s| > 0 {
      FilterMembership(s[1..], p, x);
      assert s == [s[0]] + s[1..];
    }
  }

  /** Each element occurs as often as in the input when it satisfies the predicate, and never otherwise. */
  lemma {:induction false} FilterMultiset<T>(s: seq<T>, p: T -> bool, x: T)
    ensures multiset(Filter(s, p))[x] == if p(x) then multiset(s)[x] else 0
  {
    if |s| > 0 {
      FilterMultiset(s[1..], p, x);
      assert s == [s[0]] + s[1..];
    }
  }

  /** Filtering twice by the same predicate keeps the same elements as filtering once. */
  lemma {:induction false} FilterIdempotent<T>(s: seq<T>, p: T -> bool)
    ensures Filter(Filter(s, p), p) == Filter(s, p)
  {
    if |s| > 0 {
      FilterIdempotent(s[1..], p);
      if p(s[0]) {
        assert Filter(s, p) == [s[0]] + Filter(s[1..], p);
        var f := Filter(s, p);
        assert f[0] == s[0] && f[1..] == Filter(s[1..], p);
        assert Filter(f, p) == [s[0]] + Filter(f[1..], p);
      } else {
        assert Filter(s, p) == Filter(s[1..], p);
      }
    }
  }

  /** A filter that keeps every element is the identity. */
  lemma {:induction false} FilterAll<T>(s: seq<T>, p: T -> bool)
    requires All(s, p)
    ensures Filter(s, p) == s
  {
    if |s| > 0 {
      FilterAll(s[1..], p);
    }
  }

  /** How many elements of `s` satisfy `p`. */
  function CountIf<T>(s: seq<T>, p: T -> bool): (n: nat)
    ensures n <= |s|
  {
    if |s| == 0 then 0 else (if p(s[0]) then 1 else 0) + CountIf(s[1..], p)
  }

  /** The filter keeps exactly the counted elements. */
  lemma {:induction false} FilterLength<T>(s: seq<T>, p: T -> bool)
    ensures |Filter(s, p)| == CountIf(s, p)
  {
    if |s| > 0 {
      FilterLength(s[1..], p);
    }
  }

  /** Every element but the one at `k` satisfies `p`: the count is one short of the length. */
  lemma {:induction false} CountIfAllBut<T>(s: seq<T>, p: T -> bool, k: int)
    requires 0 <= k < |s| && !p(s[k])
    requires forall i :: 0 <= i < |s| && i != k ==> p(s[i])
    ensures CountIf(s, p) == |s| - 1
  {
    if k == 0 {
      CountIfAll(s[1..], p);
    } else {
      CountIfAllBut(s[1..], p, k - 1);
    }
  }

  lemma {:induction false} CountIfAll<T>(s: seq<T>, p: T -> bool)
    requires forall i :: 0 <= i < |s| ==> p(s[i])
    ensures CountIf(s, p) == |s|
  {
    if |s| > 0 {
      CountIfAll(s[1..], p);
    }
  }
}
