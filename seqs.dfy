/** Generic sequence operations that the views build out of Array methods:
    `filter`, `map`, `reduce` for sums, a stable `sort`, `slice`, `findIndex`. */
module Seqs {

  /** `Array.prototype.filter`: the elements of `s` that satisfy `p`, in order. */
  function Filter<T>(s: seq<T>, p: T -> bool): (r: seq<T>)
    ensures |r| <= |s|
    ensures forall x :: x in r ==> x in s && p(x)
    ensures forall i :: 0 <= i < |s| && p(s[i]) ==> s[i] in r
  {
    if s == [] then [] else (if p(s[0]) then [s[0]] else []) + Filter(s[1..], p)
  }

  /** `Array.prototype.map`. */
  function MapSeq<T, U>(s: seq<T>, f: T -> U): (r: seq<U>)
    ensures |r| == |s|
    ensures forall i :: 0 <= i < |s| ==> r[i] == f(s[i])
  {
    seq(|s|, i requires 0 <= i < |s| => f(s[i]))
  }

  /** `reduce((sum, x) => sum + f(x), 0)`. */
  function SumBy<T>(s: seq<T>, f: T -> int): int
  {
    if s == [] then 0 else f(s[0]) + SumBy(s[1..], f)
  }

  /** `a` is an order-preserving subsequence of `b`. */
  ghost predicate IsSubsequence<T>(a: seq<T>, b: seq<T>)
  {
    if b == [] then a == []
    else (a != [] && a[0] == b[0] && IsSubsequence(a[1..], b[1..])) || IsSubsequence(a, b[1..])
  }

  /** The index of the first element satisfying `p`, or -1 (`findIndex`). */
  function FindIndex<T>(s: seq<T>, p: T -> bool): (r: int)
    ensures -1 <= r < |s|
    ensures r == -1 <==> forall i :: 0 <= i < |s| ==> !p(s[i])
    ensures r >= 0 ==> p(s[r]) && forall i :: 0 <= i < r ==> !p(s[i])
  {
    if s == [] then -1
    else if p(s[0]) then 0
    else var k := FindIndex(s[1..], p); if k == -1 then -1 else k + 1
  }

  /** `slice(-n)`: the last `n` elements, or all of them when there are fewer. */
  function TakeLast<T>(s: seq<T>, n: nat): (r: seq<T>)
    ensures |r| == if |s| < n then |s| else n
    ensures r == s[|s| - |r|..]
  {
    if |s| < n then s else s[|s| - n..]
  }

  /** `slice(0, n)`: the first `n` elements, or all of them when there are fewer. */
  function TakeFirst<T>(s: seq<T>, n: nat): (r: seq<T>)
    ensures |r| == if |s| < n then |s| else n
    ensures r == s[..|r|]
  {
    if |s| < n then s else s[..n]
  }

  lemma {:induction false} FilterAppend<T>(a: seq<T>, b: seq<T>, p: T -> bool)
    ensures Filter(a + b, p) == Filter(a, p) + Filter(b, p)
  {
    if a == [] {
      assert a + b == b;
    } else {
      assert (a + b)[1..] == a[1..] + b;
      FilterAppend(a[1..], b, p);
    }
  }

  /** A filter keeps the order of what it keeps. */
  lemma {:induction false} FilterIsSubsequence<T>(s: seq<T>, p: T -> bool)
    ensures IsSubsequence(Filter(s, p), s)
  {
    if s != [] {
      FilterIsSubsequence(s[1..], p);
      if p(s[0]) {
        assert Filter(s, p)[0] == s[0] && Filter(s, p)[1..] == Filter(s[1..], p);
      } else {
        assert Filter(s, p) == Filter(s[1..], p);
      }
    }
  }

  /** A filter whose predicate holds of every element returns its input. */
  lemma {:induction false} FilterAll<T>(s: seq<T>, p: T -> bool)
    requires forall i :: 0 <= i < |s| ==> p(s[i])
    ensures Filter(s, p) == s
  {
    if s != [] {
      FilterAll(s[1..], p);
    }
  }

  /** A filter whose predicate holds of no element returns nothing. */
  lemma {:induction false} FilterNone<T>(s: seq<T>, p: T -> bool)
    requires forall i :: 0 <= i < |s| ==> !p(s[i])
    ensures Filter(s, p) == []
  {
    if s != [] {
      FilterNone(s[1..], p);
    }
  }

  /** Two predicates that agree on the elements of `s` filter it alike. */
  lemma {:induction false} FilterCongruent<T>(s: seq<T>, p: T -> bool, q: T -> bool)
    requires forall i :: 0 <= i < |s| ==> p(s[i]) == q(s[i])
    ensures Filter(s, p) == Filter(s, q)
  {
    if s != [] {
      FilterCongruent(s[1..], p, q);
    }
  }

  lemma {:induction false} SumByAppend<T>(a: seq<T>, b: seq<T>, f: T -> int)
    ensures SumBy(a + b, f) == SumBy(a, f) + SumBy(b, f)
  {
    if a == [] {
      assert a + b == b;
    } else {
      assert (a + b)[1..] == a[1..] + b;
      SumByAppend(a[1..], b, f);
    }
  }

  /** Summing a filter over one more element adds that element when it passes. */
  lemma SumFilterSnoc<T>(s: seq<T>, x: T, p: T -> bool, f: T -> int)
    ensures SumBy(Filter(s + [x], p), f) == SumBy(Filter(s, p), f) + (if p(x) then f(x) else 0)
  {
    FilterAppend(s, [x], p);
    SumByAppend(Filter(s, p), Filter([x], p), f);
    assert Filter([x], p) == if p(x) then [x] else [];
  }

  lemma {:induction false} SumByNonNegative<T>(s: seq<T>, f: T -> int)
    requires forall i :: 0 <= i < |s| ==> f(s[i]) >= 0
    ensures SumBy(s, f) >= 0
  {
    if s != [] {
      SumByNonNegative(s[1..], f);
    }
  }

  // ---------------------------------------------------------------------------
  // Stable sort by an integer key, largest key first: `sort((a, b) => key(b) - key(a))`.
  // `Array.prototype.sort` is stable, so elements with equal keys keep their order.

  predicate SortedDesc<T>(s: seq<T>, key: T -> int)
  {
    forall i, j :: 0 <= i < j < |s| ==> key(s[i]) >= key(s[j])
  }

  /** Places `x` after every element of `s` whose key is at least `key(x)`. */
  function InsertByKey<T>(s: seq<T>, x: T, key: T -> int): (r: seq<T>)
    ensures |r| == |s| + 1
    ensures multiset(r) == multiset(s) + multiset{x}
  {
    if s == [] || key(s[|s| - 1]) >= key(x) then s + [x]
    else
      assert s == s[..|s| - 1] + [s[|s| - 1]];
      InsertByKey(s[..|s| - 1], x, key) + [s[|s| - 1]]
  }

  /** Insertion sort, left to right, of `s` by descending key. */
  function SortDesc<T>(s: seq<T>, key: T -> int): (r: seq<T>)
    ensures |r| == |s|
    ensures multiset(r) == multiset(s)
  {
    if s == [] then []
    else
      assert s == s[..|s| - 1] + [s[|s| - 1]];
      InsertByKey(SortDesc(s[..|s| - 1], key), s[|s| - 1], key)
  }

  /** Sorting one more element inserts it into the sorted prefix. */
  lemma SortDescSnoc<T>(s: seq<T>, i: nat, key: T -> int)
    requires i < |s|
    ensures SortDesc(s[..i + 1], key) == InsertByKey(SortDesc(s[..i], key), s[i], key)
  {
    assert s[..i + 1][..i] == s[..i];
  }

  /** Concatenation is associative. */
  lemma SeqAssoc<T>(a: seq<T>, b: seq<T>, c: seq<T>)
    ensures (a + b) + c == a + (b + c)
  {
  }

  /** A suffix of a non-empty sequence is the suffix of its front and the last element. */
  lemma SliceSnoc<T>(t: seq<T>, j: nat)
    requires j < |t|
    ensures t[j..] == t[..|t| - 1][j..] + [t[|t| - 1]]
  {
  }

  /** `x` lands at `j` when the elements from `j` on have smaller keys and the one
      before `j`, if any, does not. */
  lemma {:induction false} InsertByKeySplit<T>(t: seq<T>, x: T, key: T -> int, j: nat)
    requires j <= |t|
    requires j == 0 || key(t[j - 1]) >= key(x)
    requires forall k :: j <= k < |t| ==> key(t[k]) < key(x)
    ensures InsertByKey(t, x, key) == t[..j] + [x] + t[j..]
    decreases |t| - j
  {
    if j == |t| {
      assert t[..j] == t;
    } else {
      var init := t[..|t| - 1];
      var last := t[|t| - 1];
      assert key(last) < key(x);
      assert InsertByKey(t, x, key) == InsertByKey(init, x, key) + [last];
      assert init[..j] == t[..j];
      assert j > 0 ==> init[j - 1] == t[j - 1];
      InsertByKeySplit(init, x, key, j);
      SliceSnoc(t, j);
      calc {
        InsertByKey(t, x, key);
        InsertByKey(init, x, key) + [last];
        (init[..j] + [x] + init[j..]) + [last];
        { SeqAssoc(init[..j] + [x], init[j..], [last]); }
        (init[..j] + [x]) + (init[j..] + [last]);
        t[..j] + [x] + t[j..];
      }
    }
  }

  /** Sorting keeps exactly the elements it was given. */
  lemma SortDescSameElements<T>(s: seq<T>, key: T -> int)
    ensures forall x :: x in SortDesc(s, key) <==> x in s
  {
    var r := SortDesc(s, key);
    forall x ensures x in r <==> x in s {
      assert x in r <==> x in multiset(r);
      assert x in s <==> x in multiset(s);
    }
  }

  lemma {:induction false} InsertByKeySorted<T>(s: seq<T>, x: T, key: T -> int)
    requires SortedDesc(s, key)
    ensures SortedDesc(InsertByKey(s, x, key), key)
  {
    if s == [] || key(s[|s| - 1]) >= key(x) {
    } else {
      var init := s[..|s| - 1];
      InsertByKeySorted(init, x, key);
      var r := InsertByKey(init, x, key);
      // every element of r is init's or x, and all of them have key >= the last one
      forall i | 0 <= i < |r| ensures key(r[i]) >= key(s[|s| - 1]) {
        assert r[i] in multiset(r);
        assert r[i] in multiset(init) || r[i] == x;
        if r[i] != x {
          assert r[i] in init;
        }
      }
    }
  }

  /** The sort result is ordered by descending key. */
  lemma {:induction false} SortDescSorted<T>(s: seq<T>, key: T -> int)
    ensures SortedDesc(SortDesc(s, key), key)
  {
    if s != [] {
      SortDescSorted(s[..|s| - 1], key);
      InsertByKeySorted(SortDesc(s[..|s| - 1], key), s[|s| - 1], key);
    }
  }

  /** The elements of `s` whose key is `k`, in order. */
  function WithKey<T>(s: seq<T>, key: T -> int, k: int): seq<T>
  {
    if s == [] then []
    else WithKey(s[..|s| - 1], key, k) + (if key(s[|s| - 1]) == k then [s[|s| - 1]] else [])
  }

  lemma {:induction false} WithKeyAppend<T>(a: seq<T>, b: seq<T>, key: T -> int, k: int)
    ensures WithKey(a + b, key, k) == WithKey(a, key, k) + WithKey(b, key, k)
  {
    if b == [] {
      assert a + b == a;
    } else {
      assert (a + b)[..|a + b| - 1] == a + b[..|b| - 1];
      WithKeyAppend(a, b[..|b| - 1], key, k);
    }
  }

  lemma WithKeySingleton<T>(x: T, key: T -> int, k: int)
    ensures WithKey([x], key, k) == if key(x) == k then [x] else []
  {
    assert [x][..0] == [];
  }

  lemma {:induction false} InsertByKeyStable<T>(s: seq<T>, x: T, key: T -> int, k: int)
    ensures WithKey(InsertByKey(s, x, key), key, k)
         == WithKey(s, key, k) + WithKey([x], key, k)
  {
    if s == [] || key(s[|s| - 1]) >= key(x) {
      WithKeyAppend(s, [x], key, k);
    } else {
      var init, last := s[..|s| - 1], s[|s| - 1];
      var ins := InsertByKey(init, x, key);
      assert s == init + [last];
      InsertByKeyStable(init, x, key, k);
      WithKeyAppend(ins, [last], key, k);
      WithKeyAppend(init, [last], key, k);
      WithKeySingleton(x, key, k);
      WithKeySingleton(last, key, k);
      assert InsertByKey(s, x, key) == ins + [last];
      var wi, wx, wl := WithKey(init, key, k), WithKey([x], key, k), WithKey([last], key, k);
      assert wx == [] || wl == [];
      SwapEmpty(wi, wx, wl);
    }
  }

  lemma SwapEmpty<T>(a: seq<T>, b: seq<T>, c: seq<T>)
    requires b == [] || c == []
    ensures a + b + c == a + c + b
  {
    if b == [] {
      assert a + b == a && a + c + b == a + c;
    } else {
      assert a + c == a && a + b + c == a + b;
    }
  }

  /** Stability: for every key, the elements with that key keep their relative order. */
  lemma {:induction false} SortDescStable<T>(s: seq<T>, key: T -> int, k: int)
    ensures WithKey(SortDesc(s, key), key, k) == WithKey(s, key, k)
  {
    if s != [] {
      var init, last := s[..|s| - 1], s[|s| - 1];
      SortDescStable(init, key, k);
      InsertByKeyStable(SortDesc(init, key), last, key, k);
      assert s == init + [last];
      WithKeyAppend(init, [last], key, k);
    }
  }

  /** The first `n` of a sort are a sorted selection of the input. */
  lemma TopSorted<T>(s: seq<T>, key: T -> int, n: nat)
    ensures SortedDesc(TakeFirst(SortDesc(s, key), n), key)
    ensures forall y :: y in TakeFirst(SortDesc(s, key), n) ==> y in s
  {
    var sorted := SortDesc(s, key);
    SortDescSorted(s, key);
    SortDescSameElements(s, key);
    var top := TakeFirst(sorted, n);
    assert top == sorted[..|top|];
    forall i, j | 0 <= i < j < |top| ensures key(top[i]) >= key(top[j]) {
      assert top[i] == sorted[i] && top[j] == sorted[j];
    }
  }

  /** An element left out of the first `n` of a sort has a key no larger than any
      element kept. */
  lemma TopLeftOut<T>(s: seq<T>, key: T -> int, n: nat, x: T)
    requires x in s
    ensures x in TakeFirst(SortDesc(s, key), n) || forall y :: y in TakeFirst(SortDesc(s, key), n) ==> key(y) >= key(x)
  {
    var sorted := SortDesc(s, key);
    SortDescSorted(s, key);
    SortDescSameElements(s, key);
    var top := TakeFirst(sorted, n);
    assert top == sorted[..|top|];
    var i :| 0 <= i < |sorted| && sorted[i] == x;
    if i < |top| {
      assert top[i] == x;
    } else {
      forall y | y in top ensures key(y) >= key(x) {
        var j :| 0 <= j < |top| && top[j] == y;
        assert sorted[j] == y;
      }
    }
  }

  /** In a sequence sorted by descending key, an element with a strictly larger key
      than the one at position `j` comes before `j`. */
  lemma SortedDescLargerBefore<T>(s: seq<T>, key: T -> int, i: int, j: int)
    requires SortedDesc(s, key) && 0 <= i < |s| && 0 <= j < |s|
    requires key(s[i]) > key(s[j])
    ensures i < j
  {
  }

  // ---------------------------------------------------------------------------
  // Distinct elements

  ghost predicate Distinct<T>(s: seq<T>)
  {
    forall i, j :: 0 <= i < j < |s| ==> s[i] != s[j]
  }

  lemma {:induction false} DistinctCount<T>(s: seq<T>, x: T)
    requires Distinct(s)
    ensures multiset(s)[x] <= 1
  {
    if s != [] {
      assert s == [s[0]] + s[1..];
      DistinctCount(s[1..], x);
      if x == s[0] {
        assert x !in s[1..];
      }
    }
  }

  /** A rearrangement of distinct elements has distinct elements. */
  lemma PermutationDistinct<T>(a: seq<T>, b: seq<T>)
    requires multiset(a) == multiset(b) && Distinct(a)
    ensures Distinct(b)
  {
    forall i, j | 0 <= i < j < |b| ensures b[i] != b[j] {
      if b[i] == b[j] {
        var x := b[i];
        assert b == b[..j] + b[j..];
        assert x in b[..j];
        assert x in b[j..];
        assert multiset(b)[x] == multiset(b[..j])[x] + multiset(b[j..])[x];
        DistinctCount(a, x);
        assert false;
      }
    }
  }
}
