/** `Array.prototype.sort` with a comparator: a stable sort, as ECMA-262 requires from its
    2019 edition on. A comparator result greater than zero puts its first argument after
    its second; a NaN result counts as zero, which callers fold into the comparator. */
module StableSort {
  import opened Basics

  /** Inserts `x` after the sorted `s`, moving it left past every element the comparator
      puts after it, and past no other. */
  function Insert<T>(cmp: (T, T) -> int, s: seq<T>, x: T): seq<T>
    decreases |s|
  {
    if s == [] then [x]
    else if cmp(s[|s| - 1], x) > 0 then Insert(cmp, s[..|s| - 1], x) + [s[|s| - 1]]
    else s + [x]
  }

  /** The sorted sequence: each element in turn inserted after those before it. */
  function Sort<T>(cmp: (T, T) -> int, s: seq<T>): seq<T>
    decreases |s|
  {
    if s == [] then [] else Insert(cmp, Sort(cmp, s[..|s| - 1]), s[|s| - 1])
  }

  /** Sorts `a` in place by insertion, scanning each new element leftwards. */
  method SortInPlace<T>(a: array<T>, cmp: (T, T) -> int)
    modifies a
    ensures a[..] == Sort(cmp, old(a[..]))
  {
    ghost var input := a[..];
    var i := 0;
    while i < a.Length
      invariant 0 <= i <= a.Length
      invariant a[..i] == Sort(cmp, input[..i])
      invariant a[i..] == input[i..]
    {
      SortStep(cmp, input, i);
      InsertInPlace(a, i, cmp);
      i := i + 1;
    }
    assert input[..a.Length] == input;
  }

  /** Moves `a[i]` left into the sorted `a[..i]`, shifting the elements it passes. */
  method InsertInPlace<T>(a: array<T>, i: nat, cmp: (T, T) -> int)
    requires i < a.Length
    modifies a
    ensures a[..i + 1] == Insert(cmp, old(a[..i]), old(a[i]))
    ensures forall k :: i < k < a.Length ==> a[k] == old(a[k])
  {
    ghost var sorted := a[..i];
    var x := a[i];
    var j := i;
    while j > 0 && cmp(a[j - 1], x) > 0
      invariant 0 <= j <= i
      invariant forall k :: 0 <= k < j ==> a[k] == sorted[k]
      invariant forall k :: j < k <= i ==> a[k] == sorted[k - 1]
      invariant forall k :: i < k < a.Length ==> a[k] == old(a[k])
      invariant forall k :: j <= k < i ==> cmp(sorted[k], x) > 0
    {
      a[j] := a[j - 1];
      j := j - 1;
    }
    a[j] := x;
    InsertAt(cmp, sorted, j, x);
    Shifted(a[..i + 1], sorted, j, x);
  }

  /** A sequence that agrees with `s[..j] + [x] + s[j..]` at every index is that sequence. */
  lemma Shifted<T>(b: seq<T>, s: seq<T>, j: nat, x: T)
    requires j <= |s| && |b| == |s| + 1 && b[j] == x
    requires forall k :: 0 <= k < j ==> b[k] == s[k]
    requires forall k :: j < k < |b| ==> b[k] == s[k - 1]
    ensures b == s[..j] + [x] + s[j..]
  {
  }

  lemma SortStep<T>(cmp: (T, T) -> int, s: seq<T>, i: nat)
    requires i < |s|
    ensures Sort(cmp, s[..i + 1]) == Insert(cmp, Sort(cmp, s[..i]), s[i])
  {
    assert s[..i + 1][..i] == s[..i];
  }

  /** Where the insertion puts `x`: after the last element the comparator does not put
      after it, ahead of all those it does. */
  lemma {:induction false} InsertAt<T>(cmp: (T, T) -> int, s: seq<T>, j: nat, x: T)
    requires j <= |s| && (j == 0 || cmp(s[j - 1], x) <= 0)
    requires forall k :: j <= k < |s| ==> cmp(s[k], x) > 0
    ensures Insert(cmp, s, x) == s[..j] + [x] + s[j..]
    decreases |s|
  {
    if |s| > j {
      var init := s[..|s| - 1];
      InsertAt(cmp, init, j, x);
      assert init[..j] == s[..j] && init[j..] + [s[|s| - 1]] == s[j..];
    } else {
      assert s[..j] == s;
    }
  }

  // ----- permutation -----

  lemma {:induction false} InsertPermutation<T>(cmp: (T, T) -> int, s: seq<T>, x: T)
    ensures multiset(Insert(cmp, s, x)) == multiset(s) + multiset{x}
    decreases |s|
  {
    if s != [] && cmp(s[|s| - 1], x) > 0 {
      InsertPermutation(cmp, s[..|s| - 1], x);
      assert s == s[..|s| - 1] + [s[|s| - 1]];
    }
  }

  /** Sorting keeps every element, as often as it occurs, and adds none. */
  lemma {:induction false} SortPermutation<T>(cmp: (T, T) -> int, s: seq<T>)
    ensures multiset(Sort(cmp, s)) == multiset(s)
    decreases |s|
  {
    if s != [] {
      var init, x := s[..|s| - 1], s[|s| - 1];
      SortPermutation(cmp, init);
      InsertPermutation(cmp, Sort(cmp, init), x);
      assert Sort(cmp, s) == Insert(cmp, Sort(cmp, init), x);
      assert s == init + [x];
      assert multiset(s) == multiset(init) + multiset{x};
    }
  }

  lemma SortMembers<T>(cmp: (T, T) -> int, s: seq<T>, k: nat)
    requires k < |Sort(cmp, s)|
    ensures Sort(cmp, s)[k] in s
  {
    SortPermutation(cmp, s);
    assert Sort(cmp, s)[k] in multiset(s);
  }

  // ----- order by a key the comparator respects -----

  /** `key` never increases along `s`. */
  predicate KeyDescending<T>(key: T -> int, s: seq<T>)
  {
    forall i, j :: 0 <= i < j < |s| ==> key(s[i]) >= key(s[j])
  }

  /** The comparator sorts by descending `key` first: a larger key is always put first,
      and an element is only put after one whose key is not smaller. */
  ghost predicate RespectsKey<T(!new)>(cmp: (T, T) -> int, key: T -> int)
  {
    forall a, b :: (key(a) < key(b) ==> cmp(a, b) > 0) && (cmp(a, b) > 0 ==> key(a) <= key(b))
  }

  lemma {:induction false} InsertKeyDescending<T(!new)>(cmp: (T, T) -> int, key: T -> int, s: seq<T>, x: T)
    requires RespectsKey(cmp, key) && KeyDescending(key, s)
    ensures KeyDescending(key, Insert(cmp, s, x))
    decreases |s|
  {
    if s != [] {
      var init, last := s[..|s| - 1], s[|s| - 1];
      if cmp(last, x) > 0 {
        InsertKeyDescending(cmp, key, init, x);
        InsertPermutation(cmp, init, x);
        var r := Insert(cmp, init, x);
        forall k | 0 <= k < |r|
          ensures key(r[k]) >= key(last)
        {
          assert r[k] in multiset(init) + multiset{x};
          if r[k] != x {
            var m :| 0 <= m < |init| && init[m] == r[k];
          }
        }
      }
    }
  }

  /** A comparator that sorts by a key first yields a result ordered by that key, whatever
      it does among elements of equal key. */
  lemma {:induction false} SortKeyDescending<T(!new)>(cmp: (T, T) -> int, key: T -> int, s: seq<T>)
    requires RespectsKey(cmp, key)
    ensures KeyDescending(key, Sort(cmp, s))
    decreases |s|
  {
    if s != [] {
      SortKeyDescending(cmp, key, s[..|s| - 1]);
      InsertKeyDescending(cmp, key, Sort(cmp, s[..|s| - 1]), s[|s| - 1]);
    }
  }

  // ----- order by a consistent comparator -----

  /** No element is put after a later one by the comparator. */
  predicate Ordered<T>(cmp: (T, T) -> int, s: seq<T>)
  {
    forall i, j :: 0 <= i < j < |s| ==> cmp(s[i], s[j]) <= 0
  }

  /** ECMA-262's consistent comparator, on the elements of `s`: swapping the arguments
      negates the result, and "not after" is transitive. */
  ghost predicate Consistent<T(!new)>(cmp: (T, T) -> int, s: seq<T>)
  {
    && (forall a, b :: a in s && b in s ==> cmp(a, b) == -cmp(b, a))
    && (forall a, b, c :: a in s && b in s && c in s && cmp(a, b) <= 0 && cmp(b, c) <= 0 ==> cmp(a, c) <= 0)
  }

  lemma ConsistentPrefix<T(!new)>(cmp: (T, T) -> int, s: seq<T>, n: nat)
    requires n <= |s| && Consistent(cmp, s)
    ensures Consistent(cmp, s[..n])
  {
    assert forall a :: a in s[..n] ==> a in s;
  }

  lemma {:induction false} InsertOrdered<T(!new)>(cmp: (T, T) -> int, s: seq<T>, x: T, all: seq<T>)
    requires Ordered(cmp, s) && Consistent(cmp, all)
    requires x in all && forall k :: 0 <= k < |s| ==> s[k] in all
    ensures Ordered(cmp, Insert(cmp, s, x))
    decreases |s|
  {
    if s != [] {
      var init, last := s[..|s| - 1], s[|s| - 1];
      if cmp(last, x) > 0 {
        InsertOrdered(cmp, init, x, all);
        InsertPassedOrdered(cmp, init, last, x, all);
      } else {
        AppendOrdered(cmp, s, x, all);
      }
    }
  }

  lemma InsertPassedOrdered<T(!new)>(cmp: (T, T) -> int, init: seq<T>, last: T, x: T, all: seq<T>)
    requires Ordered(cmp, init + [last]) && Consistent(cmp, all) && x in all && last in all
    requires cmp(last, x) > 0 && Ordered(cmp, Insert(cmp, init, x))
    ensures Ordered(cmp, Insert(cmp, init, x) + [last])
  {
    InsertPermutation(cmp, init, x);
    var r := Insert(cmp, init, x);
    forall k | 0 <= k < |r|
      ensures cmp(r[k], last) <= 0
    {
      assert r[k] in multiset(init) + multiset{x};
      if r[k] != x {
        var m :| 0 <= m < |init| && init[m] == r[k];
        assert (init + [last])[m] == r[k] && (init + [last])[|init|] == last;
      }
    }
  }

  lemma AppendOrdered<T(!new)>(cmp: (T, T) -> int, s: seq<T>, x: T, all: seq<T>)
    requires s != [] && Ordered(cmp, s) && Consistent(cmp, all)
    requires x in all && forall k :: 0 <= k < |s| ==> s[k] in all
    requires cmp(s[|s| - 1], x) <= 0
    ensures Ordered(cmp, s + [x])
  {
    forall k | 0 <= k < |s| - 1
      ensures cmp(s[k], x) <= 0
    {
      assert cmp(s[k], s[|s| - 1]) <= 0;
    }
  }

  /** With a consistent comparator the result is sorted in the comparator's order. */
  lemma {:induction false} SortOrdered<T(!new)>(cmp: (T, T) -> int, s: seq<T>)
    requires Consistent(cmp, s)
    ensures Ordered(cmp, Sort(cmp, s))
    decreases |s|
  {
    if s != [] {
      var init := s[..|s| - 1];
      ConsistentPrefix(cmp, s, |s| - 1);
      SortOrdered(cmp, init);
      var sorted := Sort(cmp, init);
      forall k | 0 <= k < |sorted|
        ensures sorted[k] in s
      {
        SortMembers(cmp, init, k);
      }
      InsertOrdered(cmp, sorted, s[|s| - 1], s);
    }
  }

  // ----- stability -----

  lemma {:induction false} InsertStable<T>(cmp: (T, T) -> int, s: seq<T>, x: T, p: T -> bool)
    requires p(x) ==> forall k :: 0 <= k < |s| && p(s[k]) ==> cmp(s[k], x) <= 0
    ensures Filter(Insert(cmp, s, x), p) == Filter(s + [x], p)
    decreases |s|
  {
    if s != [] {
      var init, last := s[..|s| - 1], s[|s| - 1];
      if cmp(last, x) > 0 {
        InsertStable(cmp, init, x, p);
        assert s == init + [last];
        FilterAppend(Insert(cmp, init, x), [last], p);
        FilterAppend(init + [x], [last], p);
        FilterAppend(init, [x], p);
        FilterAppend(init, [last], p);
        FilterAppend(s, [x], p);
      }
    }
  }

  /** Elements that the comparator never puts after one another keep their input order:
      the sort is stable. */
  lemma {:induction false} SortStable<T>(cmp: (T, T) -> int, s: seq<T>, p: T -> bool)
    requires forall a, b :: a in s && b in s && p(a) && p(b) ==> cmp(a, b) <= 0
    ensures Filter(Sort(cmp, s), p) == Filter(s, p)
    decreases |s|
  {
    if s != [] {
      var init, x := s[..|s| - 1], s[|s| - 1];
      assert forall a :: a in init ==> a in s;
      SortStable(cmp, init, p);
      var sorted := Sort(cmp, init);
      forall k | 0 <= k < |sorted|
        ensures sorted[k] in s
      {
        SortMembers(cmp, init, k);
      }
      InsertStable(cmp, sorted, x, p);
      FilterAppend(sorted, [x], p);
      FilterAppend(init, [x], p);
      assert s == init + [x];
    }
  }
}
