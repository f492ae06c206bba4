/**
  The descending, stable sort and the sum that both display-helper files
  implement: `[...options].sort((a, b) => key(b) - key(a))` and
  `options.reduce((sum, o) => sum + key(o), 0)`. The comparator orders by
  decreasing key, and `Array.prototype.sort` is stable (ECMA-262, section
  23.1.3.30 of the 2023 edition), so the result is fully determined: the
  elements in non-increasing key order, equal keys in input order. The model
  computes that result by insertion sort.
*/
module StableSort {

  /** Keys never increase from left to right. */
  predicate NonIncreasing<T>(s: seq<T>, key: T -> int)
  {
    forall i, j :: 0 <= i < j < |s| ==> key(s[i]) >= key(s[j])
  }

  /** The subsequence of the elements whose key is `k`, in their order in `s`. */
  function WithKey<T>(s: seq<T>, key: T -> int, k: int): (r: seq<T>)
  {
    if s == [] then []
    else (if key(s[0]) == k then [s[0]] else []) + WithKey(s[1..], key, k)
  }

  /** Sum of the keys, 0 for the empty sequence. */
  function Sum<T>(s: seq<T>, key: T -> int): (total: int)
  {
    if s == [] then 0 else key(s[0]) + Sum(s[1..], key)
  }

  /** `WithKey` of a sequence with a given first element. */
  lemma WithKeyCons<T>(y: T, s: seq<T>, key: T -> int, k: int)
    ensures WithKey([y] + s, key, k) == (if key(y) == k then [y] else []) + WithKey(s, key, k)
  {
    assert ([y] + s)[1..] == s;
  }

  lemma TailNonIncreasing<T>(s: seq<T>, key: T -> int)
    requires s != [] && NonIncreasing(s, key)
    ensures NonIncreasing(s[1..], key)
    ensures forall z | z in multiset(s[1..]) :: key(s[0]) >= key(z)
  {
    forall z | z in multiset(s[1..]) ensures key(s[0]) >= key(z) {
      var m :| 0 <= m < |s[1..]| && s[1..][m] == z;
      assert s[1 + m] == z;
    }
  }

  lemma ConsNonIncreasing<T>(y: T, s: seq<T>, key: T -> int)
    requires NonIncreasing(s, key)
    requires forall z | z in multiset(s) :: key(y) >= key(z)
    ensures NonIncreasing([y] + s, key)
  {
    forall i, j | 0 <= i < j < |[y] + s| ensures key(([y] + s)[i]) >= key(([y] + s)[j]) {
      assert ([y] + s)[j] == s[j - 1];
      assert s[j - 1] in multiset(s);
    }
  }

  /** Puts `x` in front of the first element whose key is not larger than its own. */
  function Insert<T>(x: T, s: seq<T>, key: T -> int): (r: seq<T>)
    ensures multiset(r) == multiset(s) + multiset{x}
  {
    if s == [] || key(x) >= key(s[0]) then
      [x] + s
    else
      assert s == [s[0]] + s[1..];
      [s[0]] + Insert(x, s[1..], key)
  }

  /** Inserting into a sorted sequence keeps it sorted. */
  lemma {:induction false} InsertNonIncreasing<T>(x: T, s: seq<T>, key: T -> int)
    requires NonIncreasing(s, key)
    ensures NonIncreasing(Insert(x, s, key), key)
  {
    if s == [] || key(x) >= key(s[0]) {
      ConsNonIncreasing(x, s, key) by {
        forall z | z in multiset(s) ensures key(x) >= key(z) {
          if s != [] {
            assert s == [s[0]] + s[1..];
            TailNonIncreasing(s, key);
          }
        }
      }
    } else {
      TailNonIncreasing(s, key);
      InsertNonIncreasing(x, s[1..], key);
      ConsNonIncreasing(s[0], Insert(x, s[1..], key), key);
    }
  }

  /** Inserting never reorders elements with equal keys: `x` lands before the elements with its key. */
  lemma {:induction false} InsertWithKey<T>(x: T, s: seq<T>, key: T -> int, k: int)
    ensures WithKey(Insert(x, s, key), key, k) == WithKey([x] + s, key, k)
  {
    if s == [] || key(x) >= key(s[0]) {
    } else {
      var rest := Insert(x, s[1..], key);
      InsertWithKey(x, s[1..], key, k);
      assert s == [s[0]] + s[1..];
      WithKeyCons(s[0], rest, key, k);
      WithKeyCons(x, s[1..], key, k);
      WithKeyCons(x, s, key, k);
      WithKeyCons(s[0], s[1..], key, k);
    }
  }

  /** The elements of `s` in non-increasing key order, equal keys in input order. */
  function SortDesc<T>(s: seq<T>, key: T -> int): (r: seq<T>)
    ensures multiset(r) == multiset(s)
    ensures |r| == |s|
    ensures NonIncreasing(r, key)
    ensures forall k :: WithKey(r, key, k) == WithKey(s, key, k)
  {
    if s == [] then []
    else
      var tail := SortDesc(s[1..], key);
      assert s == [s[0]] + s[1..];
      var r := Insert(s[0], tail, key);
      InsertNonIncreasing(s[0], tail, key);
      assert forall k :: WithKey(r, key, k) == WithKey(s, key, k) by {
        forall k ensures WithKey(r, key, k) == WithKey(s, key, k) {
          InsertWithKey(s[0], tail, key, k);
          WithKeyCons(s[0], tail, key, k);
          WithKeyCons(s[0], s[1..], key, k);
        }
      }
      assert |r| == |multiset(r)| == |multiset(s)| == |s|;
      r
  }

  lemma {:induction false} SumInsert<T>(x: T, s: seq<T>, key: T -> int)
    ensures Sum(Insert(x, s, key), key) == key(x) + Sum(s, key)
  {
    if s == [] || key(x) >= key(s[0]) {
    } else {
      SumInsert(x, s[1..], key);
    }
  }

  /** Sorting does not change the sum of the keys. */
  lemma {:induction false} SumSortDesc<T>(s: seq<T>, key: T -> int)
    ensures Sum(SortDesc(s, key), key) == Sum(s, key)
  {
    if s != [] {
      SumSortDesc(s[1..], key);
      SumInsert(s[0], SortDesc(s[1..], key), key);
    }
  }

  /** The sum over a concatenation is the sum of the sums. */
  lemma {:induction false} SumAppend<T>(a: seq<T>, b: seq<T>, key: T -> int)
    ensures Sum(a + b, key) == Sum(a, key) + Sum(b, key)
  {
    if a == [] {
      assert a + b == b;
    } else {
      assert (a + b)[1..] == a[1..] + b;
      SumAppend(a[1..], b, key);
    }
  }

  /** A sequence already in order is returned as it is. */
  lemma {:induction false} SortDescOfSorted<T>(s: seq<T>, key: T -> int)
    requires NonIncreasing(s, key)
    ensures SortDesc(s, key) == s
  {
    if s != [] {
      assert NonIncreasing(s[1..], key) by {
        forall i, j | 0 <= i < j < |s[1..]| ensures key(s[1..][i]) >= key(s[1..][j]) {
          assert s[1..][i] == s[i + 1] && s[1..][j] == s[j + 1];
        }
      }
      SortDescOfSorted(s[1..], key);
      assert s == [s[0]] + s[1..];
    }
  }

  /** Sorting twice is sorting once. */
  lemma SortDescIdempotent<T>(s: seq<T>, key: T -> int)
    ensures SortDesc(SortDesc(s, key), key) == SortDesc(s, key)
  {
    SortDescOfSorted(SortDesc(s, key), key);
  }
}
