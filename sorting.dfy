/** The stable sort that `_get_urgent_assignments` and `_prioritize_topics`
    call (`list.sort(key=...)`), specified by what a stable sort promises:
    the result is ordered by the key, it is a permutation of the input, and
    elements with the same key keep their input order. */
module Sorting {
  import opened Wrappers

  /** A sort key: a rank, then a deadline. A missing deadline sorts as
      `datetime.max`, after every deadline of the same rank. */
  datatype SortKey = SortKey(rank: int, deadline: Option<int>)

  predicate DeadlineLe(a: Option<int>, b: Option<int>)
  {
    match (a, b)
    case (_, None) => true
    case (None, Some(_)) => false
    case (Some(x), Some(y)) => x <= y
  }

  /** Python's tuple comparison `(rank, deadline) <= (rank', deadline')`. */
  predicate KeyLe(a: SortKey, b: SortKey)
  {
    a.rank < b.rank || (a.rank == b.rank && DeadlineLe(a.deadline, b.deadline))
  }

  /** KeyLe is a total order on keys. */
  lemma KeyLeTotalOrder(a: SortKey, b: SortKey, c: SortKey)
    ensures KeyLe(a, a)
    ensures KeyLe(a, b) || KeyLe(b, a)
    ensures KeyLe(a, b) && KeyLe(b, a) ==> a == b
    ensures KeyLe(a, b) && KeyLe(b, c) ==> KeyLe(a, c)
  {
  }

  predicate SortedBy<T>(s: seq<T>, key: T -> SortKey)
  {
    forall i, j :: 0 <= i < j < |s| ==> KeyLe(key(s[i]), key(s[j]))
  }

  /** The elements of `s` whose key is `k`, in their order in `s`. */
  function WithKey<T>(s: seq<T>, key: T -> SortKey, k: SortKey): seq<T>
  {
    if s == [] then [] else (if key(s[0]) == k then [s[0]] else []) + WithKey(s[1..], key, k)
  }

  /** Puts `x` before the first element whose key is not smaller than its
      own, so that `x` stays ahead of the elements with an equal key. */
  function Insert<T>(x: T, s: seq<T>, key: T -> SortKey): seq<T>
  {
    if s == [] || KeyLe(key(x), key(s[0])) then [x] + s
    else [s[0]] + Insert(x, s[1..], key)
  }

  /** Stable insertion sort; any stable sort returns the same sequence
      (StableSortIsUnique). */
  function SortBy<T>(s: seq<T>, key: T -> SortKey): seq<T>
  {
    if s == [] then [] else Insert(s[0], SortBy(s[1..], key), key)
  }

  lemma {:induction false} InsertSorted<T>(x: T, s: seq<T>, key: T -> SortKey)
    requires SortedBy(s, key)
    ensures SortedBy(Insert(x, s, key), key)
    ensures multiset(Insert(x, s, key)) == multiset(s) + multiset{x}
  {
    var r := Insert(x, s, key);
    if s == [] || KeyLe(key(x), key(s[0])) {
      forall i, j | 0 <= i < j < |r| ensures KeyLe(key(r[i]), key(r[j])) {
        if i == 0 && j > 1 {
          KeyLeTotalOrder(key(x), key(s[0]), key(r[j]));
        }
      }
    } else {
      var t := Insert(x, s[1..], key);
      assert s == [s[0]] + s[1..];
      InsertSorted(x, s[1..], key);
      KeyLeTotalOrder(key(x), key(s[0]), key(x));
      forall j | 0 <= j < |t| ensures KeyLe(key(s[0]), key(t[j])) {
        assert t[j] in multiset(t);
        if t[j] != x {
          assert t[j] in multiset(s[1..]);
          var k :| 0 <= k < |s[1..]| && s[1..][k] == t[j];
          assert s[k + 1] == t[j];
        }
      }
      forall i, j | 0 <= i < j < |r| ensures KeyLe(key(r[i]), key(r[j])) {
        if i > 0 {
          assert r[i] == t[i - 1] && r[j] == t[j - 1];
        }
      }
    }
  }

  lemma {:induction false} SortBySortedPermutation<T>(s: seq<T>, key: T -> SortKey)
    ensures SortedBy(SortBy(s, key), key)
    ensures multiset(SortBy(s, key)) == multiset(s)
  {
    if s != [] {
      SortBySortedPermutation(s[1..], key);
      InsertSorted(s[0], SortBy(s[1..], key), key);
      assert s == [s[0]] + s[1..];
    }
  }

  lemma {:induction false} WithKeyAppend<T>(a: seq<T>, b: seq<T>, key: T -> SortKey, k: SortKey)
    ensures WithKey(a + b, key, k) == WithKey(a, key, k) + WithKey(b, key, k)
  {
    if a == [] {
      assert a + b == b;
    } else {
      assert (a + b)[1..] == a[1..] + b;
      WithKeyAppend(a[1..], b, key, k);
    }
  }

  lemma {:induction false} InsertStable<T>(x: T, s: seq<T>, key: T -> SortKey, k: SortKey)
    ensures WithKey(Insert(x, s, key), key, k) == WithKey([x], key, k) + WithKey(s, key, k)
  {
    WithKeyAppend([x], s, key, k);
    if s != [] && !KeyLe(key(x), key(s[0])) {
      KeyLeTotalOrder(key(x), key(s[0]), key(x));
      InsertStable(x, s[1..], key, k);
      WithKeyAppend([s[0]], Insert(x, s[1..], key), key, k);
      WithKeyAppend([s[0]], s[1..], key, k);
      assert s == [s[0]] + s[1..];
      WithKeyAppend([x], s[1..], key, k);
    }
  }

  /** Elements with equal keys come out of SortBy in their input order. */
  lemma {:induction false} SortByStable<T>(s: seq<T>, key: T -> SortKey, k: SortKey)
    ensures WithKey(SortBy(s, key), key, k) == WithKey(s, key, k)
  {
    if s != [] {
      SortByStable(s[1..], key, k);
      InsertStable(s[0], SortBy(s[1..], key), key, k);
      assert s == [s[0]] + s[1..];
      WithKeyAppend([s[0]], s[1..], key, k);
    }
  }

  lemma {:induction false} WithKeyNonEmpty<T>(s: seq<T>, key: T -> SortKey, k: SortKey)
    requires WithKey(s, key, k) != []
    ensures exists i :: 0 <= i < |s| && key(s[i]) == k
  {
    if key(s[0]) != k {
      WithKeyNonEmpty(s[1..], key, k);
      var i :| 0 <= i < |s[1..]| && key(s[1..][i]) == k;
      assert key(s[i + 1]) == k;
    }
  }

  lemma EmptyTogether<T>(r1: seq<T>, r2: seq<T>, key: T -> SortKey)
    requires forall k :: WithKey(r1, key, k) == WithKey(r2, key, k)
    ensures r1 == [] <==> r2 == []
  {
    if r1 != [] {
      assert WithKey(r1, key, key(r1[0])) != [];
    }
    if r2 != [] {
      assert WithKey(r2, key, key(r2[0])) != [];
    }
  }

  lemma SameHead<T>(r1: seq<T>, r2: seq<T>, key: T -> SortKey)
    requires r1 != [] && r2 != []
    requires SortedBy(r1, key) && SortedBy(r2, key)
    requires forall k :: WithKey(r1, key, k) == WithKey(r2, key, k)
    ensures r1[0] == r2[0]
  {
    var ka, kb := key(r1[0]), key(r2[0]);
    assert WithKey(r1, key, ka) != [];
    assert WithKey(r2, key, ka) != [];
    WithKeyNonEmpty(r2, key, ka);
    var j :| 0 <= j < |r2| && key(r2[j]) == ka;
    assert WithKey(r2, key, kb) != [];
    assert WithKey(r1, key, kb) != [];
    WithKeyNonEmpty(r1, key, kb);
    var i :| 0 <= i < |r1| && key(r1[i]) == kb;
    KeyLeTotalOrder(ka, kb, ka);
    assert KeyLe(kb, ka) by { if j > 0 { assert KeyLe(key(r2[0]), key(r2[j])); } }
    assert KeyLe(ka, kb) by { if i > 0 { assert KeyLe(key(r1[0]), key(r1[i])); } }
    assert WithKey(r1, key, ka)[0] == r1[0];
    assert WithKey(r2, key, ka)[0] == r2[0];
  }

  lemma SameTails<T>(r1: seq<T>, r2: seq<T>, key: T -> SortKey)
    requires r1 != [] && r2 != [] && r1[0] == r2[0]
    requires forall k :: WithKey(r1, key, k) == WithKey(r2, key, k)
    ensures forall k :: WithKey(r1[1..], key, k) == WithKey(r2[1..], key, k)
  {
    var ka := key(r1[0]);
    forall k ensures WithKey(r1[1..], key, k) == WithKey(r2[1..], key, k) {
      assert WithKey(r1, key, k) == WithKey(r2, key, k);
      if ka == k {
        assert WithKey(r1[1..], key, k) == WithKey(r1, key, k)[1..];
        assert WithKey(r2[1..], key, k) == WithKey(r2, key, k)[1..];
      } else {
        assert WithKey(r1[1..], key, k) == WithKey(r1, key, k);
        assert WithKey(r2[1..], key, k) == WithKey(r2, key, k);
      }
    }
  }

  /** Two sequences that are both ordered by the key and agree on the order
      of the elements of every key are the same sequence. */
  lemma {:induction false} SortedUnique<T>(r1: seq<T>, r2: seq<T>, key: T -> SortKey)
    requires SortedBy(r1, key) && SortedBy(r2, key)
    requires forall k :: WithKey(r1, key, k) == WithKey(r2, key, k)
    ensures r1 == r2
    decreases |r1|
  {
    EmptyTogether(r1, r2, key);
    if r1 != [] {
      SameHead(r1, r2, key);
      SameTails(r1, r2, key);
      SortedUnique(r1[1..], r2[1..], key);
      assert r1 == [r1[0]] + r1[1..] && r2 == [r2[0]] + r2[1..];
    }
  }

  /** SortBy keeps the promises of a stable sort. */
  lemma SortByIsStableSort<T>(s: seq<T>, key: T -> SortKey)
    ensures SortedBy(SortBy(s, key), key)
    ensures multiset(SortBy(s, key)) == multiset(s)
    ensures forall k :: WithKey(SortBy(s, key), key, k) == WithKey(s, key, k)
  {
    SortBySortedPermutation(s, key);
    forall k ensures WithKey(SortBy(s, key), key, k) == WithKey(s, key, k) {
      SortByStable(s, key, k);
    }
  }

  /** What SortBy returns is what a stable sort promises, and it is the only
      sequence that keeps that promise: whichever stable algorithm the source's
      runtime uses, its result is SortBy's. */
  lemma StableSortIsUnique<T>(s: seq<T>, r: seq<T>, key: T -> SortKey)
    ensures SortedBy(SortBy(s, key), key)
    ensures multiset(SortBy(s, key)) == multiset(s)
    ensures forall k :: WithKey(SortBy(s, key), key, k) == WithKey(s, key, k)
    ensures SortedBy(r, key) && (forall k :: WithKey(r, key, k) == WithKey(s, key, k)) ==> r == SortBy(s, key)
  {
    SortByIsStableSort(s, key);
    if SortedBy(r, key) && (forall k :: WithKey(r, key, k) == WithKey(s, key, k)) {
      SortedUnique(r, SortBy(s, key), key);
    }
  }
}
