/**
 * Python's `sorted(xs, key=...)` with a real-valued key: a stable sort.
 * SortByKey is an insertion sort that serves as the reference definition;
 * IsStableSortOf says what any stable sort must produce, and the two lemmas
 * at the end show that SortByKey meets it and is the only sequence that does,
 * so the model does not depend on the algorithm Python uses.
 */
module Sorting {
  import opened Sequences

  /** `s` is non-decreasing in `key`. */
  predicate SortedBy<T>(s: seq<T>, key: T -> real)
  {
    forall i, j :: 0 <= i < j < |s| ==> key(s[i]) <= key(s[j])
  }

  /** The test "has key `k`", as a value that Filter can take. */
  function HasKey<T>(key: T -> real, k: real): T -> bool
  {
    x => key(x) == k
  }

  /** The elements of `s` whose key is `k`, in their order in `s`. */
  function WithKey<T>(s: seq<T>, key: T -> real, k: real): seq<T>
  {
    Filter(s, HasKey(key, k))
  }

  /**
   * `r` is what a stable sort of `s` by `key` returns: sorted, a permutation
   * of `s`, and elements with equal keys in the order they have in `s`.
   */
  ghost predicate IsStableSortOf<T>(r: seq<T>, s: seq<T>, key: T -> real)
  {
    && SortedBy(r, key)
    && multiset(r) == multiset(s)
    && forall k :: WithKey(r, key, k) == WithKey(s, key, k)
  }

  /** Puts `x` in front of the first element of `s` whose key is not smaller. */
  function Insert<T>(x: T, s: seq<T>, key: T -> real): (r: seq<T>)
    ensures |r| == |s| + 1
  {
    if s == [] || key(x) <= key(s[0]) then [x] + s
    else [s[0]] + Insert(x, s[1..], key)
  }

  /** Insertion sort, inserting each head into the sorted rest. */
  function SortByKey<T>(s: seq<T>, key: T -> real): (r: seq<T>)
    ensures |r| == |s|
  {
    if s == [] then []
    else Insert(s[0], SortByKey(s[1..], key), key)
  }

  lemma {:induction false} InsertMultiset<T>(x: T, s: seq<T>, key: T -> real)
    ensures multiset(Insert(x, s, key)) == multiset{x} + multiset(s)
  {
    if s != [] && key(x) > key(s[0]) {
      InsertMultiset(x, s[1..], key);
      assert s == [s[0]] + s[1..];
    }
  }

  lemma {:induction false} SortByKeyMultiset<T>(s: seq<T>, key: T -> real)
    ensures multiset(SortByKey(s, key)) == multiset(s)
  {
    if s != [] {
      SortByKeyMultiset(s[1..], key);
      InsertMultiset(s[0], SortByKey(s[1..], key), key);
      assert s == [s[0]] + s[1..];
    }
  }

  lemma {:induction false} InsertSorted<T>(x: T, s: seq<T>, key: T -> real)
    requires SortedBy(s, key)
    ensures SortedBy(Insert(x, s, key), key)
  {
    if s != [] && key(x) > key(s[0]) {
      var rest := Insert(x, s[1..], key);
      InsertSorted(x, s[1..], key);
      InsertMultiset(x, s[1..], key);
      forall y | y in rest
        ensures key(s[0]) <= key(y)
      {
        assert y in multiset(rest);
        if y != x {
          assert y in s[1..];
        }
      }
      assert Insert(x, s, key) == [s[0]] + rest;
    }
  }

  lemma WithKeySingleton<T>(x: T, key: T -> real, k: real)
    ensures WithKey([x], key, k) == if key(x) == k then [x] else []
  {
    assert [x][1..] == [];
  }

  /** Inserting `x` puts it in front of the elements with the same key. */
  lemma {:induction false} InsertWithKey<T>(x: T, s: seq<T>, key: T -> real, k: real)
    ensures WithKey(Insert(x, s, key), key, k) == WithKey([x], key, k) + WithKey(s, key, k)
  {
    var p := HasKey(key, k);
    if s == [] || key(x) <= key(s[0]) {
      FilterConcat([x], s, p);
    } else {
      var s' := s[1..];
      InsertWithKey(x, s', key, k);
      assert s == [s[0]] + s';
      WithKeyCons(s[0], Insert(x, s', key), key, k);
      WithKeyCons(s[0], s', key, k);
      WithKeySingleton(x, key, k);
      if key(s[0]) == k {
        assert WithKey([x], key, k) == [];
      }
    }
  }

  /** SortByKey is a stable sort. */
  lemma {:induction false} SortByKeyIsStable<T>(s: seq<T>, key: T -> real)
    ensures IsStableSortOf(SortByKey(s, key), s, key)
  {
    if s != [] {
      var rest := SortByKey(s[1..], key);
      SortByKeyIsStable(s[1..], key);
      SortByKeyMultiset(s, key);
      InsertSorted(s[0], rest, key);
      forall k
        ensures WithKey(SortByKey(s, key), key, k) == WithKey(s, key, k)
      {
        InsertWithKey(s[0], rest, key, k);
        FilterConcat([s[0]], s[1..], HasKey(key, k));
        assert [s[0]] + s[1..] == s;
      }
    }
  }

  lemma WithKeyCons<T>(x: T, s: seq<T>, key: T -> real, k: real)
    ensures WithKey([x] + s, key, k) == (if key(x) == k then [x] else []) + WithKey(s, key, k)
  {
    assert ([x] + s)[0] == x && ([x] + s)[1..] == s;
  }

  lemma SortedHeadIsLeast<T>(a: seq<T>, key: T -> real, y: T)
    requires SortedBy(a, key) && a != [] && y in a
    ensures key(a[0]) <= key(y)
  {
    var i :| 0 <= i < |a| && a[i] == y;
    if i > 0 {
      assert key(a[0]) <= key(a[i]);
    }
  }

  /** Two sorted permutations of each other start with the same key. */
  lemma SortedHeadsShareKey<T>(a: seq<T>, b: seq<T>, key: T -> real)
    requires SortedBy(a, key) && SortedBy(b, key)
    requires multiset(a) == multiset(b) && a != [] && b != []
    ensures key(a[0]) == key(b[0])
  {
    assert a[0] in multiset(b) && b[0] in multiset(a);
    SortedHeadIsLeast(a, key, b[0]);
    SortedHeadIsLeast(b, key, a[0]);
  }

  /** Heads with the same key and the same equal-key order are the same element. */
  lemma HeadsAgree<T>(a: seq<T>, b: seq<T>, key: T -> real)
    requires a != [] && b != [] && key(a[0]) == key(b[0])
    requires WithKey(a, key, key(a[0])) == WithKey(b, key, key(a[0]))
    ensures a[0] == b[0]
  {
    var k := key(a[0]);
    assert a == [a[0]] + a[1..] && b == [b[0]] + b[1..];
    WithKeyCons(a[0], a[1..], key, k);
    WithKeyCons(b[0], b[1..], key, k);
    assert ([a[0]] + WithKey(a[1..], key, k))[0] == a[0];
    assert ([b[0]] + WithKey(b[1..], key, k))[0] == b[0];
  }

  /** Dropping a common head keeps the equal-key order the same. */
  lemma TailsWithKey<T>(x: T, a': seq<T>, b': seq<T>, key: T -> real, j: real)
    requires WithKey([x] + a', key, j) == WithKey([x] + b', key, j)
    ensures WithKey(a', key, j) == WithKey(b', key, j)
  {
    WithKeyCons(x, a', key, j);
    WithKeyCons(x, b', key, j);
    var c := if key(x) == j then [x] else [];
    assert WithKey(a', key, j) == (c + WithKey(a', key, j))[|c|..];
    assert WithKey(b', key, j) == (c + WithKey(b', key, j))[|c|..];
  }

  /** Dropping a common head keeps two multisets equal. */
  lemma TailsMultiset<T>(x: T, a': seq<T>, b': seq<T>)
    requires multiset([x] + a') == multiset([x] + b')
    ensures multiset(a') == multiset(b')
  {
    assert multiset([x] + a') == multiset{x} + multiset(a');
    assert multiset([x] + b') == multiset{x} + multiset(b');
    assert multiset(a') == (multiset{x} + multiset(a')) - multiset{x};
    assert multiset(b') == (multiset{x} + multiset(b')) - multiset{x};
  }

  /** Two stable sorts of the same sequence agree. */
  lemma {:induction false} StableSortsAgree<T>(a: seq<T>, b: seq<T>, key: T -> real)
    requires SortedBy(a, key) && SortedBy(b, key)
    requires multiset(a) == multiset(b)
    requires forall k :: WithKey(a, key, k) == WithKey(b, key, k)
    ensures a == b
  {
    assert |a| == |multiset(a)| == |multiset(b)| == |b|;
    if a != [] {
      SortedHeadsShareKey(a, b, key);
      HeadsAgree(a, b, key);
      var x, a', b' := a[0], a[1..], b[1..];
      assert a == [x] + a' && b == [x] + b';
      TailsMultiset(x, a', b');
      forall j
        ensures WithKey(a', key, j) == WithKey(b', key, j)
      {
        TailsWithKey(x, a', b', key, j);
      }
      StableSortsAgree(a', b', key);
    }
  }

  /** Every stable sort of `s` by `key` returns exactly SortByKey(s, key). */
  lemma StableSortIsUnique<T>(r: seq<T>, s: seq<T>, key: T -> real)
    requires IsStableSortOf(r, s, key)
    ensures r == SortByKey(s, key)
  {
    SortByKeyIsStable(s, key);
    StableSortsAgree(r, SortByKey(s, key), key);
  }
}
