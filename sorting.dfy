/**
 * A stable sort by a natural-number key, the behaviour of Rust's `slice::sort_by_key`.
 * The sort is specified by three facts proved below: the result is ordered by the key,
 * it is a permutation of the input, and for every key value the elements carrying that
 * key appear in their original order (stability).
 */
module Sorting {

  predicate SortedByKey<T>(s: seq<T>, key: T -> nat)
  {
    forall i, j :: 0 <= i < j < |s| ==> key(s[i]) <= key(s[j])
  }

  /** The subsequence of `s` whose elements carry key `k`, in order. */
  function WithKey<T>(s: seq<T>, key: T -> nat, k: nat): (r: seq<T>)
    ensures |r| <= |s|
    ensures forall x :: x in r ==> x in s && key(x) == k
  {
    if s == [] then []
    else WithKey(s[..|s| - 1], key, k) + (if key(s[|s| - 1]) == k then [s[|s| - 1]] else [])
  }

  /** Inserts `x` after every element whose key is at most `key(x)`. */
  function InsertByKey<T>(x: T, s: seq<T>, key: T -> nat): (r: seq<T>)
  {
    if s == [] then [x]
    else if key(x) < key(s[0]) then [x] + s
    else [s[0]] + InsertByKey(x, s[1..], key)
  }

  function SortByKey<T>(s: seq<T>, key: T -> nat): (r: seq<T>)
  {
    if s == [] then [] else InsertByKey(s[|s| - 1], SortByKey(s[..|s| - 1], key), key)
  }

  lemma {:induction false} WithKeyAppend<T>(a: seq<T>, b: seq<T>, key: T -> nat, k: nat)
    ensures WithKey(a + b, key, k) == WithKey(a, key, k) + WithKey(b, key, k)
    decreases |b|
  {
    if b == [] {
      assert a + b == a;
    } else {
      var b' := b[..|b| - 1];
      assert (a + b)[..|a + b| - 1] == a + b';
      WithKeyAppend(a, b', key, k);
    }
  }

  lemma {:induction false} WithKeySingleton<T>(x: T, key: T -> nat, k: nat)
    ensures WithKey([x], key, k) == if key(x) == k then [x] else []
  {
    assert [x][..0] == [];
  }

  lemma {:induction false} WithKeyNone<T>(s: seq<T>, key: T -> nat, k: nat)
    requires forall i :: 0 <= i < |s| ==> key(s[i]) != k
    ensures WithKey(s, key, k) == []
    decreases |s|
  {
    if s != [] {
      WithKeyNone(s[..|s| - 1], key, k);
    }
  }

  lemma {:induction false} InsertProperties<T>(x: T, s: seq<T>, key: T -> nat)
    requires SortedByKey(s, key)
    ensures var r := InsertByKey(x, s, key);
      |r| == |s| + 1 && SortedByKey(r, key) && multiset(r) == multiset(s) + multiset{x}
      && (forall y :: y in r ==> y == x || y in s)
  {
    InsertPermutation(x, s, key);
    InsertSorted(x, s, key);
    var r := InsertByKey(x, s, key);
    forall y | y in r ensures y == x || y in s {
      assert y in multiset(r);
    }
  }

  /** Inserting adds exactly one element, `x`. */
  lemma {:induction false} InsertPermutation<T>(x: T, s: seq<T>, key: T -> nat)
    ensures var r := InsertByKey(x, s, key);
      |r| == |s| + 1 && multiset(r) == multiset(s) + multiset{x}
    decreases |s|
  {
    if s != [] && key(x) >= key(s[0]) {
      InsertPermutation(x, s[1..], key);
      assert s == [s[0]] + s[1..];
    }
  }

  /** Inserting into a sorted sequence keeps it sorted. */
  lemma {:induction false} InsertSorted<T>(x: T, s: seq<T>, key: T -> nat)
    requires SortedByKey(s, key)
    ensures SortedByKey(InsertByKey(x, s, key), key)
    decreases |s|
  {
    if s != [] && key(x) >= key(s[0]) {
      var rest := s[1..];
      assert SortedByKey(rest, key) by {
        forall i, j | 0 <= i < j < |rest| ensures key(rest[i]) <= key(rest[j]) {
          assert rest[i] == s[i + 1] && rest[j] == s[j + 1];
        }
      }
      InsertSorted(x, rest, key);
      InsertPermutation(x, rest, key);
      var t := InsertByKey(x, rest, key);
      forall j | 0 <= j < |t| ensures key(s[0]) <= key(t[j]) {
        assert t[j] in multiset(t);
        if t[j] != x {
          assert t[j] in multiset(rest);
          var m :| 0 <= m < |rest| && rest[m] == t[j];
          assert s[m + 1] == t[j];
        }
      }
    } else if s != [] {
      forall j | 1 <= j <= |s| ensures key(x) <= key(([x] + s)[j]) {
        assert ([x] + s)[j] == s[j - 1];
        if j > 1 { assert key(s[0]) <= key(s[j - 1]); }
      }
    }
  }

  lemma {:induction false} InsertWithKey<T>(x: T, s: seq<T>, key: T -> nat, k: nat)
    requires SortedByKey(s, key)
    ensures WithKey(InsertByKey(x, s, key), key, k) == WithKey(s, key, k) + WithKey([x], key, k)
    decreases |s|
  {
    if s == [] {
      assert InsertByKey(x, s, key) == [x];
      assert WithKey(s, key, k) == [];
    } else if key(x) < key(s[0]) {
      InsertBeforeAll(x, s, key, k);
    } else {
      var t := s[1..];
      assert SortedByKey(t, key) by {
        forall i, j | 0 <= i < j < |t| ensures key(t[i]) <= key(t[j]) {
          assert t[i] == s[i + 1] && t[j] == s[j + 1];
        }
      }
      InsertWithKey(x, t, key, k);
      var wx := WithKey([x], key, k);
      var w0 := WithKey([s[0]], key, k);
      calc {
        WithKey(InsertByKey(x, s, key), key, k);
        { assert InsertByKey(x, s, key) == [s[0]] + InsertByKey(x, t, key); }
        WithKey([s[0]] + InsertByKey(x, t, key), key, k);
        { WithKeyAppend([s[0]], InsertByKey(x, t, key), key, k); }
        w0 + (WithKey(t, key, k) + wx);
        (w0 + WithKey(t, key, k)) + wx;
        { assert s == [s[0]] + t; WithKeyAppend([s[0]], t, key, k); }
        WithKey(s, key, k) + wx;
      }
    }
  }

  lemma {:induction false} InsertBeforeAll<T>(x: T, s: seq<T>, key: T -> nat, k: nat)
    requires SortedByKey(s, key) && s != [] && key(x) < key(s[0])
    ensures WithKey(InsertByKey(x, s, key), key, k) == WithKey(s, key, k) + WithKey([x], key, k)
  {
    assert InsertByKey(x, s, key) == [x] + s;
    WithKeyAppend([x], s, key, k);
    WithKeySingleton(x, key, k);
    var wx := WithKey([x], key, k);
    var ws := WithKey(s, key, k);
    if key(x) == k {
      KeysAboveFirst(s, key, k);
      WithKeyNone(s, key, k);
      assert wx + ws == wx == ws + wx;
    } else {
      assert wx + ws == ws == ws + wx;
    }
  }

  /** No element of a sorted sequence carries a key below that of its first element. */
  lemma KeysAboveFirst<T>(s: seq<T>, key: T -> nat, k: nat)
    requires SortedByKey(s, key) && s != [] && k < key(s[0])
    ensures forall i :: 0 <= i < |s| ==> key(s[i]) != k
  {
    forall i | 0 <= i < |s| ensures key(s[i]) != k {
      if i > 0 { assert key(s[0]) <= key(s[i]); }
    }
  }

  /** The sort orders by key and preserves the multiset of elements. */
  lemma {:induction false} SortSortedPermutation<T>(s: seq<T>, key: T -> nat)
    ensures var r := SortByKey(s, key);
      |r| == |s| && SortedByKey(r, key) && multiset(r) == multiset(s)
    decreases |s|
  {
    if s != [] {
      var init := s[..|s| - 1];
      SortSortedPermutation(init, key);
      InsertProperties(s[|s| - 1], SortByKey(init, key), key);
      assert s == init + [s[|s| - 1]];
    }
  }

  /** Stability: for every key value the sort keeps the original relative order. */
  lemma {:induction false} SortStable<T>(s: seq<T>, key: T -> nat, k: nat)
    ensures WithKey(SortByKey(s, key), key, k) == WithKey(s, key, k)
    decreases |s|
  {
    if s != [] {
      var init := s[..|s| - 1];
      SortStable(init, key, k);
      SortSortedPermutation(init, key);
      InsertWithKey(s[|s| - 1], SortByKey(init, key), key, k);
      WithKeySingleton(s[|s| - 1], key, k);
    }
  }
}
