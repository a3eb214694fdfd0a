/**
 * List helpers shared by the pages: stable sorting, `slice(0, n)` and the
 * order-preserving subsequence relation that every `filter` satisfies.
 *
 * `Array.prototype.sort` with a numeric comparator `(a, b) => key(a) - key(b)`,
 * applied to a freshly built array: the dashboard only ever sorts arrays it has
 * just produced by `filter`, `Object.values` or a spread, so the sort is
 * modelled on values. The sort is stable, as ECMAScript 2019 requires;
 * a descending sort is the same sort under the negated key.
 */
module Lists {

  predicate SortedBy<T>(s: seq<T>, key: T -> int) {
    forall i, j :: 0 <= i < j < |s| ==> key(s[i]) <= key(s[j])
  }

  /** Places `x` after every element whose key is not larger, so equal keys keep their order. */
  function Insert<T>(x: T, s: seq<T>, key: T -> int): (r: seq<T>)
    ensures |r| == |s| + 1
    ensures multiset(r) == multiset(s) + multiset{x}
  {
    if s == [] then [x]
    else if key(x) < key(s[0]) then [x] + s
    else
      assert s == [s[0]] + s[1..];
      [s[0]] + Insert(x, s[1..], key)
  }

  lemma {:induction false} InsertSorted<T>(x: T, s: seq<T>, key: T -> int)
    requires SortedBy(s, key)
    ensures SortedBy(Insert(x, s, key), key)
  {
    if s != [] && key(s[0]) <= key(x) {
      var rest := Insert(x, s[1..], key);
      InsertSorted(x, s[1..], key);
      forall k | 0 <= k < |rest| ensures key(s[0]) <= key(rest[k]) {
        assert rest[k] in multiset(rest);
        if rest[k] != x {
          assert rest[k] in multiset(s[1..]);
          var m :| 0 <= m < |s[1..]| && s[1..][m] == rest[k];
          assert s[1 + m] == rest[k];
        }
      }
      var r := [s[0]] + rest;
      forall i, j | 0 <= i < j < |r| ensures key(r[i]) <= key(r[j]) {
        if i > 0 { assert r[i] == rest[i - 1] && r[j] == rest[j - 1]; }
        else { assert r[j] == rest[j - 1]; }
      }
    }
  }

  /** The sorted permutation of `s`, by non-decreasing key. */
  function SortBy<T>(s: seq<T>, key: T -> int): (r: seq<T>)
    ensures |r| == |s|
    ensures multiset(r) == multiset(s)
    ensures SortedBy(r, key)
  {
    if s == [] then []
    else
      var n := |s| - 1;
      assert s == s[..n] + [s[n]];
      var sorted := SortBy(s[..n], key);
      InsertSorted(s[n], sorted, key);
      Insert(s[n], sorted, key)
  }

  /** An element whose key is at least every key in `s` goes to the end. */
  lemma {:induction false} InsertAfterAll<T>(x: T, s: seq<T>, key: T -> int)
    requires forall i :: 0 <= i < |s| ==> key(s[i]) <= key(x)
    ensures Insert(x, s, key) == s + [x]
  {
    if s != [] {
      InsertAfterAll(x, s[1..], key);
      assert s == [s[0]] + s[1..];
    }
  }

  /** Sorting a list that is already sorted leaves it as it is. */
  lemma {:induction false} SortBySorted<T>(s: seq<T>, key: T -> int)
    requires SortedBy(s, key)
    ensures SortBy(s, key) == s
  {
    if s != [] {
      var n := |s| - 1;
      var init, last := s[..n], s[n];
      assert s == init + [last];
      SortedPrefix(s, n, key);
      SortBySorted(init, key);
      InsertAfterAll(last, init, key);
      calc {
        SortBy(s, key);
        { SortByAppend(init, last, key); }
        Insert(last, SortBy(init, key), key);
        Insert(last, init, key);
      }
    }
  }

  /** The first `n` elements of a sorted list are sorted and none has a larger key than `s[n]`. */
  lemma SortedPrefix<T>(s: seq<T>, n: nat, key: T -> int)
    requires SortedBy(s, key) && n < |s|
    ensures SortedBy(s[..n], key)
    ensures forall i :: 0 <= i < n ==> key(s[..n][i]) <= key(s[n])
  {
    var init := s[..n];
    forall i, j | 0 <= i < j < |init| ensures key(init[i]) <= key(init[j]) {
      assert init[i] == s[i] && init[j] == s[j];
    }
  }

  /** Sorting `s + [x]` inserts `x` into the sorted `s`. */
  lemma SortByAppend<T>(s: seq<T>, x: T, key: T -> int)
    ensures SortBy(s + [x], key) == Insert(x, SortBy(s, key), key)
  {
    assert (s + [x])[..|s|] == s;
  }

  // ---------------------------------------------------------------------------
  // Stability

  /** The elements of `s` whose key is `k`, in their order in `s`. */
  function Class<T>(s: seq<T>, key: T -> int, k: int): seq<T> {
    if s == [] then []
    else (if key(s[0]) == k then [s[0]] else []) + Class(s[1..], key, k)
  }

  lemma {:induction false} ClassAppend<T>(a: seq<T>, b: seq<T>, key: T -> int, k: int)
    ensures Class(a + b, key, k) == Class(a, key, k) + Class(b, key, k)
  {
    if a == [] {
      assert a + b == b;
    } else {
      var h := if key(a[0]) == k then [a[0]] else [];
      assert (a + b)[0] == a[0];
      assert (a + b)[1..] == a[1..] + b;
      assert Class(a + b, key, k) == h + Class(a[1..] + b, key, k);
      ClassAppend(a[1..], b, key, k);
      ConcatAssoc(h, Class(a[1..], key, k), Class(b, key, k));
    }
  }

  lemma {:induction false} ClassOfOtherKeys<T>(s: seq<T>, key: T -> int, k: int)
    requires forall i :: 0 <= i < |s| ==> key(s[i]) != k
    ensures Class(s, key, k) == []
  {
    if s != [] {
      ClassOfOtherKeys(s[1..], key, k);
    }
  }

  /** Inserting into a sorted list puts `x` after every element with the same key. */
  lemma {:induction false} InsertClass<T>(x: T, s: seq<T>, key: T -> int, k: int)
    requires SortedBy(s, key)
    ensures Class(Insert(x, s, key), key, k) == Class(s, key, k) + (if key(x) == k then [x] else [])
  {
    if s == [] {
      assert Insert(x, s, key) == [x];
      assert Class([x], key, k) == (if key(x) == k then [x] else []) + Class([x][1..], key, k);
    } else if key(x) < key(s[0]) {
      InsertClassFront(x, s, key, k);
    } else {
      var tail := s[1..];
      assert SortedBy(tail, key) by {
        forall i, j | 0 <= i < j < |tail| ensures key(tail[i]) <= key(tail[j]) {
          assert tail[i] == s[i + 1] && tail[j] == s[j + 1];
        }
      }
      InsertClass(x, tail, key, k);
      InsertClassBehind(x, s, key, k);
    }
  }

  /** `x` goes in front of a sorted list whose keys are all larger. */
  lemma InsertClassFront<T>(x: T, s: seq<T>, key: T -> int, k: int)
    requires SortedBy(s, key) && s != [] && key(x) < key(s[0])
    ensures Class(Insert(x, s, key), key, k) == Class(s, key, k) + (if key(x) == k then [x] else [])
  {
    var r := [x] + s;
    assert Insert(x, s, key) == r;
    assert r[0] == x && r[1..] == s;
    assert Class(r, key, k) == (if key(x) == k then [x] else []) + Class(s, key, k);
    if key(x) == k {
      forall i | 0 <= i < |s| ensures key(s[i]) != k {
        assert key(s[0]) <= key(s[i]);
      }
      ClassOfOtherKeys(s, key, k);
    }
  }

  /** `x` goes behind the head of `s`, into the tail. */
  lemma InsertClassBehind<T>(x: T, s: seq<T>, key: T -> int, k: int)
    requires s != [] && key(s[0]) <= key(x)
    requires Class(Insert(x, s[1..], key), key, k) == Class(s[1..], key, k) + (if key(x) == k then [x] else [])
    ensures Class(Insert(x, s, key), key, k) == Class(s, key, k) + (if key(x) == k then [x] else [])
  {
    var head, tail := [s[0]], s[1..];
    var rest := Insert(x, tail, key);
    InsertBehindHead(x, s, key);
    ClassAppend(head, rest, key, k);
    assert s == head + tail;
    ClassAppend(head, tail, key, k);
    ConcatAssoc(Class(head, key, k), Class(tail, key, k), if key(x) == k then [x] else []);
  }

  lemma ConcatAssoc<T>(a: seq<T>, b: seq<T>, c: seq<T>)
    ensures a + (b + c) == (a + b) + c
  {
  }

  lemma InsertBehindHead<T>(x: T, s: seq<T>, key: T -> int)
    requires s != [] && key(s[0]) <= key(x)
    ensures Insert(x, s, key) == [s[0]] + Insert(x, s[1..], key)
  {
  }

  /**
   * The sort is stable: for every key, the elements with that key appear in
   * the sorted list in the same order as in `s`.
   */
  lemma {:induction false} SortByStable<T>(s: seq<T>, key: T -> int, k: int)
    ensures Class(SortBy(s, key), key, k) == Class(s, key, k)
  {
    if s != [] {
      var n := |s| - 1;
      var init, last := s[..n], s[n];
      assert s == init + [last];
      SortByStable(init, key, k);
      SortByAppend(init, last, key);
      InsertClass(last, SortBy(init, key), key, k);
      ClassAppend(init, [last], key, k);
    }
  }

  lemma MultisetMembers<T>(a: seq<T>, b: seq<T>)
    requires multiset(a) == multiset(b)
    ensures forall x :: x in a <==> x in b
  {
    forall x ensures x in a <==> x in b {
      assert x in a <==> x in multiset(a);
      assert x in b <==> x in multiset(b);
    }
  }

  /** `xs.slice(0, n)` */
  function Take<T>(s: seq<T>, n: nat): (r: seq<T>)
    ensures |r| <= n && |r| <= |s|
    ensures |r| == if |s| < n then |s| else n
    ensures r == s[..|r|]
  {
    if |s| <= n then s else s[..n]
  }

  /** `a` is obtained from `b` by deleting elements, keeping the order of the rest. */
  predicate IsSubsequence<T(==)>(a: seq<T>, b: seq<T>)
    decreases |b|
  {
    if a == [] then true
    else if b == [] then false
    else (a[0] == b[0] && IsSubsequence(a[1..], b[1..])) || IsSubsequence(a, b[1..])
  }
}
