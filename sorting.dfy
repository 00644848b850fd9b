/**
 * Stable sorting by an integer key. `Array.prototype.sort` is stable, so with a comparator of the
 * form `(a, b) => key(a) - key(b)` its result is the stable ascending sort by `key`; `SortByKey`
 * is that sort, written as an insertion sort.
 */
module Sorting {

  /** `s` is in ascending order of `key`. */
  ghost predicate SortedBy<T>(s: seq<T>, key: T -> int) {
    forall i, j :: 0 <= i < j < |s| ==> key(s[i]) <= key(s[j])
  }

  /** The elements of `s` whose key is `k`, in their order in `s`. */
  function WithKey<T>(s: seq<T>, key: T -> int, k: int): seq<T> {
    if s == [] then [] else (if key(s[0]) == k then [s[0]] else []) + WithKey(s[1..], key, k)
  }

  /** `x` placed before the first element whose key is not smaller than its own. */
  function Insert<T>(x: T, s: seq<T>, key: T -> int): (r: seq<T>)
    ensures |r| == |s| + 1
    ensures multiset(r) == multiset(s) + multiset{x}
  {
    if s == [] then [x]
    else if key(x) <= key(s[0]) then [x] + s
    else
      assert s == [s[0]] + s[1..];
      [s[0]] + Insert(x, s[1..], key)
  }

  /** A lower bound on the keys of `s` and of `x` bounds the keys after insertion. */
  lemma {:induction false} InsertBound<T>(x: T, s: seq<T>, key: T -> int, b: int)
    requires b <= key(x)
    requires forall i :: 0 <= i < |s| ==> b <= key(s[i])
    ensures forall i :: 0 <= i < |s| + 1 ==> b <= key(Insert(x, s, key)[i])
  {
    if s != [] && key(x) > key(s[0]) {
      InsertBound(x, s[1..], key, b);
    }
  }

  /** An element no larger than every element of an ordered sequence can be put in front of it. */
  lemma SortedCons<T>(h: T, t: seq<T>, key: T -> int)
    requires SortedBy(t, key)
    requires forall i :: 0 <= i < |t| ==> key(h) <= key(t[i])
    ensures SortedBy([h] + t, key)
  {
    var r := [h] + t;
    forall i, j | 0 <= i < j < |r| ensures key(r[i]) <= key(r[j]) {
      assert r[j] == t[j - 1];
      if i > 0 {
        assert r[i] == t[i - 1];
      }
    }
  }

  /** Insertion into an ordered sequence keeps it ordered. */
  lemma {:induction false} InsertSorted<T>(x: T, s: seq<T>, key: T -> int)
    requires SortedBy(s, key)
    ensures SortedBy(Insert(x, s, key), key)
  {
    if s == [] {
      assert Insert(x, s, key) == [x];
    } else if key(x) <= key(s[0]) {
      assert Insert(x, s, key) == [x] + s;
      SortedCons(x, s, key);
    } else {
      var t := Insert(x, s[1..], key);
      assert Insert(x, s, key) == [s[0]] + t;
      assert SortedBy(s[1..], key);
      assert forall i :: 0 <= i < |s[1..]| ==> key(s[0]) <= key(s[1..][i]);
      InsertSorted(x, s[1..], key);
      InsertBound(x, s[1..], key, key(s[0]));
      SortedCons(s[0], t, key);
    }
  }

  /** The stable ascending sort of `s` by `key`. */
  function SortByKey<T>(s: seq<T>, key: T -> int): (r: seq<T>)
    ensures SortedBy(r, key)
    ensures multiset(r) == multiset(s)
  {
    if s == [] then []
    else
      assert s == [s[0]] + s[1..];
      InsertSorted(s[0], SortByKey(s[1..], key), key);
      Insert(s[0], SortByKey(s[1..], key), key)
  }

  lemma {:induction false} WithKeyAppend<T>(a: seq<T>, b: seq<T>, key: T -> int, k: int)
    ensures WithKey(a + b, key, k) == WithKey(a, key, k) + WithKey(b, key, k)
  {
    if a != [] {
      assert (a + b)[0] == a[0];
      assert (a + b)[1..] == a[1..] + b;
      WithKeyAppend(a[1..], b, key, k);
    } else {
      assert a + b == b;
    }
  }

  lemma WithKeyCons<T>(h: T, t: seq<T>, key: T -> int, k: int)
    ensures WithKey([h] + t, key, k) == (if key(h) == k then [h] else []) + WithKey(t, key, k)
  {
    assert ([h] + t)[1..] == t;
  }

  /** Inserting `x` adds it to the front of its own key's elements and moves no one else. */
  lemma {:induction false} InsertWithKey<T>(x: T, s: seq<T>, key: T -> int, k: int)
    ensures WithKey(Insert(x, s, key), key, k)
         == (if key(x) == k then [x] else []) + WithKey(s, key, k)
  {
    if s == [] {
      assert Insert(x, s, key) == [x] + s;
      WithKeyCons(x, s, key, k);
    } else if key(x) <= key(s[0]) {
      assert Insert(x, s, key) == [x] + s;
      WithKeyCons(x, s, key, k);
    } else {
      var t := Insert(x, s[1..], key);
      var mx := if key(x) == k then [x] else [];
      var ms := if key(s[0]) == k then [s[0]] else [];
      assert Insert(x, s, key) == [s[0]] + t;
      InsertWithKey(x, s[1..], key, k);
      WithKeyCons(s[0], t, key, k);
      assert WithKey(s, key, k) == ms + WithKey(s[1..], key, k);
      SwapFront(ms, mx, WithKey(s[1..], key, k));
    }
  }

  /** Two pieces of which one is empty can be swapped. */
  lemma SwapFront<T>(a: seq<T>, b: seq<T>, w: seq<T>)
    requires a == [] || b == []
    ensures a + (b + w) == b + (a + w)
  {
    if a == [] {
      assert a + (b + w) == b + w;
      assert a + w == w;
    } else {
      assert b + w == w;
      assert b + (a + w) == a + w;
    }
  }

  /** Stability: the elements that share a key keep their relative order. */
  lemma {:induction false} SortStable<T>(s: seq<T>, key: T -> int, k: int)
    ensures WithKey(SortByKey(s, key), key, k) == WithKey(s, key, k)
  {
    if s != [] {
      SortStable(s[1..], key, k);
      InsertWithKey(s[0], SortByKey(s[1..], key), key, k);
    }
  }

  /** When every element has the same key, sorting changes nothing. */
  lemma {:induction false} SortEqualKeys<T>(s: seq<T>, key: T -> int, c: int)
    requires forall i :: 0 <= i < |s| ==> key(s[i]) == c
    ensures SortByKey(s, key) == s
  {
    if s != [] {
      SortEqualKeys(s[1..], key, c);
    }
  }

  lemma {:induction false} WithKeyMember<T>(s: seq<T>, key: T -> int, k: int, x: T)
    ensures x in WithKey(s, key, k) <==> x in s && key(x) == k
  {
    if s != [] {
      WithKeyMember(s[1..], key, k, x);
      assert s == [s[0]] + s[1..];
    }
  }

  /**
   * A stable sort has only one possible result: any ordering by `key` that keeps, for every key,
   * the elements with that key in their input order is `SortByKey(s, key)`.
   */
  lemma {:induction false} StableSortUnique<T>(s: seq<T>, r: seq<T>, key: T -> int)
    requires SortedBy(r, key)
    requires forall k :: WithKey(r, key, k) == WithKey(s, key, k)
    ensures r == SortByKey(s, key)
  {
    var q := SortByKey(s, key);
    forall k ensures WithKey(r, key, k) == WithKey(q, key, k) {
      SortStable(s, key, k);
    }
    SameKeyGroupsSame(r, q, key);
  }

  lemma {:induction false} SameKeyGroupsSame<T>(r: seq<T>, q: seq<T>, key: T -> int)
    requires SortedBy(r, key) && SortedBy(q, key)
    requires forall k :: WithKey(r, key, k) == WithKey(q, key, k)
    ensures r == q
    decreases |r| + |q|
  {
    LeastFirst(r, key);
    LeastFirst(q, key);
    if q != [] {
      forall k ensures WithKey(q, key, k) == WithKey(r, key, k) {
      }
      HeadsSame(q, r, key);
    }
    if r != [] {
      HeadsSame(r, q, key);
      TailGroupsSame(r, q, key);
      SortedTail(r, key);
      SortedTail(q, key);
      SameKeyGroupsSame(r[1..], q[1..], key);
      assert r == [r[0]] + r[1..] && q == [q[0]] + q[1..];
    }
  }

  /** An ordered sequence starts with a least key. */
  lemma LeastFirst<T>(s: seq<T>, key: T -> int)
    requires SortedBy(s, key)
    ensures forall j :: 0 <= j < |s| ==> s != [] && key(s[0]) <= key(s[j])
  {
    forall j | 0 <= j < |s| ensures key(s[0]) <= key(s[j]) {
      if j > 0 {
        assert key(s[0]) <= key(s[j]);
      }
    }
  }

  /** The tail of an ordered sequence is ordered. */
  lemma SortedTail<T>(s: seq<T>, key: T -> int)
    requires s != [] && SortedBy(s, key)
    ensures SortedBy(s[1..], key)
  {
    forall i, j | 0 <= i < j < |s| - 1 ensures key(s[1..][i]) <= key(s[1..][j]) {
      assert s[1..][i] == s[i + 1] && s[1..][j] == s[j + 1];
    }
  }

  /** Two sequences that each start with a least key and have the same key groups start with the same element. */
  lemma HeadsSame<T>(r: seq<T>, q: seq<T>, key: T -> int)
    requires r != []
    requires forall j :: 0 <= j < |r| ==> r != [] && key(r[0]) <= key(r[j])
    requires forall j :: 0 <= j < |q| ==> q != [] && key(q[0]) <= key(q[j])
    requires forall k :: WithKey(r, key, k) == WithKey(q, key, k)
    ensures q != [] && r[0] == q[0]
  {
    var kr := key(r[0]);
    WithKeyHead(r, key);
    WithKeyMember(q, key, kr, r[0]);
    var i :| 0 <= i < |q| && q[i] == r[0];
    var kq := key(q[0]);
    WithKeyHead(q, key);
    WithKeyMember(r, key, kq, q[0]);
    var j :| 0 <= j < |r| && r[j] == q[0];
    assert kq <= kr && kr <= kq;
    var g := WithKey(r, key, kr);
    assert g == WithKey(q, key, kq);
    assert g[0] == r[0];
    assert g[0] == q[0];
  }

  lemma WithKeyHead<T>(s: seq<T>, key: T -> int)
    requires s != []
    ensures WithKey(s, key, key(s[0])) == [s[0]] + WithKey(s[1..], key, key(s[0]))
  {
  }

  /** Two sequences with the same first element and the same key groups have tails with the same key groups. */
  lemma TailGroupsSame<T>(r: seq<T>, q: seq<T>, key: T -> int)
    requires r != [] && q != [] && r[0] == q[0]
    requires forall k :: WithKey(r, key, k) == WithKey(q, key, k)
    ensures forall k :: WithKey(r[1..], key, k) == WithKey(q[1..], key, k)
  {
    forall k ensures WithKey(r[1..], key, k) == WithKey(q[1..], key, k) {
      var a, b := WithKey(r[1..], key, k), WithKey(q[1..], key, k);
      assert WithKey(r, key, k) == WithKey(q, key, k);
      if k == key(r[0]) {
        assert WithKey(r, key, k) == [r[0]] + a;
        assert WithKey(q, key, k) == [q[0]] + b;
        assert ([r[0]] + a)[1..] == a;
        assert ([q[0]] + b)[1..] == b;
      } else {
        assert WithKey(r, key, k) == a;
        assert WithKey(q, key, k) == b;
      }
    }
  }
}
