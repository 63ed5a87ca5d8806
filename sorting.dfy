/** A stable sort by an integer key: the reference for Python's `list.sort(key=...)`
    and for SQL `ORDER BY` on one column. */
module Sorting {

  predicate SortedBy<T>(s: seq<T>, key: T -> int) {
    forall i, j :: 0 <= i < j < |s| ==> key(s[i]) <= key(s[j])
  }

  /** The elements of `s` whose key is `k`, in their order in `s`. */
  function WithKey<T>(s: seq<T>, key: T -> int, k: int): seq<T> {
    if |s| == 0 then []
    else (if key(s[0]) == k then [s[0]] else []) + WithKey(s[1..], key, k)
  }

  /** Puts `x` after every element whose key is not larger than its own. */
  function Insert<T>(x: T, s: seq<T>, key: T -> int): seq<T> {
    if |s| == 0 then [x]
    else if key(x) < key(s[0]) then [x] + s
    else [s[0]] + Insert(x, s[1..], key)
  }

  /** Insertion sort, taking the elements in order: equal keys keep their order. */
  function SortBy<T>(s: seq<T>, key: T -> int): seq<T> {
    if |s| == 0 then [] else Insert(s[|s| - 1], SortBy(s[..|s| - 1], key), key)
  }

  /** Inserting keeps every element and adds `x`. */
  lemma {:induction false} InsertMultiset<T>(x: T, s: seq<T>, key: T -> int)
    ensures multiset(Insert(x, s, key)) == multiset(s) + multiset{x}
    decreases |s|
  {
    if |s| > 0 && key(x) >= key(s[0]) {
      InsertMultiset(x, s[1..], key);
      assert s == [s[0]] + s[1..];
    }
  }

  /** Inserting into a sorted sequence keeps it sorted. */
  lemma {:induction false} InsertSorted<T>(x: T, s: seq<T>, key: T -> int)
    requires SortedBy(s, key)
    ensures SortedBy(Insert(x, s, key), key)
    decreases |s|
  {
    if |s| == 0 {
    } else if key(x) < key(s[0]) {
      forall y | y in s ensures key(x) <= key(y) {
        var i :| 0 <= i < |s| && s[i] == y;
        assert key(s[0]) <= key(s[i]);
      }
      SortedCons(x, s, key);
    } else {
      var rest := Insert(x, s[1..], key);
      SortedSuffix(s, key, 1);
      InsertSorted(x, s[1..], key);
      InsertMultiset(x, s[1..], key);
      forall y | y in rest ensures key(s[0]) <= key(y) {
        assert y in multiset(rest);
        if y != x {
          assert y in multiset(s[1..]);
          var i :| 0 <= i < |s[1..]| && s[1..][i] == y;
          assert key(s[0]) <= key(s[i + 1]);
        }
      }
      SortedCons(s[0], rest, key);
    }
  }

  /** A sorted sequence stays sorted with an element in front whose key is
      no larger than any of its own. */
  lemma SortedCons<T>(h: T, t: seq<T>, key: T -> int)
    requires SortedBy(t, key)
    requires forall y | y in t :: key(h) <= key(y)
    ensures SortedBy([h] + t, key)
  {
    var r := [h] + t;
    forall a, b | 0 <= a < b < |r| ensures key(r[a]) <= key(r[b]) {
      assert r[b] == t[b - 1];
      if a > 0 {
        assert r[a] == t[a - 1];
      } else {
        assert t[b - 1] in t;
      }
    }
  }

  lemma {:induction false} WithKeyConcat<T>(a: seq<T>, b: seq<T>, key: T -> int, k: int)
    ensures WithKey(a + b, key, k) == WithKey(a, key, k) + WithKey(b, key, k)
    decreases |a|
  {
    if |a| > 0 {
      var h := if key(a[0]) == k then [a[0]] else [];
      assert (a + b)[0] == a[0];
      assert (a + b)[1..] == a[1..] + b;
      WithKeyConcat(a[1..], b, key, k);
      assert WithKey(a + b, key, k) == h + WithKey(a[1..] + b, key, k);
      assert WithKey(a, key, k) == h + WithKey(a[1..], key, k);
    } else {
      assert a + b == b;
    }
  }

  /** In a sorted sequence whose first key exceeds `k`, no element has key `k`. */
  lemma {:induction false} WithKeyAbove<T>(s: seq<T>, key: T -> int, k: int)
    requires SortedBy(s, key)
    requires |s| > 0 ==> k < key(s[0])
    ensures WithKey(s, key, k) == []
    decreases |s|
  {
    if |s| > 0 {
      WithKeyAbove(s[1..], key, k);
    }
  }

  /** Inserting adds `x` after the elements that already have its key. */
  lemma {:induction false} InsertWithKey<T>(x: T, s: seq<T>, key: T -> int, k: int)
    requires SortedBy(s, key)
    ensures WithKey(Insert(x, s, key), key, k)
         == WithKey(s, key, k) + (if key(x) == k then [x] else [])
    decreases |s|
  {
    if |s| == 0 {
    } else if key(x) < key(s[0]) {
      FrontWithKey(x, s, key, k);
    } else {
      SortedSuffix(s, key, 1);
      InsertWithKey(x, s[1..], key, k);
      PastFrontWithKey(x, s, key, k);
    }
  }

  /** Past the first element, the keys of `s[0]` and `x` keep their order. */
  lemma PastFrontWithKey<T>(x: T, s: seq<T>, key: T -> int, k: int)
    requires |s| > 0 && key(x) >= key(s[0])
    requires WithKey(Insert(x, s[1..], key), key, k)
          == WithKey(s[1..], key, k) + (if key(x) == k then [x] else [])
    ensures WithKey(Insert(x, s, key), key, k)
         == WithKey(s, key, k) + (if key(x) == k then [x] else [])
  {
    var h := if key(s[0]) == k then [s[0]] else [];
    var hx := if key(x) == k then [x] else [];
    var w := WithKey(s[1..], key, k);
    ConsWithKey(s[0], Insert(x, s[1..], key), key, k);
    assert h + (w + hx) == (h + w) + hx;
  }

  lemma ConsWithKey<T>(h: T, t: seq<T>, key: T -> int, k: int)
    ensures WithKey([h] + t, key, k) == (if key(h) == k then [h] else []) + WithKey(t, key, k)
  {
    assert ([h] + t)[1..] == t;
  }

  /** An element placed before a sorted sequence of larger keys is the only
      one with its key. */
  lemma FrontWithKey<T>(x: T, s: seq<T>, key: T -> int, k: int)
    requires SortedBy(s, key) && |s| > 0 && key(x) < key(s[0])
    ensures WithKey([x] + s, key, k) == WithKey(s, key, k) + (if key(x) == k then [x] else [])
  {
    assert ([x] + s)[1..] == s;
    if key(x) == k {
      WithKeyAbove(s, key, k);
    }
  }

  lemma SortedSuffix<T>(s: seq<T>, key: T -> int, j: nat)
    requires SortedBy(s, key) && j <= |s|
    ensures SortedBy(s[j..], key)
  {
    forall a, b | 0 <= a < b < |s| - j ensures key(s[j..][a]) <= key(s[j..][b]) {
      assert s[j..][a] == s[j + a] && s[j..][b] == s[j + b];
    }
  }

  lemma {:induction false} WithKeyAppend<T>(s: seq<T>, x: T, key: T -> int, k: int)
    ensures WithKey(s + [x], key, k) == WithKey(s, key, k) + (if key(x) == k then [x] else [])
  {
    WithKeyConcat(s, [x], key, k);
  }

  /** `SortBy` orders by key, keeps every element, and keeps the input order
      among the elements of each key: it is Python's stable `sort`. */
  lemma {:induction false} SortByCorrect<T>(s: seq<T>, key: T -> int)
    ensures SortedBy(SortBy(s, key), key)
    ensures multiset(SortBy(s, key)) == multiset(s)
    ensures |SortBy(s, key)| == |s|
    ensures forall k :: WithKey(SortBy(s, key), key, k) == WithKey(s, key, k)
    decreases |s|
  {
    if |s| > 0 {
      var init, last := s[..|s| - 1], s[|s| - 1];
      assert s == init + [last];
      SortByCorrect(init, key);
      InsertSorted(last, SortBy(init, key), key);
      InsertMultiset(last, SortBy(init, key), key);
      forall k ensures WithKey(SortBy(s, key), key, k) == WithKey(s, key, k) {
        InsertWithKey(last, SortBy(init, key), key, k);
        WithKeyAppend(init, last, key, k);
      }
    }
  }

  /** Inserting into a sorted sequence is splicing at the first larger key. */
  lemma {:induction false} InsertAt<T>(x: T, s: seq<T>, key: T -> int, j: nat)
    requires j <= |s|
    requires forall i :: 0 <= i < j ==> key(s[i]) <= key(x)
    requires forall i :: j <= i < |s| ==> key(x) < key(s[i])
    ensures Insert(x, s, key) == s[..j] + [x] + s[j..]
    decreases |s|
  {
    if |s| > 0 && j > 0 {
      InsertAt(x, s[1..], key, j - 1);
      assert s[..j] == [s[0]] + s[1..][..j - 1];
    }
  }

  /** A stable sort leaves in front an element that no other element's key
      undercuts, since it was first among the elements with the least key. */
  lemma StableFirst<T>(s: seq<T>, key: T -> int)
    requires |s| > 0
    requires forall i :: 0 <= i < |s| ==> key(s[0]) <= key(s[i])
    ensures |SortBy(s, key)| > 0 && SortBy(s, key)[0] == s[0]
  {
    var c := SortBy(s, key);
    var k := key(s[0]);
    SortByCorrect(s, key);
    assert c[0] in multiset(s);
    assert key(c[0]) >= k;
    assert s[0] in multiset(c);
    var j :| 0 <= j < |c| && c[j] == s[0];
    assert key(c[0]) <= key(c[j]);
    assert WithKey(c, key, k) == WithKey(s, key, k);
    assert WithKey(s, key, k) == [s[0]] + WithKey(s[1..], key, k);
    assert WithKey(c, key, k) == [c[0]] + WithKey(c[1..], key, k);
  }
}
