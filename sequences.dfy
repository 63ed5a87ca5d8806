/** Lists without repetition: appending only what is absent, as the label
    updates and the pull-request de-duplication do. */
module Sequences {

  predicate NoDuplicates<T(==,!new)>(s: seq<T>) {
    forall i, j :: 0 <= i < j < |s| ==> s[i] != s[j]
  }

  /** Appends each element of `add`, in order, unless it is already present:
      the `if x not in lst: lst.append(x)` loop. */
  function AppendAbsent<T(==,!new)>(current: seq<T>, add: seq<T>): (r: seq<T>)
    ensures |current| <= |r| <= |current| + |add|
    ensures r[..|current|] == current
    ensures forall x :: x in r <==> x in current || x in add
    ensures forall i :: |current| <= i < |r| ==> r[i] !in current
    ensures NoDuplicates(current) ==> NoDuplicates(r)
    decreases |add|
  {
    if |add| == 0 then current
    else
      var r0 := AppendAbsent(current, add[..|add| - 1]);
      var x := add[|add| - 1];
      assert forall y :: y in add <==> y in add[..|add| - 1] || y == x;
      if x in r0 then r0
      else
        var r := r0 + [x];
        assert r[..|current|] == r0[..|current|];
        assert forall y :: y in r <==> y in r0 || y == x;
        r
  }

  /** De-duplication keeping first occurrences. */
  function Dedup<T(==,!new)>(s: seq<T>): (r: seq<T>)
    ensures NoDuplicates(r)
    ensures forall x :: x in r <==> x in s
    ensures |r| <= |s|
  {
    AppendAbsent([], s)
  }

  /** Appending what is absent a second time changes nothing. */
  lemma {:induction false} AppendAbsentIdempotent<T(!new)>(current: seq<T>, add: seq<T>)
    ensures AppendAbsent(AppendAbsent(current, add), add) == AppendAbsent(current, add)
  {
    var r := AppendAbsent(current, add);
    AppendAbsentPresent(r, add);
  }

  /** When everything to add is already present, nothing is appended. */
  lemma {:induction false} AppendAbsentPresent<T(!new)>(current: seq<T>, add: seq<T>)
    requires forall x :: x in add ==> x in current
    ensures AppendAbsent(current, add) == current
    decreases |add|
  {
    if |add| > 0 {
      assert forall x :: x in add[..|add| - 1] ==> x in add;
      AppendAbsentPresent(current, add[..|add| - 1]);
      assert add[|add| - 1] in add;
    }
  }

  /** A list without repetition is its own de-duplication. */
  lemma DedupNoDuplicates<T(!new)>(s: seq<T>)
    requires NoDuplicates(s)
    ensures Dedup(s) == s
  {
    DedupPrefix(s, |s|);
    assert s[..|s|] == s;
  }

  lemma {:induction false} DedupPrefix<T(!new)>(s: seq<T>, n: nat)
    requires NoDuplicates(s) && n <= |s|
    ensures AppendAbsent([], s[..n]) == s[..n]
  {
    if n > 0 {
      DedupPrefix(s, n - 1);
      assert s[..n][..n - 1] == s[..n - 1];
      assert s[n - 1] !in s[..n - 1];
      assert s[..n] == s[..n - 1] + [s[n - 1]];
    }
  }

  /** Two equal elements at different places are counted twice. */
  lemma DuplicateCount<T>(s: seq<T>, i: nat, j: nat)
    ensures i < j < |s| && s[i] == s[j] ==> multiset(s)[s[i]] >= 2
  {
    if i < j < |s| && s[i] == s[j] {
      assert s == s[..j] + s[j..];
      assert s[i] == s[..j][i];
      assert s[j] == s[j..][0];
    }
  }

  /** Without repetition, every element is counted once. */
  lemma {:induction false} DistinctCount<T(!new)>(s: seq<T>)
    requires NoDuplicates(s)
    ensures forall x :: multiset(s)[x] <= 1
    decreases |s|
  {
    if |s| > 0 {
      var init, last := s[..|s| - 1], s[|s| - 1];
      assert s == init + [last];
      DistinctCount(init);
      assert last !in init;
    }
  }

  /** A rearrangement of a list without repetition has none either. */
  lemma PermutationDistinct<T(!new)>(s: seq<T>, t: seq<T>)
    requires NoDuplicates(s) && multiset(s) == multiset(t)
    ensures NoDuplicates(t)
  {
    DistinctCount(s);
    forall i, j | 0 <= i < j < |t| ensures t[i] != t[j] {
      DuplicateCount(t, i, j);
    }
  }

  /** The elements of `s` that are not in `excluded`, in their order. */
  function Without<T(==,!new)>(s: seq<T>, excluded: seq<T>): (r: seq<T>)
    ensures |r| <= |s|
    ensures forall x :: x in r <==> x in s && x !in excluded
  {
    if |s| == 0 then []
    else
      var r0 := Without(s[..|s| - 1], excluded);
      var x := s[|s| - 1];
      assert forall y :: y in s <==> y in s[..|s| - 1] || y == x;
      if x in excluded then r0 else r0 + [x]
  }

  /** Over a list without repetition, appending what is absent keeps exactly
      the new elements, in their order. */
  lemma {:induction false} AppendAbsentDistinct<T(!new)>(current: seq<T>, add: seq<T>)
    requires NoDuplicates(add)
    ensures AppendAbsent(current, add) == current + Without(add, current)
    decreases |add|
  {
    if |add| > 0 {
      var init, x := add[..|add| - 1], add[|add| - 1];
      AppendAbsentDistinct(current, init);
      assert x !in init;
    }
  }
}
