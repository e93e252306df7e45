/**
 The sorting of the Go library (sort.Sort, sort.Strings, sort.Slice), which is not stable: a
 sort returns SOME rearrangement in which no later element is less than an earlier one.  What
 is proved below of a caller holds whichever rearrangement it gets.
 */
module Sorting {

  ghost predicate StrictWeakOrder<T(!new)>(less: (T, T) -> bool) {
    && (forall a, b :: less(a, b) ==> !less(b, a))
    && (forall a, b, c :: less(a, c) ==> less(a, b) || less(b, c))
  }

  predicate InOrder<T>(s: seq<T>, less: (T, T) -> bool) {
    forall i, j :: 0 <= i < j < |s| ==> !less(s[j], s[i])
  }

  predicate SortOf<T(==)>(r: seq<T>, s: seq<T>, less: (T, T) -> bool) {
    multiset(r) == multiset(s) && InOrder(r, less)
  }

  lemma NotLess<T(!new)>(less: (T, T) -> bool, a: T, b: T, c: T)
    requires StrictWeakOrder(less) && !less(a, b) && !less(b, c)
    ensures !less(a, c)
  {}

  lemma Asymmetric<T(!new)>(less: (T, T) -> bool, a: T, b: T)
    requires StrictWeakOrder(less) && less(a, b)
    ensures !less(b, a)
  {}

  lemma InsertAt<T>(s: seq<T>, x: T, k: nat, less: (T, T) -> bool)
    requires InOrder(s, less) && k <= |s|
    requires forall i :: 0 <= i < k ==> !less(x, s[i])
    requires forall i :: k <= i < |s| ==> !less(s[i], x)
    ensures SortOf(s[..k] + [x] + s[k..], s + [x], less)
  {
    var r := s[..k] + [x] + s[k..];
    forall i, j | 0 <= i < j < |r| ensures !less(r[j], r[i]) {
      if i != k && j != k {
        assert r[i] == s[if i < k then i else i - 1] && r[j] == s[if j < k then j else j - 1];
      }
    }
    assert s == s[..k] + s[k..];
  }

  /** `x` goes before the trailing elements it is less than. */
  lemma FindSlot<T(!new)>(s: seq<T>, x: T, less: (T, T) -> bool) returns (k: nat)
    requires StrictWeakOrder(less) && InOrder(s, less)
    ensures k <= |s|
    ensures forall i :: 0 <= i < k ==> !less(x, s[i])
    ensures forall i :: k <= i < |s| ==> !less(s[i], x)
  {
    k := |s|;
    while k > 0 && less(x, s[k - 1])
      invariant 0 <= k <= |s|
      invariant forall j :: k <= j < |s| ==> !less(s[j], x)
    {
      Asymmetric(less, x, s[k - 1]);
      k := k - 1;
    }
    forall i | 0 <= i < k ensures !less(x, s[i]) {
      if i < k - 1 {
        NotLess(less, x, s[k - 1], s[i]);
      }
    }
  }

  /** Every sequence has a sort. */
  lemma {:induction false} SortExists<T(!new)>(s: seq<T>, less: (T, T) -> bool)
    requires StrictWeakOrder(less)
    ensures exists r :: SortOf(r, s, less)
  {
    if s == [] {
      assert SortOf([], s, less);
    } else {
      SortExists(s[..|s| - 1], less);
      var r :| SortOf(r, s[..|s| - 1], less);
      var k := FindSlot(r, s[|s| - 1], less);
      InsertAt(r, s[|s| - 1], k, less);
      assert s == s[..|s| - 1] + [s[|s| - 1]];
      assert SortOf(r[..k] + [s[|s| - 1]] + r[k..], s, less);
    }
  }

  // ---- distinct elements ----

  lemma HeadIn<T>(s: seq<T>)
    requires s != []
    ensures s[0] in s && s[0] in multiset(s)
  {}

  lemma TwiceIn<T>(s: seq<T>, i: nat, j: nat)
    requires i < j < |s| && s[i] == s[j]
    ensures multiset(s)[s[i]] >= 2
  {
    assert s == s[..i] + [s[i]] + s[i + 1..j] + [s[j]] + s[j + 1..];
  }

  lemma {:induction false} AtMostOnce<T>(s: seq<T>, x: T)
    requires forall i, j :: 0 <= i < j < |s| ==> s[i] != s[j]
    ensures multiset(s)[x] <= 1
  {
    if s != [] {
      AtMostOnce(s[..|s| - 1], x);
      assert s == s[..|s| - 1] + [s[|s| - 1]];
      if s[|s| - 1] == x {
        assert x !in s[..|s| - 1];
      }
    }
  }

  // ---- strings ----

  predicate StringLess(a: string, b: string) {
    if b == "" then false
    else if a == "" then true
    else if a[0] != b[0] then a[0] < b[0]
    else StringLess(a[1..], b[1..])
  }

  lemma {:induction false} StringAsymmetric(a: string, b: string)
    requires StringLess(a, b)
    ensures !StringLess(b, a)
  {
    if a != "" && a[0] == b[0] {
      StringAsymmetric(a[1..], b[1..]);
    }
  }

  lemma {:induction false} StringBetween(a: string, b: string, c: string)
    requires StringLess(a, c)
    ensures StringLess(a, b) || StringLess(b, c)
  {
    if a != "" && b != "" && a[0] == c[0] == b[0] {
      StringBetween(a[1..], b[1..], c[1..]);
    }
  }

  lemma {:induction false} StringConnected(a: string, b: string)
    requires !StringLess(a, b) && !StringLess(b, a)
    ensures a == b
  {
    if a != "" && b != "" {
      StringConnected(a[1..], b[1..]);
    }
  }

  lemma StringOrder()
    ensures StrictWeakOrder(StringLess)
  {
    forall a, b | StringLess(a, b) ensures !StringLess(b, a) {
      StringAsymmetric(a, b);
    }
    forall a, b, c | StringLess(a, c) ensures StringLess(a, b) || StringLess(b, c) {
      StringBetween(a, b, c);
    }
  }

  // ---- the keys of a map ----

  /** The keys of a map, in whatever order the iteration yields them. */
  method KeysOf<V>(m: map<string, V>) returns (keys: seq<string>)
    ensures forall key :: key in keys <==> key in m
    ensures forall i, j :: 0 <= i < j < |keys| ==> keys[i] != keys[j]
  {
    keys := [];
    var left := m.Keys;
    while left != {}
      invariant forall key :: key in keys || key in left <==> key in m
      invariant forall key :: key in keys ==> key !in left
      invariant forall i, j :: 0 <= i < j < |keys| ==> keys[i] != keys[j]
      decreases left
    {
      var k :| k in left;
      keys := keys + [k];
      left := left - {k};
    }
  }

  lemma SortedKeys(found: seq<string>, sorted: seq<string>)
    requires multiset(found) == multiset(sorted)
    requires forall i, j :: 0 <= i < j < |found| ==> found[i] != found[j]
    ensures forall key :: key in sorted <==> key in found
    ensures forall i, j :: 0 <= i < j < |sorted| ==> sorted[i] != sorted[j]
  {
    forall key ensures key in sorted <==> key in found {
      assert key in sorted <==> key in multiset(sorted);
      assert key in found <==> key in multiset(found);
    }
    forall i, j | 0 <= i < j < |sorted| ensures sorted[i] != sorted[j] {
      if sorted[i] == sorted[j] {
        TwiceIn(sorted, i, j);
        AtMostOnce(found, sorted[i]);
      }
    }
  }
}
