/** Insertion into a sequence sorted by a numeric key, after the elements with the same key. */
module Sorting {
  ghost predicate SortedBy<T(!new)>(s: seq<T>, key: T -> nat) {
    forall i, j :: 0 <= i < j < |s| ==> key(s[i]) <= key(s[j])
  }

  /** The elements with a given key, in order. */
  ghost function WithKey<T(!new)>(s: seq<T>, key: T -> nat, k: nat): seq<T> {
    if s == [] then []
    else WithKey(s[..|s| - 1], key, k) + (if key(s[|s| - 1]) == k then [s[|s| - 1]] else [])
  }

  lemma {:induction false} WithKeyConcat<T(!new)>(a: seq<T>, b: seq<T>, key: T -> nat, k: nat)
    ensures WithKey(a + b, key, k) == WithKey(a, key, k) + WithKey(b, key, k)
  {
    if b == [] {
      assert a + b == a;
    } else {
      assert (a + b)[..|a + b| - 1] == a + b[..|b| - 1];
      WithKeyConcat(a, b[..|b| - 1], key, k);
    }
  }

  lemma {:induction false} NoneWithKey<T(!new)>(s: seq<T>, key: T -> nat, k: nat)
    requires forall x :: x in s ==> key(x) != k
    ensures WithKey(s, key, k) == []
  {
    if s != [] {
      NoneWithKey(s[..|s| - 1], key, k);
    }
  }

  lemma InsertedLast<T(!new)>(s: seq<T>, x: T, i: nat, key: T -> nat, k: nat)
    requires SortedBy(s, key) && i <= |s| && (i < |s| ==> key(s[i]) > key(x))
    ensures WithKey(s[..i] + [x] + s[i..], key, k) == WithKey(s, key, k) + (if key(x) == k then [x] else [])
  {
    assert s == s[..i] + s[i..];
    WithKeyConcat(s[..i], s[i..], key, k);
    WithKeyConcat(s[..i] + [x], s[i..], key, k);
    WithKeyConcat(s[..i], [x], key, k);
    assert [x][..0] == [];
    if key(x) == k {
      NoneWithKey(s[i..], key, k);
    }
  }

  method Insert<T(!new)>(s: seq<T>, x: T, key: T -> nat) returns (r: seq<T>)
    requires SortedBy(s, key)
    ensures SortedBy(r, key) && multiset(r) == multiset(s) + multiset{x}
    ensures forall k :: WithKey(r, key, k) == WithKey(s, key, k) + (if key(x) == k then [x] else [])
  {
    var i := |s|;
    while i > 0 && key(s[i - 1]) > key(x)
      invariant 0 <= i <= |s|
      invariant i < |s| ==> key(s[i]) > key(x)
    {
      i := i - 1;
    }
    r := s[..i] + [x] + s[i..];
    Elements(s, x, i);
    Ordered(s, x, i, r, key);
    forall k ensures WithKey(r, key, k) == WithKey(s, key, k) + (if key(x) == k then [x] else []) {
      InsertedLast(s, x, i, key, k);
    }
  }

  lemma Elements<T(!new)>(s: seq<T>, x: T, i: nat)
    requires i <= |s|
    ensures multiset(s[..i] + [x] + s[i..]) == multiset(s) + multiset{x}
  {
    assert s == s[..i] + s[i..];
  }

  lemma Ordered<T(!new)>(s: seq<T>, x: T, i: nat, r: seq<T>, key: T -> nat)
    requires SortedBy(s, key) && i <= |s| && |r| == |s| + 1
    requires i > 0 ==> key(s[i - 1]) <= key(x)
    requires i < |s| ==> key(s[i]) >= key(x)
    requires r[..i] == s[..i] && r[i] == x && r[i + 1..] == s[i..]
    ensures SortedBy(r, key)
  {
    forall j | 0 <= j < i ensures r[j] == s[j] && key(s[j]) <= key(x) {
      assert r[j] == r[..i][j];
    }
    forall j | i < j < |r| ensures r[j] == s[j - 1] && key(x) <= key(s[j - 1]) {
      assert r[j] == r[i + 1..][j - i - 1] && s[j - 1] == s[i..][j - i - 1];
    }
  }

  /** Insertion sort by key; elements with the same key stay in their order. */
  method Sort<T(!new)>(s: seq<T>, key: T -> nat) returns (r: seq<T>)
    ensures SortedBy(r, key) && multiset(r) == multiset(s)
    ensures forall k :: WithKey(r, key, k) == WithKey(s, key, k)
  {
    r := [];
    for i := 0 to |s|
      invariant SortedBy(r, key) && multiset(r) == multiset(s[..i])
      invariant forall k :: WithKey(r, key, k) == WithKey(s[..i], key, k)
    {
      assert s[..i + 1] == s[..i] + [s[i]];
      assert s[..i + 1][..i] == s[..i];
      r := Insert(r, s[i], key);
    }
    assert s[..|s|] == s;
  }
}
