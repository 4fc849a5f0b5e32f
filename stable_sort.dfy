/**
 * LINQ's `OrderBy(key)`: a stable sort on an integer key. The result is
 * ordered by key, and for every key value the elements carrying it appear in
 * their input order; together these determine the result and make it a
 * permutation of the input.
 */
module StableSort {
  import opened Text

  predicate SortedBy<T>(s: seq<T>, key: T -> int) {
    forall i, j :: 0 <= i < j < |s| ==> key(s[i]) <= key(s[j])
  }

  /** The elements of `s` whose key is `k`, in the order of `s`. */
  function WithKey<T>(s: seq<T>, key: T -> int, k: int): seq<T> {
    if s == [] then [] else (if key(s[0]) == k then [s[0]] else []) + WithKey(s[1..], key, k)
  }

  lemma {:induction false} WithKeyAppend<T>(a: seq<T>, b: seq<T>, key: T -> int, k: int)
    ensures WithKey(a + b, key, k) == WithKey(a, key, k) + WithKey(b, key, k)
  {
    if a == [] {
      assert a + b == b;
    } else {
      var head := if key(a[0]) == k then [a[0]] else [];
      assert a + b == [a[0]] + (a[1..] + b);
      assert a == [a[0]] + a[1..];
      WithKeyCons(a[0], a[1..] + b, key, k);
      WithKeyCons(a[0], a[1..], key, k);
      WithKeyAppend(a[1..], b, key, k);
      AppendAssoc(head, WithKey(a[1..], key, k), WithKey(b, key, k));
    }
  }

  lemma {:induction false} WithKeyAbsent<T>(s: seq<T>, key: T -> int, k: int)
    requires forall i :: 0 <= i < |s| ==> key(s[i]) != k
    ensures WithKey(s, key, k) == []
  {
    if s != [] {
      WithKeyAbsent(s[1..], key, k);
    }
  }

  /** Puts `x` after every leading element of `s` whose key is not larger;
      on a sorted `s` that is its place in the order. */
  function Insert<T>(x: T, s: seq<T>, key: T -> int): (r: seq<T>)
    ensures |r| == |s| + 1
  {
    if s == [] then
      [x]
    else if key(x) < key(s[0]) then
      [x] + s
    else
      assert s == [s[0]] + s[1..];
      [s[0]] + Insert(x, s[1..], key)
  }

  /** Inserting adds `x` and loses nothing. */
  lemma {:induction false} InsertPermutation<T>(x: T, s: seq<T>, key: T -> int)
    ensures multiset(Insert(x, s, key)) == multiset(s) + multiset{x}
  {
    if s != [] && key(s[0]) <= key(x) {
      InsertPermutation(x, s[1..], key);
      assert s == [s[0]] + s[1..];
    }
  }

  lemma {:induction false} InsertSorted<T>(x: T, s: seq<T>, key: T -> int)
    requires SortedBy(s, key)
    ensures SortedBy(Insert(x, s, key), key)
  {
    if s == [] {
    } else if key(x) < key(s[0]) {
      SortedCons(x, s, key);
    } else {
      var tail := Insert(x, s[1..], key);
      InsertSorted(x, s[1..], key);
      InsertLowerBound(x, s[1..], key, key(s[0]));
      InsertBehind(x, s, key);
      SortedCons(s[0], tail, key);
    }
  }

  /** A key bound that holds for `x` and for all of `s` holds for all of the insertion. */
  lemma {:induction false} InsertLowerBound<T>(x: T, s: seq<T>, key: T -> int, lo: int)
    requires lo <= key(x) && forall i :: 0 <= i < |s| ==> lo <= key(s[i])
    ensures forall i :: 0 <= i < |s| + 1 ==> lo <= key(Insert(x, s, key)[i])
  {
    if s != [] && key(s[0]) <= key(x) {
      InsertLowerBound(x, s[1..], key, lo);
      InsertBehind(x, s, key);
      var r := Insert(x, s, key);
      var tail := Insert(x, s[1..], key);
      forall i | 0 <= i < |s| + 1 ensures lo <= key(r[i]) {
        if i > 0 { assert r[i] == tail[i - 1]; }
      }
    }
  }

  /** A sorted list with a head no larger than any of its keys stays sorted. */
  lemma SortedCons<T>(h: T, t: seq<T>, key: T -> int)
    requires SortedBy(t, key)
    requires forall i :: 0 <= i < |t| ==> key(h) <= key(t[i])
    ensures SortedBy([h] + t, key)
  {
    var r := [h] + t;
    forall i, j | 0 <= i < j < |r| ensures key(r[i]) <= key(r[j]) {
      assert r[j] == t[j - 1];
      if i > 0 { assert r[i] == t[i - 1]; }
    }
  }

  /** Among the elements with any one key, `x` lands after the ones already there. */
  lemma {:induction false} InsertWithKey<T>(x: T, s: seq<T>, key: T -> int, k: int)
    requires SortedBy(s, key)
    ensures WithKey(Insert(x, s, key), key, k) == WithKey(s, key, k) + (if key(x) == k then [x] else [])
  {
    var mark := if key(x) == k then [x] else [];
    if s == [] {
      assert Insert(x, s, key) == [x] + s;
      WithKeyCons(x, s, key, k);
    } else if key(x) < key(s[0]) {
      assert Insert(x, s, key) == [x] + s;
      WithKeyCons(x, s, key, k);
      if key(x) == k { WithKeyAbsent(s, key, k); }
    } else {
      assert SortedBy(s[1..], key);
      InsertWithKey(x, s[1..], key, k);
      InsertWithKeyBehind(x, s, key, k);
    }
  }

  /** The step of `InsertWithKey` when `x` goes behind the head. */
  lemma InsertWithKeyBehind<T>(x: T, s: seq<T>, key: T -> int, k: int)
    requires s != [] && key(s[0]) <= key(x)
    requires WithKey(Insert(x, s[1..], key), key, k) == WithKey(s[1..], key, k) + (if key(x) == k then [x] else [])
    ensures WithKey(Insert(x, s, key), key, k) == WithKey(s, key, k) + (if key(x) == k then [x] else [])
  {
    InsertBehind(x, s, key);
    assert s == [s[0]] + s[1..];
    WithKeyBehind(s[0], s[1..], Insert(x, s[1..], key), key, k, if key(x) == k then [x] else []);
  }

  /** When `x` is not smaller than the head, the head stays in front. */
  lemma InsertBehind<T>(x: T, s: seq<T>, key: T -> int)
    requires s != [] && key(s[0]) <= key(x)
    ensures Insert(x, s, key) == [s[0]] + Insert(x, s[1..], key)
  {
  }

  lemma WithKeyCons<T>(h: T, t: seq<T>, key: T -> int, k: int)
    ensures WithKey([h] + t, key, k) == (if key(h) == k then [h] else []) + WithKey(t, key, k)
  {
    assert ([h] + t)[1..] == t;
  }

  /** Putting the same element in front of two lists whose `k`-elements
      differ by a suffix keeps that difference. */
  lemma WithKeyBehind<T>(h: T, rest: seq<T>, t: seq<T>, key: T -> int, k: int, mark: seq<T>)
    requires WithKey(t, key, k) == WithKey(rest, key, k) + mark
    ensures WithKey([h] + t, key, k) == WithKey([h] + rest, key, k) + mark
  {
    var head := if key(h) == k then [h] else [];
    WithKeyCons(h, t, key, k);
    WithKeyCons(h, rest, key, k);
    AppendAssoc(head, WithKey(rest, key, k), mark);
  }

  /** `OrderBy(key)`: sorted by key and a permutation of `s`. */
  function SortBy<T>(s: seq<T>, key: T -> int): (r: seq<T>)
    ensures |r| == |s|
  {
    if s == [] then [] else Insert(s[|s| - 1], SortBy(s[..|s| - 1], key), key)
  }

  /** `OrderBy` returns a permutation of its input. */
  lemma {:induction false} SortByPermutation<T>(s: seq<T>, key: T -> int)
    ensures multiset(SortBy(s, key)) == multiset(s)
  {
    if s != [] {
      var init := s[..|s| - 1];
      SortByPermutation(init, key);
      InsertPermutation(s[|s| - 1], SortBy(init, key), key);
      assert s == init + [s[|s| - 1]];
    }
  }

  /** The result of `OrderBy` is ordered by key. */
  lemma {:induction false} SortBySorted<T>(s: seq<T>, key: T -> int)
    ensures SortedBy(SortBy(s, key), key)
  {
    if s != [] {
      SortBySorted(s[..|s| - 1], key);
      InsertSorted(s[|s| - 1], SortBy(s[..|s| - 1], key), key);
    }
  }

  /** `OrderBy` is stable: for each key, its elements keep their input order. */
  lemma {:induction false} SortByStable<T>(s: seq<T>, key: T -> int, k: int)
    ensures WithKey(SortBy(s, key), key, k) == WithKey(s, key, k)
  {
    if s != [] {
      var init := s[..|s| - 1];
      var last := s[|s| - 1];
      assert s == init + [last];
      SortByStable(init, key, k);
      SortBySorted(init, key);
      InsertWithKey(last, SortBy(init, key), key, k);
      WithKeyAppend(init, [last], key, k);
      assert WithKey([last], key, k) == (if key(last) == k then [last] else []) by {
        assert [last][1..] == [];
      }
    }
  }

  /** Filter by a predicate, keeping order (LINQ's `Where`). */
  function Where<T>(s: seq<T>, keep: T -> bool): (r: seq<T>)
    ensures |r| <= |s|
  {
    if s == [] then [] else (if keep(s[0]) then [s[0]] else []) + Where(s[1..], keep)
  }

  lemma WhereCons<T>(h: T, t: seq<T>, keep: T -> bool)
    ensures Where([h] + t, keep) == (if keep(h) then [h] else []) + Where(t, keep)
  {
    assert ([h] + t)[1..] == t;
  }

  /** `Where` distributes over concatenation: filtering keeps the input order. */
  lemma {:induction false} WhereAppend<T>(a: seq<T>, b: seq<T>, keep: T -> bool)
    ensures Where(a + b, keep) == Where(a, keep) + Where(b, keep)
  {
    if a == [] {
      assert a + b == b;
    } else {
      var head := if keep(a[0]) then [a[0]] else [];
      assert a + b == [a[0]] + (a[1..] + b);
      assert a == [a[0]] + a[1..];
      WhereCons(a[0], a[1..] + b, keep);
      WhereCons(a[0], a[1..], keep);
      WhereAppend(a[1..], b, keep);
      AppendAssoc(head, Where(a[1..], keep), Where(b, keep));
    }
  }

  /** Appending an element to the input appends it to the result exactly when it is kept. */
  lemma WhereSnoc<T>(s: seq<T>, x: T, keep: T -> bool)
    ensures Where(s + [x], keep) == Where(s, keep) + (if keep(x) then [x] else [])
  {
    WhereAppend(s, [x], keep);
    WhereCons(x, [], keep);
    assert [x] + [] == [x];
  }

  /** Each value is kept as often as it occurs in the input, or not at all. */
  lemma {:induction false} WhereCount<T>(s: seq<T>, keep: T -> bool)
    ensures forall x :: multiset(Where(s, keep))[x] == if keep(x) then multiset(s)[x] else 0
  {
    if s != [] {
      var head := if keep(s[0]) then [s[0]] else [];
      WhereCount(s[1..], keep);
      assert s == [s[0]] + s[1..];
      WhereCons(s[0], s[1..], keep);
      assert multiset(s) == multiset([s[0]]) + multiset(s[1..]);
      assert multiset(Where(s, keep)) == multiset(head) + multiset(Where(s[1..], keep));
    }
  }

  /** `Where` keeps exactly the elements satisfying the predicate: every kept
      element satisfies it and comes from the input, every input element
      satisfying it is kept, nothing is kept exactly when none does, each kept
      value occurs as often as in the input, and the kept elements stay in
      input order (appending an element appends it to the result exactly when
      it is kept). */
  lemma {:induction false} WhereSpec<T>(s: seq<T>, keep: T -> bool)
    ensures var r := Where(s, keep);
            (forall i :: 0 <= i < |r| ==> keep(r[i]) && r[i] in s)
            && (forall i :: 0 <= i < |s| && keep(s[i]) ==> s[i] in r)
            && (r == [] <==> forall i :: 0 <= i < |s| ==> !keep(s[i]))
    ensures forall x :: multiset(Where(s, keep))[x] == if keep(x) then multiset(s)[x] else 0
    ensures forall x :: Where(s + [x], keep) == Where(s, keep) + (if keep(x) then [x] else [])
  {
    WhereCount(s, keep);
    forall x ensures Where(s + [x], keep) == Where(s, keep) + (if keep(x) then [x] else []) {
      WhereSnoc(s, x, keep);
    }
    WhereMembers(s, keep);
  }

  /** Which elements `Where` keeps, without counting them. */
  lemma {:induction false} WhereMembers<T>(s: seq<T>, keep: T -> bool)
    ensures var r := Where(s, keep);
            (forall i :: 0 <= i < |r| ==> keep(r[i]) && r[i] in s)
            && (forall i :: 0 <= i < |s| && keep(s[i]) ==> s[i] in r)
            && (r == [] <==> forall i :: 0 <= i < |s| ==> !keep(s[i]))
  {
    if s != [] {
      WhereMembers(s[1..], keep);
      var rest := Where(s[1..], keep);
      var r := Where(s, keep);
      assert forall i :: 1 <= i < |s| ==> s[i] == s[1..][i - 1];
      if keep(s[0]) {
        assert r == [s[0]] + rest;
        assert forall i :: 1 <= i < |r| ==> r[i] == rest[i - 1];
      } else {
        assert r == rest;
      }
    }
  }
}
