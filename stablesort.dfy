/**
 * Python's `sorted(xs, key=...)` and `list.sort(key=...)` on a sequence:
 * a stable ascending sort by an integer key. The sort is written as an
 * insertion sort, and what the analytics scripts rely on is proved about it:
 * it is ordered, it is a permutation, elements with equal keys keep their
 * input order, and its last element is the last of the slowest inputs.
 */
module StableSort {
  /** Ascending by key. */
  predicate SortedBy<T>(s: seq<T>, key: T -> int)
  {
    forall i, j :: 0 <= i < j < |s| ==> key(s[i]) <= key(s[j])
  }

  /** `x` placed after every element whose key is not above its own. */
  function Insert<T>(x: T, s: seq<T>, key: T -> int): (r: seq<T>)
    ensures |r| == |s| + 1
    decreases |s|
  {
    if s == [] then [x]
    else if key(x) < key(s[0]) then [x] + s
    else [s[0]] + Insert(x, s[1..], key)
  }

  function SortBy<T>(xs: seq<T>, key: T -> int): (r: seq<T>)
    ensures |r| == |xs|
  {
    if xs == [] then [] else Insert(xs[|xs| - 1], SortBy(xs[..|xs| - 1], key), key)
  }

  /** The elements of `s` with key `v`, in order. */
  function WithKey<T>(s: seq<T>, key: T -> int, v: int): seq<T>
  {
    if s == [] then [] else (if key(s[0]) == v then [s[0]] else []) + WithKey(s[1..], key, v)
  }

  lemma {:induction false} InsertPermutes<T>(x: T, s: seq<T>, key: T -> int)
    ensures multiset(Insert(x, s, key)) == multiset(s) + multiset{x}
    decreases |s|
  {
    if s != [] && key(x) >= key(s[0]) {
      InsertPermutes(x, s[1..], key);
      assert s == [s[0]] + s[1..];
    }
  }

  lemma {:induction false} InsertBound<T>(x: T, s: seq<T>, key: T -> int, b: int)
    requires b <= key(x) && forall k :: 0 <= k < |s| ==> b <= key(s[k])
    ensures forall k :: 0 <= k < |s| + 1 ==> b <= key(Insert(x, s, key)[k])
    decreases |s|
  {
    if s != [] && key(x) >= key(s[0]) {
      InsertBound(x, s[1..], key, b);
    }
  }

  lemma {:induction false} InsertSorted<T>(x: T, s: seq<T>, key: T -> int)
    requires SortedBy(s, key)
    ensures SortedBy(Insert(x, s, key), key)
    decreases |s|
  {
    if s != [] && key(x) >= key(s[0]) {
      InsertSorted(x, s[1..], key);
      InsertBound(x, s[1..], key, key(s[0]));
    }
  }

  /** `sorted` returns a permutation of its input, in ascending key order. */
  lemma {:induction false} SortByPermutes<T>(xs: seq<T>, key: T -> int)
    ensures multiset(SortBy(xs, key)) == multiset(xs)
    ensures SortedBy(SortBy(xs, key), key)
  {
    if xs != [] {
      var init := xs[..|xs| - 1];
      SortByPermutes(init, key);
      InsertPermutes(xs[|xs| - 1], SortBy(init, key), key);
      InsertSorted(xs[|xs| - 1], SortBy(init, key), key);
      assert xs == init + [xs[|xs| - 1]];
    }
  }

  lemma {:induction false} WithKeyNone<T>(s: seq<T>, key: T -> int, v: int)
    requires forall k :: 0 <= k < |s| ==> key(s[k]) != v
    ensures WithKey(s, key, v) == []
  {
    if s != [] {
      WithKeyNone(s[1..], key, v);
    }
  }

  lemma {:induction false} WithKeySnoc<T>(s: seq<T>, x: T, key: T -> int, v: int)
    ensures WithKey(s + [x], key, v) == WithKey(s, key, v) + (if key(x) == v then [x] else [])
    decreases |s|
  {
    if s != [] {
      assert (s + [x])[1..] == s[1..] + [x];
      WithKeySnoc(s[1..], x, key, v);
    }
  }

  lemma {:induction false} InsertWithKey<T>(x: T, s: seq<T>, key: T -> int, v: int)
    requires SortedBy(s, key)
    ensures WithKey(Insert(x, s, key), key, v) == WithKey(s, key, v) + (if key(x) == v then [x] else [])
    decreases |s|
  {
    if s == [] {
      assert [x][1..] == [];
    } else if key(x) < key(s[0]) {
      InsertFrontWithKey(x, s, key, v);
    } else {
      InsertWithKey(x, s[1..], key, v);
      InsertBehindWithKey(x, s, key, v);
    }
  }

  lemma WithKeyCons<T>(y: T, t: seq<T>, key: T -> int, v: int)
    ensures WithKey([y] + t, key, v) == (if key(y) == v then [y] else []) + WithKey(t, key, v)
  {
    var r := [y] + t;
    assert r[0] == y && r[1..] == t;
  }

  lemma InsertFrontWithKey<T>(x: T, s: seq<T>, key: T -> int, v: int)
    requires SortedBy(s, key) && s != [] && key(x) < key(s[0])
    ensures WithKey([x] + s, key, v) == WithKey(s, key, v) + (if key(x) == v then [x] else [])
  {
    if key(x) == v {
      WithKeyNone(s, key, v);
    }
    WithKeyCons(x, s, key, v);
  }

  lemma InsertBehindWithKey<T>(x: T, s: seq<T>, key: T -> int, v: int)
    requires s != []
    requires WithKey(Insert(x, s[1..], key), key, v) == WithKey(s[1..], key, v) + (if key(x) == v then [x] else [])
    ensures WithKey([s[0]] + Insert(x, s[1..], key), key, v) == WithKey(s, key, v) + (if key(x) == v then [x] else [])
  {
    var h: seq<T> := if key(s[0]) == v then [s[0]] else [];
    var xv: seq<T> := if key(x) == v then [x] else [];
    var a := WithKey(s[1..], key, v);
    WithKeyCons(s[0], Insert(x, s[1..], key), key, v);
    assert WithKey(s, key, v) == h + a;
    assert h + (a + xv) == (h + a) + xv;
  }

  /** Stability: the elements sharing any one key come out in their input order. */
  lemma {:induction false} SortByStable<T>(xs: seq<T>, key: T -> int, v: int)
    ensures WithKey(SortBy(xs, key), key, v) == WithKey(xs, key, v)
  {
    if xs != [] {
      var init, last := xs[..|xs| - 1], xs[|xs| - 1];
      SortByStable(init, key, v);
      SortByPermutes(init, key);
      InsertWithKey(last, SortBy(init, key), key, v);
      assert xs == init + [last];
      WithKeySnoc(init, last, key, v);
    }
  }

  /** Cutting a sorted sequence at `n`: nothing after the cut has a smaller key than anything before it. */
  lemma SortedCut<T>(s: seq<T>, key: T -> int, n: nat)
    requires SortedBy(s, key) && n <= |s|
    ensures multiset(s[..n]) + multiset(s[n..]) == multiset(s)
    ensures forall i, j :: 0 <= i < |s[..n]| && 0 <= j < |s[n..]| ==> key(s[..n][i]) <= key(s[n..][j])
  {
    assert s == s[..n] + s[n..];
    forall i, j | 0 <= i < |s[..n]| && 0 <= j < |s[n..]|
      ensures key(s[..n][i]) <= key(s[n..][j])
    {
      assert s[..n][i] == s[i] && s[n..][j] == s[n + j];
    }
  }

  /** A piece of a permutation of `xs` holds only elements of `xs`. */
  lemma PermutedPiece<T>(s: seq<T>, xs: seq<T>, n: nat)
    requires multiset(s) == multiset(xs) && n <= |s|
    ensures forall m :: m in s[..n] ==> m in xs
  {
    forall m | m in s[..n]
      ensures m in xs
    {
      assert s == s[..n] + s[n..];
      assert m in multiset(s);
    }
  }

  lemma SplitLast<T>(s: seq<T>)
    requires s != []
    ensures s == s[..|s| - 1] + [s[|s| - 1]]
  {
  }

  /** The index of the last element with the largest key. */
  function LastSlowest<T>(xs: seq<T>, key: T -> int): (j: nat)
    requires xs != []
    ensures j < |xs|
    ensures forall k :: 0 <= k < |xs| ==> key(xs[k]) <= key(xs[j])
    ensures forall k :: j < k < |xs| ==> key(xs[k]) < key(xs[j])
  {
    if |xs| == 1 then 0
    else
      var j := LastSlowest(xs[..|xs| - 1], key);
      if key(xs[|xs| - 1]) >= key(xs[j]) then |xs| - 1 else j
  }

  lemma {:induction false} InsertLast<T>(x: T, s: seq<T>, key: T -> int)
    requires s != [] && SortedBy(s, key)
    ensures var r := Insert(x, s, key);
            r[|r| - 1] == if key(x) >= key(s[|s| - 1]) then x else s[|s| - 1]
    decreases |s|
  {
    var last := s[|s| - 1];
    if key(x) < key(s[0]) {
      assert key(s[0]) <= key(last);
    } else if |s| == 1 {
      assert Insert(x, s[1..], key) == [x];
    } else {
      InsertLast(x, s[1..], key);
      var t := Insert(x, s[1..], key);
      assert s[1..][|s| - 2] == last;
      assert ([s[0]] + t)[|t|] == t[|t| - 1];
    }
  }

  /** The last element of the sorted sequence is the last input among those with the largest key. */
  lemma {:induction false} SortByLast<T>(xs: seq<T>, key: T -> int)
    requires xs != []
    ensures SortBy(xs, key)[|xs| - 1] == xs[LastSlowest(xs, key)]
  {
    if |xs| > 1 {
      var init := xs[..|xs| - 1];
      var s, j := SortBy(init, key), LastSlowest(init, key);
      SortByLast(init, key);
      SortByPermutes(init, key);
      InsertLast(xs[|xs| - 1], s, key);
      assert s[|s| - 1] == init[j] == xs[j];
    }
  }

  /** An element whose key is not below any key of `s` goes at the end. */
  lemma {:induction false} InsertAtEnd<T>(x: T, s: seq<T>, key: T -> int)
    requires forall i :: 0 <= i < |s| ==> key(s[i]) <= key(x)
    ensures Insert(x, s, key) == s + [x]
    decreases |s|
  {
    if s != [] {
      InsertAtEnd(x, s[1..], key);
      assert [s[0]] + (s[1..] + [x]) == s + [x];
    }
  }

  /** Sorting a sequence that is already in key order changes nothing. */
  lemma {:induction false} SortBySorted<T>(xs: seq<T>, key: T -> int)
    requires SortedBy(xs, key)
    ensures SortBy(xs, key) == xs
  {
    if xs != [] {
      var init := xs[..|xs| - 1];
      SortBySorted(init, key);
      InsertAtEnd(xs[|xs| - 1], init, key);
      assert init + [xs[|xs| - 1]] == xs;
    }
  }
}
