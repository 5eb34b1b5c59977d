/** Splitting work into consecutive slices, as the bronze scripts do with `range(i, n, size)`. */
module Partition {
  /** `[s[i:i + n] for i in range(0, len(s), n)]`. */
  function Chunks<T>(s: seq<T>, n: nat): (cs: seq<seq<T>>)
    requires n > 0
    ensures forall k :: 0 <= k < |cs| ==> 0 < |cs[k]| <= n
    decreases |s|
  {
    if s == [] then [] else if |s| <= n then [s] else [s[..n]] + Chunks(s[n..], n)
  }

  function Concat<T>(ss: seq<seq<T>>): seq<T>
  {
    if ss == [] then [] else ss[0] + Concat(ss[1..])
  }

  lemma {:induction false} ConcatAppend<T>(a: seq<seq<T>>, b: seq<seq<T>>)
    ensures Concat(a + b) == Concat(a) + Concat(b)
  {
    if a == [] {
      assert a + b == b;
    } else {
      assert (a + b)[1..] == a[1..] + b;
      ConcatAppend(a[1..], b);
    }
  }

  /** One more slice adds its elements at the end. */
  lemma ConcatSnoc<T>(cs: seq<seq<T>>, k: nat)
    requires k < |cs|
    ensures Concat(cs[..k + 1]) == Concat(cs[..k]) + cs[k]
  {
    assert cs[..k + 1] == cs[..k] + [cs[k]];
    ConcatAppend(cs[..k], [cs[k]]);
    assert Concat([cs[k]]) == cs[k] + Concat([cs[k]][1..]);
    assert cs[k] + [] == cs[k];
  }

  /** The slices put back together are the input, in order. */
  lemma {:induction false} ChunksCover<T>(s: seq<T>, n: nat)
    requires n > 0
    ensures Concat(Chunks(s, n)) == s
    decreases |s|
  {
    if s != [] && |s| > n {
      ChunksCover(s[n..], n);
      assert s[..n] + s[n..] == s;
      var cs := Chunks(s, n);
      assert cs[0] == s[..n] && cs[1..] == Chunks(s[n..], n);
    } else if s != [] {
      assert Chunks(s, n) == [s];
      assert s + [] == s;
    }
  }

  /** There are ⌈|s| / n⌉ slices: enough to hold `s`, and one fewer would not be. */
  lemma {:induction false} ChunksCount<T>(s: seq<T>, n: nat)
    requires n > 0
    ensures var c := |Chunks(s, n)|; (c == 0 <==> s == []) && (c - 1) * n < |s| <= c * n
    decreases |s|
  {
    if s != [] && |s| > n {
      ChunksCount(s[n..], n);
      var c := |Chunks(s[n..], n)|;
      assert |Chunks(s, n)| == c + 1;
      assert (c + 1) * n == c * n + n;
      assert c * n == (c - 1) * n + n;
    }
  }

  /** Every slice but the last is full. */
  lemma {:induction false} ChunksFull<T>(s: seq<T>, n: nat, k: nat)
    requires n > 0 && k + 1 < |Chunks(s, n)|
    ensures |Chunks(s, n)[k]| == n
    decreases |s|
  {
    if k > 0 {
      ChunksFull(s[n..], n, k - 1);
    }
  }

  /** `list(range(a, b + 1))`. */
  function Range(a: int, b: int): (r: seq<int>)
    ensures |r| == if a <= b then b - a + 1 else 0
    ensures forall k :: 0 <= k < |r| ==> r[k] == a + k
    decreases b - a
  {
    if a > b then [] else [a] + Range(a + 1, b)
  }

  /** A range splits at any point inside it. */
  lemma RangeSplit(a: int, m: int, b: int)
    requires a <= m + 1 && m <= b
    ensures Range(a, b) == Range(a, m) + Range(m + 1, b)
  {
  }
}
