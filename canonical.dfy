/**
 * `json.dumps(obj, sort_keys=True, separators=…, ensure_ascii=…)`.
 * Serialisation is split into `Normalize`, which sorts the keys of every object
 * (Python compares `str` keys by code point, and `sorted` is stable), and
 * `Serialize`, which prints a value with the given separators and escaping.
 */
module Canonical {
  import opened Json
  import PyText

  // ---------------------------------------------------------------------
  // Key order: Python's `str` comparison

  predicate StrLt(a: string, b: string)
  {
    if a == [] then b != []
    else if b == [] then false
    else if a[0] == b[0] then StrLt(a[1..], b[1..])
    else a[0] < b[0]
  }

  predicate StrLe(a: string, b: string)
  {
    a == b || StrLt(a, b)
  }

  lemma {:induction false} StrLtIrreflexive(a: string)
    ensures !StrLt(a, a)
  {
    if a != [] { StrLtIrreflexive(a[1..]); }
  }

  lemma {:induction false} StrLtAsymmetric(a: string, b: string)
    ensures !(StrLt(a, b) && StrLt(b, a))
  {
    if a != [] && b != [] && a[0] == b[0] { StrLtAsymmetric(a[1..], b[1..]); }
  }

  lemma {:induction false} StrLtTransitive(a: string, b: string, c: string)
    requires StrLt(a, b) && StrLt(b, c)
    ensures StrLt(a, c)
  {
    if a != [] && b != [] && c != [] && a[0] == b[0] && b[0] == c[0] {
      StrLtTransitive(a[1..], b[1..], c[1..]);
    }
  }

  lemma {:induction false} StrLtTotal(a: string, b: string)
    requires a != b
    ensures StrLt(a, b) || StrLt(b, a)
  {
    if a != [] && b != [] && a[0] == b[0] {
      assert a == [a[0]] + a[1..] && b == [b[0]] + b[1..];
      StrLtTotal(a[1..], b[1..]);
    }
  }

  lemma StrLeTransitive(a: string, b: string, c: string)
    requires StrLe(a, b) && StrLe(b, c)
    ensures StrLe(a, c)
  {
    if StrLt(a, b) && StrLt(b, c) { StrLtTransitive(a, b, c); }
  }

  // ---------------------------------------------------------------------
  // Sorting an association list by key

  predicate SortedByKey(fs: seq<Field>)
  {
    forall i, j :: 0 <= i < j < |fs| ==> StrLe(fs[i].key, fs[j].key)
  }

  predicate StrictlySortedByKey(fs: seq<Field>)
  {
    forall i, j :: 0 <= i < j < |fs| ==> StrLt(fs[i].key, fs[j].key)
  }

  /** Place `f` before the first entry whose key is not smaller. */
  function InsertByKey(f: Field, fs: seq<Field>): seq<Field>
  {
    if fs == [] then [f]
    else if StrLe(f.key, fs[0].key) then [f] + fs
    else [fs[0]] + InsertByKey(f, fs[1..])
  }

  /** A stable insertion sort on the keys. */
  function SortByKey(fs: seq<Field>): seq<Field>
  {
    if fs == [] then [] else InsertByKey(fs[0], SortByKey(fs[1..]))
  }

  /** A field no greater than every entry of a sorted list can go in front of it. */
  lemma ConsSortedByKey(a: Field, t: seq<Field>)
    requires SortedByKey(t)
    requires forall k :: 0 <= k < |t| ==> StrLe(a.key, t[k].key)
    ensures SortedByKey([a] + t)
  {
    var r := [a] + t;
    forall i, j | 0 <= i < j < |r| ensures StrLe(r[i].key, r[j].key) {
      if i == 0 {
        assert r[j] == t[j - 1];
      } else {
        assert r[i] == t[i - 1] && r[j] == t[j - 1];
      }
    }
  }

  /** A lower bound of the list and of the new field bounds the list after insertion. */
  lemma {:induction false} InsertByKeyBound(a: Field, f: Field, fs: seq<Field>)
    requires StrLe(a.key, f.key)
    requires forall k :: 0 <= k < |fs| ==> StrLe(a.key, fs[k].key)
    ensures forall k :: 0 <= k < |InsertByKey(f, fs)| ==> StrLe(a.key, InsertByKey(f, fs)[k].key)
  {
    if fs != [] && !StrLe(f.key, fs[0].key) {
      var rest := fs[1..];
      assert forall k :: 0 <= k < |rest| ==> rest[k] == fs[k + 1];
      InsertByKeyBound(a, f, rest);
      var t := InsertByKey(f, rest);
      assert forall k :: 0 < k < |t| + 1 ==> ([fs[0]] + t)[k] == t[k - 1];
    }
  }

  lemma {:induction false} InsertByKeyMultiset(f: Field, fs: seq<Field>)
    ensures multiset(InsertByKey(f, fs)) == multiset(fs) + multiset{f}
  {
    if fs != [] && !StrLe(f.key, fs[0].key) {
      InsertByKeyMultiset(f, fs[1..]);
      assert fs == [fs[0]] + fs[1..];
    }
  }

  lemma {:induction false} InsertByKeyFacts(f: Field, fs: seq<Field>)
    requires SortedByKey(fs)
    ensures SortedByKey(InsertByKey(f, fs))
    ensures multiset(InsertByKey(f, fs)) == multiset(fs) + multiset{f}
  {
    InsertByKeyMultiset(f, fs);
    if fs != [] {
      if StrLe(f.key, fs[0].key) {
        forall k | 0 <= k < |fs| ensures StrLe(f.key, fs[k].key) {
          if k > 0 { StrLeTransitive(f.key, fs[0].key, fs[k].key); }
        }
        ConsSortedByKey(f, fs);
      } else {
        var rest := fs[1..];
        assert forall k :: 0 <= k < |rest| ==> rest[k] == fs[k + 1];
        assert SortedByKey(rest);
        InsertByKeyFacts(f, rest);
        StrLtTotal(f.key, fs[0].key);
        InsertByKeyBound(fs[0], f, rest);
        ConsSortedByKey(fs[0], InsertByKey(f, rest));
      }
    }
  }

  lemma {:induction false} SortByKeyFacts(fs: seq<Field>)
    ensures SortedByKey(SortByKey(fs))
    ensures multiset(SortByKey(fs)) == multiset(fs)
  {
    if fs != [] {
      SortByKeyFacts(fs[1..]);
      InsertByKeyFacts(fs[0], SortByKey(fs[1..]));
      assert fs == [fs[0]] + fs[1..];
    }
  }

  lemma {:induction false} SortByKeyOfSorted(fs: seq<Field>)
    requires SortedByKey(fs)
    ensures SortByKey(fs) == fs
  {
    if fs != [] {
      SortByKeyOfSorted(fs[1..]);
      if |fs| > 1 { assert StrLe(fs[0].key, fs[1].key); }
    }
  }

  lemma SortedDistinctIsStrict(fs: seq<Field>)
    requires SortedByKey(fs) && DistinctKeys(fs)
    ensures StrictlySortedByKey(fs)
  {
  }

  lemma DistinctKeysOfPermutation(fs: seq<Field>, gs: seq<Field>)
    requires DistinctKeys(fs) && multiset(fs) == multiset(gs)
    ensures forall i :: 0 <= i < |gs| ==> gs[i] in fs
  {
    forall i | 0 <= i < |gs| ensures gs[i] in fs {
      assert gs[i] in multiset(gs);
    }
  }

  lemma {:induction false} InsertByKeyDistinct(f: Field, fs: seq<Field>)
    requires DistinctKeys(fs)
    requires forall i :: 0 <= i < |fs| ==> fs[i].key != f.key
    ensures DistinctKeys(InsertByKey(f, fs))
    ensures forall g :: g in InsertByKey(f, fs) <==> g == f || g in fs
  {
    if fs != [] && !StrLe(f.key, fs[0].key) {
      InsertByKeyDistinct(f, fs[1..]);
      var t := InsertByKey(f, fs[1..]);
      forall i | 0 <= i < |t| ensures t[i].key != fs[0].key {
        assert t[i] in t;
      }
      assert fs == [fs[0]] + fs[1..];
    }
  }

  /** Sorting keeps the entries (as a set) and the distinctness of keys. */
  lemma {:induction false} SortByKeyDistinct(fs: seq<Field>)
    requires DistinctKeys(fs)
    ensures DistinctKeys(SortByKey(fs))
    ensures forall g :: g in SortByKey(fs) <==> g in fs
  {
    if fs != [] {
      SortByKeyDistinct(fs[1..]);
      var t := SortByKey(fs[1..]);
      forall i | 0 <= i < |t| ensures t[i].key != fs[0].key {
        assert t[i] in t;
        var k :| 0 <= k < |fs[1..]| && fs[1..][k] == t[i];
        assert fs[k + 1] == t[i];
      }
      InsertByKeyDistinct(fs[0], t);
      assert fs == [fs[0]] + fs[1..];
    }
  }

  lemma {:induction false} StrictlySortedHeadIsLeast(a: seq<Field>, x: Field)
    requires StrictlySortedByKey(a) && x in a && x != a[0]
    ensures StrLt(a[0].key, x.key)
  {
    var k :| 0 <= k < |a| && a[k] == x;
    assert k != 0;
  }

  lemma MultisetTail(a: seq<Field>, b: seq<Field>)
    requires a != [] && b != [] && a[0] == b[0] && multiset(a) == multiset(b)
    ensures multiset(a[1..]) == multiset(b[1..])
  {
    assert a == [a[0]] + a[1..] && b == [b[0]] + b[1..];
    assert multiset(a) == multiset{a[0]} + multiset(a[1..]);
    assert multiset(b) == multiset{b[0]} + multiset(b[1..]);
    forall y ensures multiset(a[1..])[y] == multiset(b[1..])[y] {
      assert multiset(a)[y] == multiset(b)[y];
    }
  }

  /** Two key-strictly-sorted lists holding the same entries are the same list. */
  lemma {:induction false} StrictlySortedUnique(a: seq<Field>, b: seq<Field>)
    requires StrictlySortedByKey(a) && StrictlySortedByKey(b)
    requires multiset(a) == multiset(b)
    ensures a == b
  {
    if a == [] {
      assert |b| == |multiset(b)| == 0;
    } else {
      assert a[0] in multiset(b);
      assert b != [] && a[0] in b;
      assert b[0] in multiset(a);
      if a[0] != b[0] {
        StrictlySortedHeadIsLeast(a, b[0]);
        StrictlySortedHeadIsLeast(b, a[0]);
        StrLtAsymmetric(a[0].key, b[0].key);
        assert false;
      }
      MultisetTail(a, b);
      StrictlySortedUnique(a[1..], b[1..]);
      assert a == [a[0]] + a[1..] && b == [b[0]] + b[1..];
    }
  }

  // ---------------------------------------------------------------------
  // Normalisation: sort every object's keys, at every depth

  function Normalize(j: Json): Json
  {
    match j
    case JArr(xs) => JArr(NormalizeItems(xs))
    case JObj(fs) => JObj(SortByKey(NormalizeFields(fs)))
    case _ => j
  }

  function NormalizeItems(xs: seq<Json>): (ys: seq<Json>)
    ensures |ys| == |xs|
  {
    if xs == [] then [] else [Normalize(xs[0])] + NormalizeItems(xs[1..])
  }

  function NormalizeFields(fs: seq<Field>): (gs: seq<Field>)
    ensures Keys(gs) == Keys(fs)
  {
    if fs == [] then [] else [Field(fs[0].key, Normalize(fs[0].val))] + NormalizeFields(fs[1..])
  }

  lemma {:induction false} NormalizeFieldsAt(fs: seq<Field>, i: nat)
    requires i < |fs|
    ensures NormalizeFields(fs)[i] == Field(fs[i].key, Normalize(fs[i].val))
  {
    if i > 0 { NormalizeFieldsAt(fs[1..], i - 1); }
  }

  lemma {:induction false} InsertCommutesWithNormalize(f: Field, fs: seq<Field>)
    ensures InsertByKey(Field(f.key, Normalize(f.val)), NormalizeFields(fs)) == NormalizeFields(InsertByKey(f, fs))
  {
    if fs != [] {
      InsertCommutesWithNormalize(f, fs[1..]);
      assert ([f] + fs)[1..] == fs;
    }
  }

  /** Sorting looks only at keys, so it commutes with normalising the values. */
  lemma {:induction false} SortCommutesWithNormalize(fs: seq<Field>)
    ensures SortByKey(NormalizeFields(fs)) == NormalizeFields(SortByKey(fs))
  {
    if fs != [] {
      SortCommutesWithNormalize(fs[1..]);
      InsertCommutesWithNormalize(fs[0], SortByKey(fs[1..]));
    }
  }

  lemma DistinctKeysByKeys(fs: seq<Field>, gs: seq<Field>)
    requires Keys(fs) == Keys(gs) && DistinctKeys(fs)
    ensures DistinctKeys(gs)
  {
    forall i, j | 0 <= i < j < |gs| ensures gs[i].key != gs[j].key {
      assert Keys(fs)[i] == gs[i].key && Keys(fs)[j] == gs[j].key;
    }
  }

  /**
   * Two dicts with the same items, in whatever order, normalise to the same
   * value: key order never reaches the canonical text.
   */
  lemma KeyOrderInvariant(fs: seq<Field>, gs: seq<Field>)
    requires DistinctKeys(fs) && DistinctKeys(gs)
    requires multiset(fs) == multiset(gs)
    ensures Normalize(JObj(fs)) == Normalize(JObj(gs))
  {
    SortByKeyFacts(fs);
    SortByKeyFacts(gs);
    SortByKeyDistinct(fs);
    SortByKeyDistinct(gs);
    StrictlySortedUnique(SortByKey(fs), SortByKey(gs));
    SortCommutesWithNormalize(fs);
    SortCommutesWithNormalize(gs);
  }

  /** An object whose keys and normalised values agree normalises the same way. */
  lemma {:induction false} ObjectCongruence(fs: seq<Field>, gs: seq<Field>)
    requires Keys(fs) == Keys(gs)
    requires forall i :: 0 <= i < |fs| ==> Normalize(fs[i].val) == Normalize(gs[i].val)
    ensures Normalize(JObj(fs)) == Normalize(JObj(gs))
  {
    assert NormalizeFields(fs) == NormalizeFields(gs) by {
      forall i | 0 <= i < |fs| ensures NormalizeFields(fs)[i] == NormalizeFields(gs)[i] {
        NormalizeFieldsAt(fs, i);
        NormalizeFieldsAt(gs, i);
        assert Keys(fs)[i] == Keys(gs)[i];
      }
    }
  }

  lemma {:induction false} NormalizeItemsAt(xs: seq<Json>, i: nat)
    requires i < |xs|
    ensures NormalizeItems(xs)[i] == Normalize(xs[i])
  {
    if i > 0 { NormalizeItemsAt(xs[1..], i - 1); }
  }

  /** Arrays keep their order; only their elements are normalised. */
  lemma ArrayCongruence(xs: seq<Json>, ys: seq<Json>)
    requires |xs| == |ys|
    requires forall i :: 0 <= i < |xs| ==> Normalize(xs[i]) == Normalize(ys[i])
    ensures Normalize(JArr(xs)) == Normalize(JArr(ys))
  {
    forall i | 0 <= i < |xs| ensures NormalizeItems(xs)[i] == NormalizeItems(ys)[i] {
      NormalizeItemsAt(xs, i);
      NormalizeItemsAt(ys, i);
    }
  }

  /**
   * `a` and `b` are the same payload up to the order of the items of its
   * dicts, at every depth: scalars are equal, arrays are related element by
   * element in their order, and `b`'s dict is a reordering of a dict with
   * `a`'s keys, in `a`'s order, whose values are related to `a`'s.
   */
  ghost predicate SameUpToKeyOrder(a: Json, b: Json)
    decreases a
  {
    match a
    case JArr(xs) =>
      b.JArr? && |xs| == |b.items| && forall i :: 0 <= i < |xs| ==> SameUpToKeyOrder(xs[i], b.items[i])
    case JObj(fs) =>
      b.JObj? && DistinctKeys(fs) && DistinctKeys(b.fields) &&
      exists hs: seq<Field> :: multiset(hs) == multiset(b.fields) && Keys(hs) == Keys(fs) &&
                   forall i :: 0 <= i < |fs| ==> SameUpToKeyOrder(fs[i].val, hs[i].val)
    case _ => a == b
  }

  /** Payloads equal up to key order, at any depth, normalise to the same value. */
  lemma {:induction false} NormalizeKeyOrder(a: Json, b: Json)
    requires SameUpToKeyOrder(a, b)
    ensures Normalize(a) == Normalize(b)
    decreases a
  {
    match a
    case JArr(xs) =>
      forall i | 0 <= i < |xs| ensures Normalize(xs[i]) == Normalize(b.items[i]) {
        NormalizeKeyOrder(xs[i], b.items[i]);
      }
      ArrayCongruence(xs, b.items);
    case JObj(fs) =>
      var hs: seq<Field> :| multiset(hs) == multiset(b.fields) && Keys(hs) == Keys(fs) &&
                forall i :: 0 <= i < |fs| ==> SameUpToKeyOrder(fs[i].val, hs[i].val);
      forall i | 0 <= i < |fs| ensures Normalize(fs[i].val) == Normalize(hs[i].val) {
        NormalizeKeyOrder(fs[i].val, hs[i].val);
      }
      ObjectCongruence(fs, hs);
      DistinctKeysByKeys(fs, hs);
      KeyOrderInvariant(hs, b.fields);
    case _ =>
  }

  lemma {:induction false} WellFormedItemsAt(xs: seq<Json>, i: nat)
    requires WellFormedItems(xs) && i < |xs|
    ensures WellFormed(xs[i])
  {
    if i > 0 { WellFormedItemsAt(xs[1..], i - 1); }
  }

  lemma {:induction false} WellFormedFieldsAt(fs: seq<Field>, i: nat)
    requires WellFormedFields(fs) && i < |fs|
    ensures WellFormed(fs[i].val)
  {
    if i > 0 { WellFormedFieldsAt(fs[1..], i - 1); }
  }

  /** A well-formed payload is the same as itself. */
  lemma {:induction false} SameUpToKeyOrderReflexive(a: Json)
    requires WellFormed(a)
    ensures SameUpToKeyOrder(a, a)
    decreases a
  {
    match a
    case JArr(xs) =>
      forall i | 0 <= i < |xs| ensures SameUpToKeyOrder(xs[i], xs[i]) {
        WellFormedItemsAt(xs, i);
        SameUpToKeyOrderReflexive(xs[i]);
      }
    case JObj(fs) =>
      forall i | 0 <= i < |fs| ensures SameUpToKeyOrder(fs[i].val, fs[i].val) {
        WellFormedFieldsAt(fs, i);
        SameUpToKeyOrderReflexive(fs[i].val);
      }
      assert Keys(fs) == Keys(fs);
    case _ =>
  }

  /** Reordering the items of a dict whose values are well formed is a case of the relation. */
  lemma ReorderedIsSame(fs: seq<Field>, gs: seq<Field>)
    requires WellFormed(JObj(fs)) && DistinctKeys(gs) && multiset(fs) == multiset(gs)
    ensures SameUpToKeyOrder(JObj(fs), JObj(gs))
  {
    forall i | 0 <= i < |fs| ensures SameUpToKeyOrder(fs[i].val, fs[i].val) {
      WellFormedFieldsAt(fs, i);
      SameUpToKeyOrderReflexive(fs[i].val);
    }
    assert multiset(fs) == multiset(gs) && Keys(fs) == Keys(fs);
  }

  /** Sorting twice changes nothing: `Normalize` is idempotent. */
  lemma {:induction false} NormalizeIdempotent(j: Json)
    ensures Normalize(Normalize(j)) == Normalize(j)
    decreases j, 1
  {
    match j
    case JArr(xs) => NormalizeArrIdempotent(xs);
    case JObj(fs) => NormalizeObjIdempotent(fs);
    case _ =>
  }

  lemma {:induction false} NormalizeArrIdempotent(xs: seq<Json>)
    ensures Normalize(Normalize(JArr(xs))) == Normalize(JArr(xs))
    decreases JArr(xs), 0
  {
    var ys := NormalizeItems(xs);
    forall i | 0 <= i < |ys| ensures NormalizeItems(ys)[i] == ys[i] {
      NormalizeItemsAt(xs, i);
      NormalizeItemsAt(ys, i);
      NormalizeIdempotent(xs[i]);
    }
  }

  lemma {:induction false} NormalizeObjIdempotent(fs: seq<Field>)
    ensures Normalize(Normalize(JObj(fs))) == Normalize(JObj(fs))
    decreases JObj(fs), 0
  {
    var nf := NormalizeFields(fs);
    var s := SortByKey(nf);
    SortByKeyFacts(nf);
    forall i | 0 <= i < |s| ensures Normalize(s[i].val) == s[i].val {
      assert s[i] in multiset(nf);
      var k :| 0 <= k < |nf| && nf[k] == s[i];
      NormalizeFieldsAt(fs, k);
      NormalizeIdempotent(fs[k].val);
    }
    NormalizeFieldsFixed(s);
    SortByKeyOfSorted(s);
  }

  lemma {:induction false} NormalizeFieldsFixed(fs: seq<Field>)
    requires forall i :: 0 <= i < |fs| ==> Normalize(fs[i].val) == fs[i].val
    ensures NormalizeFields(fs) == fs
  {
    if fs != [] { NormalizeFieldsFixed(fs[1..]); }
  }

  /** A normalised object lists the same keys, once each, in ascending order. */
  lemma NormalizeSortsObject(fs: seq<Field>)
    requires DistinctKeys(fs)
    ensures SortedByKey(Normalize(JObj(fs)).fields)
    ensures DistinctKeys(Normalize(JObj(fs)).fields)
    ensures |Normalize(JObj(fs)).fields| == |fs|
    ensures forall k :: k in Keys(Normalize(JObj(fs)).fields) <==> k in Keys(fs)
  {
    var nf := NormalizeFields(fs);
    DistinctKeysByKeys(fs, nf);
    SortByKeyFacts(nf);
    SortByKeyDistinct(nf);
    var s := SortByKey(nf);
    assert |s| == |multiset(s)| == |multiset(nf)| == |nf|;
    KeysOfSameElements(s, nf);
  }

  lemma KeysOfSameElements(a: seq<Field>, b: seq<Field>)
    requires forall g :: g in a <==> g in b
    ensures forall k :: k in Keys(a) <==> k in Keys(b)
  {
    forall k | k in Keys(a) ensures k in Keys(b) {
      var i :| 0 <= i < |a| && Keys(a)[i] == k;
      assert a[i] in b;
      var m :| 0 <= m < |b| && b[m] == a[i];
      assert Keys(b)[m] == k;
    }
    forall k | k in Keys(b) ensures k in Keys(a) {
      var i :| 0 <= i < |b| && Keys(b)[i] == k;
      assert b[i] in a;
      var m :| 0 <= m < |a| && a[m] == b[i];
      assert Keys(a)[m] == k;
    }
  }

  // ---------------------------------------------------------------------
  // Printing

  /** The separators and escaping of one `json.dumps` call. */
  datatype Style = Style(itemSep: string, keySep: string, asciiOnly: bool)

  /** `separators=(",", ":"), ensure_ascii=False`. */
  const Compact := Style(",", ":", false)

  /** The defaults: `separators=(", ", ": ")`, `ensure_ascii=True`. */
  const Default := Style(", ", ": ", true)

  function HexDigit(d: nat): (c: char)
    requires d < 16
  {
    if d < 10 then PyText.DigitChar(d) else ('a' as int + d - 10) as char
  }

  /** `'{0:04x}'.format(n)`. */
  function Hex4(n: nat): (r: string)
    requires n < 0x10000
    ensures |r| == 4
  {
    [HexDigit(n / 0x1000), HexDigit(n / 0x100 % 16), HexDigit(n / 16 % 16), HexDigit(n % 16)]
  }

  /** The escape for one character of a JSON string, as `json.dumps` writes it. */
  function EscapeChar(c: char, asciiOnly: bool): (r: string)
    ensures r != []
  {
    if c == '"' then "\\\""
    else if c == '\\' then "\\\\"
    else if c == '\n' then "\\n"
    else if c == '\r' then "\\r"
    else if c == '\t' then "\\t"
    else if c == '\U{8}' then "\\b"
    else if c == '\U{c}' then "\\f"
    else if (c as int) < 0x20 then "\\u" + Hex4(c as int)
    else if asciiOnly && (c as int) > 0x7e then
      var n := c as int;
      if n < 0x10000 then "\\u" + Hex4(n)
      else
        var m := n - 0x10000;
        "\\u" + Hex4(0xd800 + m / 0x400) + "\\u" + Hex4(0xdc00 + m % 0x400)
    else [c]
  }

  function Escape(s: string, asciiOnly: bool): string
  {
    if s == [] then "" else EscapeChar(s[0], asciiOnly) + Escape(s[1..], asciiOnly)
  }

  function Quote(s: string, asciiOnly: bool): string
  {
    "\"" + Escape(s, asciiOnly) + "\""
  }

  function Serialize(j: Json, st: Style): string
  {
    match j
    case JNull => "null"
    case JBool(b) => if b then "true" else "false"
    case JInt(i) => PyText.IntToString(i)
    case JStr(s) => Quote(s, st.asciiOnly)
    case JArr(xs) => "[" + SerializeItems(xs, st) + "]"
    case JObj(fs) => "{" + SerializeFields(fs, st) + "}"
  }

  function SerializeItems(xs: seq<Json>, st: Style): string
  {
    if xs == [] then ""
    else if |xs| == 1 then Serialize(xs[0], st)
    else Serialize(xs[0], st) + st.itemSep + SerializeItems(xs[1..], st)
  }

  function SerializeFields(fs: seq<Field>, st: Style): string
  {
    if fs == [] then ""
    else
      var one := Quote(fs[0].key, st.asciiOnly) + st.keySep + Serialize(fs[0].val, st);
      if |fs| == 1 then one else one + st.itemSep + SerializeFields(fs[1..], st)
  }

  /** `json.dumps(j, sort_keys=True, …)` in the given style. */
  function Dumps(j: Json, st: Style): string
  {
    Serialize(Normalize(j), st)
  }

  /** `canonicalize_json`: sorted keys, `,`/`:` separators, non-ASCII kept. */
  function CanonicalText(j: Json): string
  {
    Dumps(j, Compact)
  }

  /** Payloads differing only in the order of their dicts' items, at any depth, print the same canonical text. */
  lemma CanonicalKeyOrderInvariant(a: Json, b: Json, st: Style)
    requires SameUpToKeyOrder(a, b)
    ensures Dumps(a, st) == Dumps(b, st)
  {
    NormalizeKeyOrder(a, b);
  }

  /** Printing the canonical form again (re-canonicalising stored payloads) changes nothing. */
  lemma DumpsOfNormalized(j: Json, st: Style)
    ensures Dumps(Normalize(j), st) == Dumps(j, st)
  {
    NormalizeIdempotent(j);
  }
}
