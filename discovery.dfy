/**
 * The helpers `scripts/ingest_competitions.py` and
 * `scripts/ingest_all_matches.py` share (their definitions are identical in
 * both files): id discovery from a listing endpoint, the URL template built
 * from an example URL, the base URL with its trailing id removed, and the
 * loop that ingests one URL per id, skipping URLs known to be permanently
 * missing.
 */
module Discovery {
  import opened Wrappers
  import opened Json
  import opened Http
  import opened PyText
  import opened PyRegex
  import opened Partition
  import opened RawStore
  import opened Ingest

  /**
   * What `ingest.http_get_with_backoff(url, timeout=15)` returns: None, or a
   * response. That helper is not part of this model; it is an oracle over
   * URLs and is taken never to raise.
   */
  datatype ProbeResult = NoResponse | Got(status: int, body: Body)

  type Probe = string -> ProbeResult

  // ---------------------------------------------------------------------------
  // try_discover_ids
  // ---------------------------------------------------------------------------

  /** `int(v)` on a JSON value; None is the TypeError or ValueError it raises. */
  function PyInt(v: Json): Option<int>
  {
    match v
    case JInt(i) => Some(i)
    case JBool(b) => Some(if b then 1 else 0)
    case JStr(s) => ParseInt(s)
    case _ => None
  }

  /** The keys an item may carry its id under, in the order they are read. */
  const IdKeys: seq<string> := ["id", "match_number", "matchId", "external_id"]

  /** `isinstance(item, dict)` and `k in item and item[k] is not None`. */
  predicate Contributes(item: Json, k: string)
  {
    item.JObj? && HasKey(item, k) && Get(item, k) != JNull
  }

  /** Key `k` of `item` is read and `int()` of its value raises. */
  predicate Raises(item: Json, k: string)
  {
    Contributes(item, k) && PyInt(Get(item, k)).None?
  }

  /** Key `k` of `item` is read and yields the id `v`. */
  predicate Yields(item: Json, k: string, v: int)
  {
    Contributes(item, k) && PyInt(Get(item, k)) == Some(v)
  }

  /** What reading key `k` of `item` adds: nothing, its id, or None when its `int()` raises. */
  function KeyValue(item: Json, k: string): (r: Option<seq<int>>)
    ensures r.None? <==> Raises(item, k)
    ensures r.Some? ==> forall v :: v in r.value <==> Yields(item, k, v)
  {
    if Contributes(item, k) then
      match PyInt(Get(item, k))
      case None => None
      case Some(v) => Some([v])
    else Some([])
  }

  /** The ids one item adds, key by key, or None once an `int()` raises. */
  function KeyValues(item: Json, ks: seq<string>): Option<seq<int>>
  {
    if ks == [] then Some([])
    else
      match KeyValues(item, ks[..|ks| - 1])
      case None => None
      case Some(vs) =>
        match KeyValue(item, ks[|ks| - 1])
        case None => None
        case Some(ws) => Some(vs + ws)
  }

  /** The ids a list of items adds, in reading order, or None once an `int()` raises. */
  function ItemValues(items: seq<Json>): Option<seq<int>>
  {
    if items == [] then Some([])
    else
      match ItemValues(items[..|items| - 1])
      case None => None
      case Some(vs) =>
        match KeyValues(items[|items| - 1], IdKeys)
        case None => None
        case Some(ws) => Some(vs + ws)
  }

  /**
   * The items the loops walk: `j['data']` when the reply is a dict whose
   * `data` is a list, the reply itself when it is a list, nothing otherwise
   * (and nothing when there is no 200 reply or its body does not parse,
   * since all those cases return `[]` as well).
   */
  function Listing(probe: ProbeResult): seq<Json>
  {
    if probe.Got? && probe.status == 200 && probe.body.Parsed? then
      var j := probe.body.json;
      if j.JObj? && Get(j, "data").JArr? then Get(j, "data").items
      else if j.JArr? then j.items
      else []
    else []
  }

  /** The ids read from the listing, or None when one of them raises. */
  function Discovered(probe: ProbeResult): Option<seq<int>>
  {
    ItemValues(Listing(probe))
  }

  /** One item's keys raise exactly when one of them is read and its `int()` raises. */
  lemma {:induction false} KeyValuesRaise(item: Json, ks: seq<string>)
    ensures KeyValues(item, ks).None? <==> exists k :: k in ks && Raises(item, k)
  {
    if ks != [] {
      var init := ks[..|ks| - 1];
      KeyValuesRaise(item, init);
      assert ks == init + [ks[|ks| - 1]];
    }
  }

  /** When they do not raise, one item's keys yield exactly the ids read from them. */
  lemma {:induction false} KeyValuesYield(item: Json, ks: seq<string>)
    requires KeyValues(item, ks).Some?
    ensures forall v :: v in KeyValues(item, ks).value <==> exists k :: k in ks && Yields(item, k, v)
  {
    if ks != [] {
      var init := ks[..|ks| - 1];
      var k := ks[|ks| - 1];
      KeyValuesYield(item, init);
      assert ks == init + [k];
    }
  }

  /** One of the item's listed keys is read and its `int()` raises. */
  predicate ItemRaises(it: Json)
  {
    exists k :: k in IdKeys && Raises(it, k)
  }

  /** Some item's listed key is read and its `int()` raises. */
  predicate AnyRaises(items: seq<Json>)
  {
    exists it :: it in items && ItemRaises(it)
  }

  /** Some item's listed key is read and yields `v`. */
  predicate AnyYields(items: seq<Json>, v: int)
  {
    exists it, k :: it in items && k in IdKeys && Yields(it, k, v)
  }

  /** Adding an item to the list adds its own raising keys. */
  lemma AnyRaisesSnoc(init: seq<Json>, last: Json)
    ensures AnyRaises(init + [last]) <==> AnyRaises(init) || ItemRaises(last)
  {
    var items := init + [last];
    if AnyRaises(items) {
      var it :| it in items && ItemRaises(it);
      if it != last {
        assert it in init;
      }
    }
    if AnyRaises(init) {
      var it :| it in init && ItemRaises(it);
      assert it in items;
    }
    assert last in items;
  }

  /** Discovery over a list of items fails exactly when some item's listed key is present, not None and not convertible by `int()`. */
  lemma {:induction false} ItemValuesRaise(items: seq<Json>)
    ensures ItemValues(items).None? <==> AnyRaises(items)
  {
    if items != [] {
      var init := items[..|items| - 1];
      var last := items[|items| - 1];
      ItemValuesRaise(init);
      KeyValuesRaise(last, IdKeys);
      assert items == init + [last];
      AnyRaisesSnoc(init, last);
    }
  }

  /** When discovery does not fail, its ids are exactly the converted values of every listed key of every item. */
  lemma {:induction false} ItemValuesYield(items: seq<Json>)
    requires ItemValues(items).Some?
    ensures forall v :: v in ItemValues(items).value <==> AnyYields(items, v)
  {
    if items != [] {
      var init := items[..|items| - 1];
      var last := items[|items| - 1];
      ItemValuesYield(init);
      KeyValuesYield(last, IdKeys);
      assert items == init + [last];
    }
  }

  predicate Increasing(s: seq<int>)
  {
    forall i, j :: 0 <= i < j < |s| ==> s[i] < s[j]
  }

  /** A value below every element of an increasing list may go in front of it. */
  lemma ConsIncreasing(a: int, t: seq<int>)
    requires Increasing(t) && forall y :: y in t ==> a < y
    ensures Increasing([a] + t)
  {
    forall i, j | 0 <= i < j < |[a] + t|
      ensures ([a] + t)[i] < ([a] + t)[j]
    {
      assert ([a] + t)[j] == t[j - 1];
      if i > 0 {
        assert ([a] + t)[i] == t[i - 1];
      } else {
        assert t[j - 1] in t;
      }
    }
  }

  /** Adding `x` to the set kept as a sorted list. */
  function InsertSorted(x: int, s: seq<int>): (r: seq<int>)
    requires Increasing(s)
    ensures Increasing(r)
    ensures forall y :: y in r <==> y in s || y == x
  {
    if s == [] then [x]
    else if x < s[0] then [x] + s
    else if x == s[0] then s
    else
      assert Increasing(s[1..]) by {
        forall i, j | 0 <= i < j < |s[1..]|
          ensures s[1..][i] < s[1..][j]
        {
          assert s[1..][i] == s[i + 1] && s[1..][j] == s[j + 1];
        }
      }
      var t := InsertSorted(x, s[1..]);
      forall y | y in s[1..]
        ensures s[0] < y
      {
        var j :| 0 <= j < |s[1..]| && s[1..][j] == y;
        assert s[j + 1] == y;
      }
      assert forall y :: y in s <==> y == s[0] || y in s[1..] by {
        assert s == [s[0]] + s[1..];
      }
      ConsIncreasing(s[0], t);
      [s[0]] + t
  }

  /** `sorted(set(vs))`. */
  function SortedOf(vs: seq<int>): (r: seq<int>)
    ensures Increasing(r)
    ensures forall y :: y in r <==> y in vs
  {
    if vs == [] then []
    else
      var init := vs[..|vs| - 1];
      assert vs == init + [vs[|vs| - 1]];
      InsertSorted(vs[|vs| - 1], SortedOf(init))
  }

  /** The head of an ascending list is its least member. */
  lemma HeadIsLeast(s: seq<int>, x: int)
    requires Increasing(s) && x in s
    ensures s[0] <= x
  {
  }

  /** The tail of an ascending list is ascending. */
  lemma TailIncreasing(s: seq<int>)
    requires Increasing(s) && s != []
    ensures Increasing(s[1..])
  {
    var t := s[1..];
    assert forall x :: 0 <= x < |t| ==> t[x] == s[x + 1];
  }

  /** The tail of an ascending list holds all members but the head. */
  lemma TailMembers(s: seq<int>)
    requires Increasing(s) && s != []
    ensures forall y :: y in s[1..] <==> y in s && y != s[0]
  {
    var t := s[1..];
    assert s == [s[0]] + t;
    forall y | y in s && y != s[0] ensures y in t {
      var k :| 0 <= k < |s| && s[k] == y;
      assert t[k - 1] == y;
    }
    forall y | y in t ensures y != s[0] {
      var k :| 0 <= k < |t| && t[k] == y;
      assert s[k + 1] == y;
    }
  }

  /** The tail of an ascending list is ascending and holds all members but the head. */
  lemma TailOfIncreasing(s: seq<int>)
    requires Increasing(s) && s != []
    ensures Increasing(s[1..])
    ensures forall y :: y in s[1..] <==> y in s && y != s[0]
  {
    TailIncreasing(s);
    TailMembers(s);
  }

  /** Two ascending lists with the same members are the same list. */
  lemma {:induction false} IncreasingUnique(a: seq<int>, b: seq<int>)
    requires Increasing(a) && Increasing(b)
    requires forall y :: y in a <==> y in b
    ensures a == b
  {
    if b != [] {
      assert b[0] in b;
    }
    if a != [] {
      assert a[0] in a;
      assert b != [] && b[0] in b;
      HeadIsLeast(a, b[0]);
      HeadIsLeast(b, a[0]);
      TailOfIncreasing(a);
      TailOfIncreasing(b);
      IncreasingUnique(a[1..], b[1..]);
      assert a == [a[0]] + a[1..] && b == [b[0]] + b[1..];
    }
  }

  /** What `try_discover_ids` returns for a probe: the sorted distinct ids read, or `[]`. */
  function DiscoveredIds(p: ProbeResult): (ids: seq<int>)
    ensures Increasing(ids)
    ensures Discovered(p).Some? ==> forall v :: v in ids <==> v in Discovered(p).value
    ensures Discovered(p).None? ==> ids == []
  {
    match Discovered(p)
    case None => []
    case Some(vs) => SortedOf(vs)
  }

  /** The list `try_discover_ids` returns is `DiscoveredIds`. */
  lemma TryDiscoverIdsIs(p: ProbeResult, ids: seq<int>)
    requires Increasing(ids)
    requires Discovered(p).None? ==> ids == []
    requires Discovered(p).Some? ==> forall v :: v in ids <==> v in Discovered(p).value
    ensures ids == DiscoveredIds(p)
  {
    IncreasingUnique(ids, DiscoveredIds(p));
  }

  /**
   * `try_discover_ids(base_url)` given what the probe of `base_url` returns:
   * the ids as `sorted(set(...))` (ascending, no repeats, exactly the values
   * read), and `[]` when there is no 200 reply, its body does not parse, or
   * one of the `int()` conversions raises.
   */
  method TryDiscoverIds(probe: ProbeResult) returns (ids: seq<int>)
    ensures Increasing(ids)
    ensures !(probe.Got? && probe.status == 200 && probe.body.Parsed?) ==> ids == []
    ensures Discovered(probe).None? ==> ids == []
    ensures Discovered(probe).Some? ==> forall v :: v in ids <==> v in Discovered(probe).value
    ensures ids == DiscoveredIds(probe)
  {
    var items := Listing(probe);
    var found: seq<int> := [];
    var i := 0;
    while i < |items|
      invariant 0 <= i <= |items|
      invariant Increasing(found)
      invariant i == 0 ==> found == []
      invariant ItemValues(items[..i]).Some?
      invariant forall v :: v in found <==> v in ItemValues(items[..i]).value
    {
      assert items[..i + 1][..i] == items[..i];
      var raised;
      found, raised := ReadKeys(items[i], found);
      if raised {
        KeyValuesRaise(items[i], IdKeys);
        assert items[i] in items;
        ItemValuesRaise(items);
        return [];
      }
      i := i + 1;
    }
    assert items[..i] == items;
    ids := found;
    TryDiscoverIdsIs(probe, ids);
  }

  /**
   * The inner loop over `IdKeys` for one item: each key that is present and
   * not None has its `int()` added to the sorted ids, or `raised` once one
   * raises.
   */
  method ReadKeys(item: Json, found0: seq<int>) returns (found: seq<int>, raised: bool)
    requires Increasing(found0)
    ensures raised <==> KeyValues(item, IdKeys).None?
    ensures Increasing(found)
    ensures !raised ==> forall v :: v in found <==> v in found0 || v in KeyValues(item, IdKeys).value
  {
    found, raised := found0, false;
    var k := 0;
    while k < |IdKeys|
      invariant 0 <= k <= |IdKeys|
      invariant Increasing(found)
      invariant KeyValues(item, IdKeys[..k]).Some?
      invariant forall v :: v in found <==> v in found0 || v in KeyValues(item, IdKeys[..k]).value
    {
      assert IdKeys[..k + 1][..k] == IdKeys[..k];
      var key := IdKeys[k];
      found, raised := ReadKey(item, key, found);
      if raised {
        assert key in IdKeys;
        KeyValuesRaise(item, IdKeys);
        return;
      }
      k := k + 1;
    }
    assert IdKeys[..k] == IdKeys;
  }

  /** One key of one item: `int(item[key])` added to the sorted ids when the key is present and not None. */
  method ReadKey(item: Json, key: string, found0: seq<int>) returns (found: seq<int>, raised: bool)
    requires Increasing(found0)
    ensures raised <==> Raises(item, key)
    ensures Increasing(found)
    ensures !raised ==> forall v :: v in found <==> v in found0 || v in KeyValue(item, key).value
  {
    found, raised := found0, false;
    if item.JObj? && HasKey(item, key) && Get(item, key) != JNull {
      var v := PyInt(Get(item, key));
      if v.None? {
        raised := true;
      } else {
        found := InsertSorted(v.value, found);
      }
    }
  }

  // ---------------------------------------------------------------------------
  // make_template_from_example
  // ---------------------------------------------------------------------------

  /** Where the last line of `s` starts: just after its last newline, or 0. */
  function LastLineStart(s: string): (i: nat)
    ensures i <= |s| && (i == 0 || s[i - 1] == '\n')
    ensures forall j :: i <= j < |s| ==> s[j] != '\n'
  {
    if s == [] then 0
    else if s[|s| - 1] == '\n' then |s|
    else
      var w := s[..|s| - 1];
      assert forall j :: 0 <= j < |w| ==> w[j] == s[j];
      LastLineStart(w)
  }

  /** The part of `s` after its last newline (all of it when there is none). */
  function AfterLastNewline(s: string): (r: string)
    ensures |r| <= |s| && r == s[|s| - |r|..]
    ensures !HasChar(r, '\n')
    ensures |r| == |s| || s[|s| - |r| - 1] == '\n'
  {
    var i := LastLineStart(s);
    assert forall j :: 0 <= j < |s| - i ==> s[i..][j] == s[i + j];
    s[i..]
  }

  lemma {:induction false} AfterLastNewlineOfLine(s: string)
    requires !HasChar(s, '\n')
    ensures AfterLastNewline(s) == s
  {
    if s != [] {
      assert s[|s| - 1] != '\n';
      assert !HasChar(s[..|s| - 1], '\n');
      AfterLastNewlineOfLine(s[..|s| - 1]);
    }
  }

  /**
   * Group 1 of `re.search(r"(.*?)(\d+)(\/?$)", url)`, or None without a
   * match. The digits must end where `/?$` can follow, so they are the
   * maximal digit run before an optional final '/' and newline; the search
   * starts as far left as it can, but `.` does not cross a newline, so the
   * group begins after the last newline before the digits; and the lazy
   * group stops where the run of digits starts.
   */
  function TemplatePrefix(url: string): Option<string>
  {
    var u := BeforeEnd(url);
    var k := TrailingDigits(u);
    if k == 0 then None else Some(AfterLastNewline(u[..|u| - k]))
  }

  /** `make_template_from_example(url)`: the group-1 prefix followed by `{}`. */
  function MakeTemplate(url: string): (r: Option<string>)
  {
    match TemplatePrefix(url)
    case None => None
    case Some(p) => Some(p + "{}")
  }

  /** There is no template exactly when the URL, without a final '/' and newline, does not end in a digit. */
  lemma MakeTemplateNone(url: string)
    ensures MakeTemplate(url).None? <==> (BeforeEnd(url) == [] || !IsDigit(BeforeEnd(url)[|BeforeEnd(url)| - 1]))
  {
  }

  /**
   * A template is the prefix of a match of the pattern: the URL is some text
   * ending at a newline (or empty), the prefix (no newline, not ending in a
   * digit), a non-empty run of digits, and what `/?$` accepts.
   */
  lemma MakeTemplateMatches(url: string) returns (pre: string, p: string, d: string, tail: string)
    requires MakeTemplate(url).Some?
    ensures url == pre + p + d + tail && MakeTemplate(url) == Some(p + "{}")
    ensures pre == [] || pre[|pre| - 1] == '\n'
    ensures !HasChar(p, '\n') && (p == [] || !IsDigit(p[|p| - 1]))
    ensures IsDigitString(d) && TailOk(tail)
  {
    var u, k, v;
    u, k, v, p := TemplateScans(url);
    pre, d, tail := MatchFromParts(url, u, k, v, p);
  }

  /** The scans `TemplatePrefix` makes of `url`, and what each of them establishes. */
  lemma TemplateScans(url: string) returns (u: string, k: nat, v: string, p: string)
    requires MakeTemplate(url).Some?
    ensures k > 0 && Scanned(url, u, k, v, p) && MakeTemplate(url) == Some(p + "{}")
  {
    u := BeforeEnd(url);
    k := TrailingDigits(u);
    v := u[..|u| - k];
    p := AfterLastNewline(v);
  }

  /** What the three scans of `url` establish, as `MatchFromParts` needs it. */
  predicate Scanned(url: string, u: string, k: nat, v: string, p: string)
  {
    |u| <= |url| && u == url[..|u|] && TailOk(url[|u|..]) &&
    k <= |u| && AllDigits(u[|u| - k..]) && (k == |u| || !IsDigit(u[|u| - k - 1])) &&
    v == u[..|u| - k] &&
    |p| <= |v| && p == v[|v| - |p|..] && !HasChar(p, '\n') && (|p| == |v| || v[|v| - |p| - 1] == '\n')
  }

  /** The pieces of a match, from the facts the three scans establish. */
  lemma MatchFromParts(url: string, u: string, k: nat, v: string, p: string) returns (pre: string, d: string, tail: string)
    requires Scanned(url, u, k, v, p) && k > 0
    ensures url == pre + p + d + tail
    ensures pre == [] || pre[|pre| - 1] == '\n'
    ensures p == [] || !IsDigit(p[|p| - 1])
    ensures IsDigitString(d) && TailOk(tail)
  {
    pre, d, tail := v[..|v| - |p|], u[|v|..], url[|u|..];
    NestedSlices(url, u, v, p);
    if pre != [] {
      assert pre[|pre| - 1] == v[|v| - |p| - 1];
    }
    if p != [] {
      assert p[|p| - 1] == v[|v| - 1] == u[|u| - k - 1];
    }
  }

  /** A text cut at the ends of a prefix, of a prefix of that, and of a suffix of that. */
  lemma NestedSlices(url: string, u: string, v: string, p: string)
    requires |u| <= |url| && u == url[..|u|]
    requires |v| <= |u| && v == u[..|v|]
    requires |p| <= |v| && p == v[|v| - |p|..]
    ensures url == v[..|v| - |p|] + p + u[|v|..] + url[|u|..]
  {
    assert v[..|v| - |p|] + p == v;
    assert v + u[|v|..] == u;
    assert u + url[|u|..] == url;
  }

  /**
   * The round trip: for a URL made of a one-line, brace-free prefix that does
   * not end in a digit, `str(n)` and an optional '/', the template is the
   * prefix plus `{}`, and formatting it with `n` rebuilds the URL without its
   * trailing '/'.
   */
  lemma TemplateRoundTrip(p: string, n: nat, slash: string)
    requires NoBraces(p) && !HasChar(p, '\n') && (p == [] || !IsDigit(p[|p| - 1]))
    requires slash == "" || slash == "/"
    ensures MakeTemplate(p + NatToString(n) + slash) == Some(p + "{}")
    ensures Format(p + "{}", [n]) == Some(p + NatToString(n))
  {
    TemplateOfDigits(p, NatToString(n), slash);
    FormatPrefixField(p, "{}", n);
    assert IntToString(n) == NatToString(n);
  }

  /** The template of a one-line prefix that does not end in a digit, a digit string and an optional '/'. */
  lemma TemplateOfDigits(p: string, d: string, slash: string)
    requires !HasChar(p, '\n') && (p == [] || !IsDigit(p[|p| - 1]))
    requires IsDigitString(d) && (slash == "" || slash == "/")
    ensures MakeTemplate(p + d + slash) == Some(p + "{}")
  {
    DigitRunAfter(p, d, slash);
    assert TemplatePrefix(p + d + slash) == Some(AfterLastNewline(p));
    AfterLastNewlineOfLine(p);
  }

  /**
   * `re.sub(r"/\d+/?$", '', url)`: the final `/<digits>` and an optional '/'
   * after it are removed; a final newline that `$` matched before stays.
   */
  function StripTrailingId(s: string): string
  {
    var u := BeforeEnd(s);
    var k := TrailingDigits(u);
    if 0 < k < |u| && u[|u| - k - 1] == '/' then
      s[..|u| - k - 1] + (if |s| > 0 && s[|s| - 1] == '\n' then "\n" else "")
    else s
  }

  /** Removing a final `/<digits>` or `/<digits>/` gives back what came before it. */
  lemma StripTrailingDigitsOf(base: string, d: string, slash: string)
    requires IsDigitString(d) && (slash == "" || slash == "/")
    ensures StripTrailingId(base + "/" + d + slash) == base
  {
    var p := base + "/";
    DigitRunAfter(p, d, slash);
    var u := p + d;
    var s := u + slash;
    assert u[|base|] == p[|base|] == '/';
    assert s[..|base|] == base by {
      assert s[..|base|] == u[..|p|][..|base|];
    }
    assert s[|s| - 1] != '\n';
  }

  /** Removing the id of `base/<n>` or `base/<n>/` gives back `base`, whatever `base` is. */
  lemma StripTrailingIdOf(base: string, n: nat, slash: string)
    requires slash == "" || slash == "/"
    ensures StripTrailingId(base + "/" + NatToString(n) + slash) == base
  {
    StripTrailingDigitsOf(base, NatToString(n), slash);
  }


  /** `make_template_from_example(url) or (base + '/{}')`. */
  function TemplateOr(url: string, base: string): (t: string)
    ensures MakeTemplate(url).Some? ==> t == MakeTemplate(url).value
    ensures MakeTemplate(url).None? ==> t == base + "/{}"
  {
    match MakeTemplate(url)
    case Some(t) => t
    case None => base + "/{}"
  }

  // ---------------------------------------------------------------------------
  // ingest_range_for_url / ingest_ids_for_url
  // ---------------------------------------------------------------------------

  /** `url_template.format(mid)` for each id; the first id whose format raises, or `|ids|`. */
  function FormatStop(template: string, ids: seq<int>): (n: nat)
    ensures n <= |ids|
    ensures forall i :: 0 <= i < n ==> Format(template, [ids[i]]).Some?
    ensures n < |ids| ==> Format(template, [ids[n]]).None?
  {
    if ids == [] then 0
    else if Format(template, [ids[0]]).None? then 0
    else
      var n := FormatStop(template, ids[1..]);
      assert forall i :: 1 <= i < n + 1 ==> ids[i] == ids[1..][i - 1];
      1 + n
  }

  /** The URLs of the given ids that are passed to `ingest_endpoint`: those not reported permanently missing. */
  function TriedUrls(template: string, ids: seq<int>, health: Health): (urls: seq<string>)
    requires forall i :: 0 <= i < |ids| ==> Format(template, [ids[i]]).Some?
    ensures |urls| <= |ids|
  {
    if ids == [] then []
    else
      var url := Format(template, [ids[|ids| - 1]]).value;
      TriedUrls(template, ids[..|ids| - 1], health) + (if health(url) == Permanent then [] else [url])
  }

  /** A URL reported permanently missing is never ingested; every other formatted URL is, in id order. */
  lemma {:induction false} TriedUrlsMeaning(template: string, ids: seq<int>, health: Health)
    requires forall i :: 0 <= i < |ids| ==> Format(template, [ids[i]]).Some?
    ensures forall u :: u in TriedUrls(template, ids, health) <==>
              health(u) != Permanent && exists i :: 0 <= i < |ids| && Format(template, [ids[i]]) == Some(u)
  {
    if ids != [] {
      var init := ids[..|ids| - 1];
      TriedUrlsMeaning(template, init, health);
      forall u
        ensures u in TriedUrls(template, ids, health) <==>
                  health(u) != Permanent && exists i :: 0 <= i < |ids| && Format(template, [ids[i]]) == Some(u)
      {
        if health(u) != Permanent && exists i :: 0 <= i < |ids| && Format(template, [ids[i]]) == Some(u) {
          var i :| 0 <= i < |ids| && Format(template, [ids[i]]) == Some(u);
          if i < |init| {
            assert Format(template, [init[i]]) == Some(u);
          }
        }
        if u in TriedUrls(template, init, health) {
          var i :| 0 <= i < |init| && Format(template, [init[i]]) == Some(u);
          assert Format(template, [ids[i]]) == Some(u);
        }
      }
    }
  }

  /** `TriedUrlsMeaning` for the ids before `stop`, stated over the whole list. */
  lemma TriedPrefixMeaning(template: string, ids: seq<int>, stop: nat, health: Health)
    requires stop <= |ids| && forall i :: 0 <= i < stop ==> Format(template, [ids[i]]).Some?
    ensures forall u :: u in TriedUrls(template, ids[..stop], health) <==>
              health(u) != Permanent && exists i :: 0 <= i < stop && Format(template, [ids[i]]) == Some(u)
  {
    var done := ids[..stop];
    TriedUrlsMeaning(template, done, health);
    forall u | exists i :: 0 <= i < stop && Format(template, [ids[i]]) == Some(u)
      ensures exists i :: 0 <= i < |done| && Format(template, [done[i]]) == Some(u)
    {
      var i :| 0 <= i < stop && Format(template, [ids[i]]) == Some(u);
      assert done[i] == ids[i];
    }
  }

  /** A brace-free prefix plus `{}` formats every id into the prefix followed by the id. */
  lemma FormatEveryId(p: string)
    requires NoBraces(p)
    ensures forall m: nat :: Format(p + "{}", [m]) == Some(p + NatToString(m))
  {
    forall m: nat ensures Format(p + "{}", [m]) == Some(p + NatToString(m)) {
      FormatPrefixField(p, "{}", m);
    }
  }

  /** Through a brace-free prefix plus `{}` or `{0}` every id formats, and the ingested URLs are the prefix plus each id not reported permanently missing. */
  lemma PrefixTemplateTried(p: string, f: string, ids: seq<int>, health: Health)
    requires NoBraces(p) && (f == "{}" || f == "{0}")
    ensures (forall i :: 0 <= i < |ids| ==> Format(p + f, [ids[i]]) == Some(p + IntToString(ids[i]))) &&
            FormatStop(p + f, ids) == |ids| &&
            forall u :: u in TriedUrls(p + f, ids, health) <==>
              health(u) != Permanent && exists i :: 0 <= i < |ids| && u == p + IntToString(ids[i])
  {
    forall i | 0 <= i < |ids| ensures Format(p + f, [ids[i]]) == Some(p + IntToString(ids[i])) {
      FormatPrefixField(p, f, ids[i]);
    }
    TriedUrlsMeaning(p + f, ids, health);
  }

  lemma TriedUrlsSnoc(template: string, ids: seq<int>, i: nat, health: Health)
    requires i < |ids| && forall j :: 0 <= j <= i ==> Format(template, [ids[j]]).Some?
    ensures var url := Format(template, [ids[i]]).value;
            TriedUrls(template, ids[..i + 1], health) ==
              TriedUrls(template, ids[..i], health) + (if health(url) == Permanent then [] else [url])
  {
    assert ids[..i + 1][..i] == ids[..i];
  }

  /** Where the loop of `ingest_ids_for_url` stands after the first `i` ids, all of which formatted. */
  ghost predicate IdsDone(table: string, template: string, ids: seq<int>, health: Health, step: StepFn, s0: State,
                          i: nat, tried: nat, s: State)
  {
    i <= |ids| && (forall j :: 0 <= j < i ==> Format(template, [ids[j]]).Some?) &&
    tried == |TriedUrls(template, ids[..i], health)| &&
    s == Run(s0, 0, TargetsOf(table, TriedUrls(template, ids[..i], health)), step)
  }

  /** One id of the loop, whose URL formatted: skipped when reported permanently missing, else one step. */
  method IdsStep(table: string, template: string, ids: seq<int>, health: Health, step: StepFn, s0: State,
                 i: nat, url: string, tried: nat, s: State)
    returns (tried': nat, s': State)
    requires i < |ids| && Format(template, [ids[i]]) == Some(url)
    requires IdsDone(table, template, ids, health, step, s0, i, tried, s)
    ensures IdsDone(table, template, ids, health, step, s0, i + 1, tried', s')
  {
    ghost var urls := TriedUrls(template, ids[..i], health);
    assert forall j :: 0 <= j < i + 1 ==> Format(template, [ids[j]]).Some?;
    TriedUrlsSnoc(template, ids, i, health);
    ghost var urls' := TriedUrls(template, ids[..i + 1], health);
    if health(url) != Permanent {
      assert urls' == urls + [url];
      TargetsOfSnoc(table, urls, url);
      RunAppend(s0, 0, TargetsOf(table, urls), Target(table, url), step);
      tried', s' := tried + 1, step(s, Target(table, url), tried);
    } else {
      assert urls' == urls;
      tried', s' := tried, s;
    }
  }

  /** What the loop of `ingest_ids_for_url` / `ingest_range_for_url` over `ids` with `template` does: the new state, and whether a `format` raised. */
  function IdsEffect(table: string, template: string, ids: seq<int>, health: Health, step: StepFn, s: State): (State, bool)
  {
    var stop := FormatStop(template, ids);
    (Run(s, 0, TargetsOf(table, TriedUrls(template, ids[..stop], health)), step), stop < |ids|)
  }

  /** With a bounded step, the loop adds at most one True result per id and keeps the set of tables. */
  lemma IdsEffectBounded(table: string, template: string, ids: seq<int>, health: Health, step: StepFn, s: State)
    requires StepBounded(step)
    ensures var r := IdsEffect(table, template, ids, health, step, s).0;
            s.0 <= r.0 <= s.0 + |ids| && r.1.Keys == s.1.Keys
  {
    var stop := FormatStop(template, ids);
    RunBounded(s, 0, TargetsOf(table, TriedUrls(template, ids[..stop], health)), step);
  }

  /**
   * The loop of `ingest_ids_for_url` for any step: each id in order is
   * formatted into a URL (a format that raises ends the loop, `crashed`); a
   * URL `health` reports permanently missing is skipped without counting in
   * `tried`; a failed check falls through; every other URL is one step,
   * request `tried`.
   */
  method IngestIdsLoop(table: string, template: string, ids: seq<int>, health: Health, step: StepFn, s0: State)
    returns (tried: nat, crashed: bool, s: State)
    ensures (s, crashed) == IdsEffect(table, template, ids, health, step, s0)
    ensures crashed <==> FormatStop(template, ids) < |ids|
    ensures tried == |TriedUrls(template, ids[..FormatStop(template, ids)], health)|
    ensures s == Run(s0, 0, TargetsOf(table, TriedUrls(template, ids[..FormatStop(template, ids)], health)), step)
  {
    ghost var stop := FormatStop(template, ids);
    tried, crashed, s := 0, false, s0;
    var i := 0;
    while i < |ids|
      invariant i <= stop
      invariant IdsDone(table, template, ids, health, step, s0, i, tried, s)
    {
      var url := Format(template, [ids[i]]);
      if url.None? {
        crashed := true;
        break;
      }
      tried, s := IdsStep(table, template, ids, health, step, s0, i, url.value, tried, s);
      i := i + 1;
    }
    assert i == stop;
  }

  /**
   * `ingest_ids_for_url(conn, table, url_template, ids)`: the loop above with
   * `ingest_endpoint` as its step, request `k` of the call getting
   * `net(url, k)` and `raises(k)`; `inserted` counts the True results.
   */
  method IngestIdsForUrl(db0: Db, table: string, template: string, ids: seq<int>, health: Health,
                         net: Network, hash: Hasher, raises: nat -> bool)
    returns (inserted: nat, tried: nat, crashed: bool, db: Db)
    requires ValidDb(db0)
    ensures crashed <==> FormatStop(template, ids) < |ids|
    ensures tried == |TriedUrls(template, ids[..FormatStop(template, ids)], health)|
    ensures (inserted, db) == IngestAll(db0, TargetsOf(table, TriedUrls(template, ids[..FormatStop(template, ids)], health)), net, hash, raises)
    ensures inserted <= tried <= |ids|
  {
    var s;
    tried, crashed, s := IngestIdsLoop(table, template, ids, health, IngestStepFn(net, hash, raises), (0, db0));
    inserted, db := s.0, s.1;
  }

  /**
   * `ingest_range_for_url(conn, table, url_template, start, end)`: the same
   * loop over `start..end` ascending.
   */
  method IngestRangeForUrl(db0: Db, table: string, template: string, start: int, end: int, health: Health,
                           net: Network, hash: Hasher, raises: nat -> bool)
    returns (inserted: nat, tried: nat, crashed: bool, db: Db)
    requires ValidDb(db0)
    ensures crashed <==> FormatStop(template, Range(start, end)) < |Range(start, end)|
    ensures tried == |TriedUrls(template, Range(start, end)[..FormatStop(template, Range(start, end))], health)|
    ensures (inserted, db) == IngestAll(db0, TargetsOf(table, TriedUrls(template, Range(start, end)[..FormatStop(template, Range(start, end))], health)), net, hash, raises)
    ensures inserted <= tried <= if start <= end then end - start + 1 else 0
  {
    inserted, tried, crashed, db := IngestIdsForUrl(db0, table, template, Range(start, end), health, net, hash, raises);
  }
}
