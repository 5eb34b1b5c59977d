/**
 * JSON values as the Python scripts see them after `json.loads` / `resp.json()`.
 * Python's `None` is `JNull`. Objects are association lists, so key order is
 * part of the value (as it is for a Python `dict`); a dict never repeats a key,
 * which `WellFormed` states. Floating-point numbers are not part of the model.
 */
module Json {
  import opened Wrappers

  datatype Json =
    | JNull
    | JBool(b: bool)
    | JInt(i: int)
    | JStr(s: string)
    | JArr(items: seq<Json>)
    | JObj(fields: seq<Field>)

  datatype Field = Field(key: string, val: Json)

  /** Python truthiness: None, False, 0, "", [] and {} are falsy. */
  predicate Truthy(j: Json)
  {
    match j
    case JNull => false
    case JBool(b) => b
    case JInt(i) => i != 0
    case JStr(s) => s != ""
    case JArr(xs) => xs != []
    case JObj(fs) => fs != []
  }

  function Keys(fs: seq<Field>): (ks: seq<string>)
    ensures |ks| == |fs|
    ensures forall i :: 0 <= i < |fs| ==> ks[i] == fs[i].key
  {
    if fs == [] then [] else [fs[0].key] + Keys(fs[1..])
  }

  predicate DistinctKeys(fs: seq<Field>)
  {
    forall i, j :: 0 <= i < j < |fs| ==> fs[i].key != fs[j].key
  }

  /** Every object, at every depth, has pairwise distinct keys (as a Python dict does). */
  predicate WellFormed(j: Json)
  {
    match j
    case JArr(xs) => WellFormedItems(xs)
    case JObj(fs) => DistinctKeys(fs) && WellFormedFields(fs)
    case _ => true
  }

  predicate WellFormedItems(xs: seq<Json>)
  {
    xs == [] || (WellFormed(xs[0]) && WellFormedItems(xs[1..]))
  }

  predicate WellFormedFields(fs: seq<Field>)
  {
    fs == [] || (WellFormed(fs[0].val) && WellFormedFields(fs[1..]))
  }

  /** The value stored under key `k`, if any. */
  function Lookup(fs: seq<Field>, k: string): (r: Option<Json>)
    ensures r.Some? <==> exists i :: 0 <= i < |fs| && fs[i].key == k
    ensures r.Some? ==> exists i :: 0 <= i < |fs| && fs[i] == Field(k, r.value)
  {
    if fs == [] then None
    else if fs[0].key == k then Some(fs[0].val)
    else
      var r := Lookup(fs[1..], k);
      assert r.Some? ==> exists i :: 0 <= i < |fs[1..]| && fs[1..][i] == Field(k, r.value);
      r
  }

  /** Values `len()` accepts: strings, lists and dicts. */
  predicate HasLen(j: Json)
  {
    j.JStr? || j.JArr? || j.JObj?
  }

  predicate HasKey(j: Json, k: string)
  {
    j.JObj? && Lookup(j.fields, k).Some?
  }

  /** `d.get(k)` on a dict: the stored value, or None when the key is absent. */
  function Get(j: Json, k: string): (r: Json)
    requires j.JObj?
    ensures HasKey(j, k) || r == JNull
  {
    Lookup(j.fields, k).GetOr(JNull)
  }

  /** `d.get(k, default)` on a dict. */
  function GetOr(j: Json, k: string, default: Json): (r: Json)
    requires j.JObj?
    ensures !HasKey(j, k) ==> r == default
    ensures HasKey(j, k) ==> r == Get(j, k)
  {
    Lookup(j.fields, k).GetOr(default)
  }

  /** Python's `a or b`: `a` when truthy, otherwise `b` (whatever `b` is). */
  function Or(a: Json, b: Json): Json
  {
    if Truthy(a) then a else b
  }

  /** `v0 or v1 or … or vn`: the first truthy operand, or the last operand when none is truthy. */
  function OrChain(vs: seq<Json>): Json
    requires vs != []
  {
    if |vs| == 1 then vs[0] else Or(vs[0], OrChain(vs[1..]))
  }

  /** `d.get(k0) or d.get(k1) or …` over the listed keys. */
  function GetFirst(j: Json, ks: seq<string>): Json
    requires j.JObj? && ks != []
  {
    if |ks| == 1 then Get(j, ks[0]) else Or(Get(j, ks[0]), GetFirst(j, ks[1..]))
  }

  lemma {:induction false} OrChainIsFirstTruthy(vs: seq<Json>)
    requires vs != []
    ensures (exists i :: 0 <= i < |vs| && Truthy(vs[i])) ==>
              exists i :: 0 <= i < |vs| && Truthy(vs[i]) && OrChain(vs) == vs[i] &&
                forall k :: 0 <= k < i ==> !Truthy(vs[k])
    ensures (forall i :: 0 <= i < |vs| ==> !Truthy(vs[i])) ==> OrChain(vs) == vs[|vs| - 1]
  {
    if |vs| > 1 {
      OrChainIsFirstTruthy(vs[1..]);
      if !Truthy(vs[0]) && exists i :: 0 <= i < |vs| && Truthy(vs[i]) {
        var i :| 0 <= i < |vs| && Truthy(vs[i]);
        assert i > 0 && Truthy(vs[1..][i - 1]);
        var i' :| 0 <= i' < |vs[1..]| && Truthy(vs[1..][i']) && OrChain(vs[1..]) == vs[1..][i'] &&
                 forall k :: 0 <= k < i' ==> !Truthy(vs[1..][k]);
        assert forall k :: 0 <= k < i' + 1 ==> !Truthy(vs[k]) by {
          forall k | 0 <= k < i' + 1 ensures !Truthy(vs[k]) {
            if k > 0 { assert vs[k] == vs[1..][k - 1]; }
          }
        }
      }
      if forall i :: 0 <= i < |vs| ==> !Truthy(vs[i]) {
        assert forall i :: 0 <= i < |vs[1..]| ==> !Truthy(vs[1..][i]) by {
          forall i | 0 <= i < |vs[1..]| ensures !Truthy(vs[1..][i]) { assert vs[1..][i] == vs[i + 1]; }
        }
      }
    }
  }

  /** The values `d.get(k)` for each key, in order. */
  function GetAll(j: Json, ks: seq<string>): (vs: seq<Json>)
    requires j.JObj?
    ensures |vs| == |ks|
    ensures forall i :: 0 <= i < |ks| ==> vs[i] == Get(j, ks[i])
  {
    if ks == [] then [] else [Get(j, ks[0])] + GetAll(j, ks[1..])
  }

  lemma {:induction false} GetFirstIsOrChain(j: Json, ks: seq<string>)
    requires j.JObj? && ks != []
    ensures GetFirst(j, ks) == OrChain(GetAll(j, ks))
  {
    if |ks| > 1 {
      GetFirstIsOrChain(j, ks[1..]);
      assert GetAll(j, ks)[1..] == GetAll(j, ks[1..]);
    }
  }
}
