/**
 * The pieces of Python's `re` semantics the scripts' patterns rely on:
 * `$` matches at the end of the text or just before a final newline, and a
 * greedy `\d+` anchored there takes the whole trailing run of digits.
 */
module PyRegex {
  import opened PyText

  /** What may follow the digit group: an optional '/', then `$` (the end, or just before a final newline). */
  predicate TailOk(t: string)
  {
    t == "" || t == "/" || t == "\n" || t == "/\n"
  }

  /** Where the run of digits that ends `u` starts. */
  function DigitRunStart(u: string): (i: nat)
    ensures i <= |u| && (i == 0 || !IsDigit(u[i - 1]))
    ensures forall j :: i <= j < |u| ==> IsDigit(u[j])
  {
    if u == [] || !IsDigit(u[|u| - 1]) then |u|
    else
      var w := u[..|u| - 1];
      assert forall j :: 0 <= j < |w| ==> w[j] == u[j];
      DigitRunStart(w)
  }

  /** Length of the longest run of digits that ends `u`. */
  function TrailingDigits(u: string): (k: nat)
    ensures k <= |u|
    ensures AllDigits(u[|u| - k..])
    ensures k == |u| || !IsDigit(u[|u| - k - 1])
  {
    var i := DigitRunStart(u);
    assert forall j :: 0 <= j < |u| - i ==> u[i..][j] == u[i + j];
    |u| - i
  }

  /** The run of digits is determined by where it starts. */
  lemma TrailingDigitsUnique(u: string, j: nat)
    requires j <= |u| && AllDigits(u[j..])
    requires j == 0 || !IsDigit(u[j - 1])
    ensures TrailingDigits(u) == |u| - j
  {
  }

  /** `$` can match before a final newline: the text the digits must end, and what follows it. */
  function BeforeEnd(s: string): (u: string)
    ensures |u| <= |s| && u == s[..|u|] && TailOk(s[|u|..])
  {
    var t := if |s| > 0 && s[|s| - 1] == '\n' then s[..|s| - 1] else s;
    assert TailOk(s[|t|..]);
    if |t| > 0 && t[|t| - 1] == '/' then
      assert s[|t| - 1..] == "/" + s[|t|..];
      t[..|t| - 1]
    else t
  }

  /** A text ending in a digit, with an optional '/' after it, is all of what `$` anchors. */
  lemma BeforeEndOfDigitEnd(u: string, slash: string)
    requires u != [] && IsDigit(u[|u| - 1]) && (slash == "" || slash == "/")
    ensures BeforeEnd(u + slash) == u
  {
    var s := u + slash;
    assert s[..|u|] == u;
    assert s[|s| - 1] != '\n';
  }

  /** After a prefix that does not end in a digit, the trailing run of digits is exactly the digit string. */
  lemma DigitsAfter(p: string, d: string)
    requires AllDigits(d) && (p == [] || !IsDigit(p[|p| - 1]))
    ensures TrailingDigits(p + d) == |d|
    ensures (p + d)[..|p|] == p
  {
    var u := p + d;
    assert u[|p|..] == d;
    assert p != [] ==> u[|p| - 1] == p[|p| - 1];
    TrailingDigitsUnique(u, |p|);
  }

  /** After a prefix that does not end in a digit, a digit string with an optional '/' is the whole anchored run. */
  lemma DigitRunAfter(p: string, d: string, slash: string)
    requires IsDigitString(d) && (p == [] || !IsDigit(p[|p| - 1]))
    requires slash == "" || slash == "/"
    ensures BeforeEnd(p + d + slash) == p + d
    ensures TrailingDigits(p + d) == |d|
    ensures (p + d)[..|p|] == p
  {
    assert (p + d)[|p + d| - 1] == d[|d| - 1];
    BeforeEndOfDigitEnd(p + d, slash);
    DigitsAfter(p, d);
  }
}
