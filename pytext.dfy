/**
 * The pieces of Python's `str` and `int` behaviour the scripts rely on:
 * `str(n)`, `int(s)`, `strip`, `startswith`, `in`, `replace`, `upper`,
 * `lower`, `isdigit` and `str.format` with positional `{}` fields.
 * Digits and letter case are ASCII only.
 */
module PyText {
  import opened Wrappers

  /** `c.isspace()` for every code point Python treats as whitespace. */
  predicate IsSpace(c: char)
  {
    ('\U{9}' <= c <= '\U{d}') || ('\U{1c}' <= c <= '\U{20}') || c == '\U{85}' || c == '\U{a0}' ||
    c == '\U{1680}' || ('\U{2000}' <= c <= '\U{200a}') || c == '\U{2028}' || c == '\U{2029}' ||
    c == '\U{202f}' || c == '\U{205f}' || c == '\U{3000}'
  }

  function LStrip(s: string): (r: string)
    ensures |r| <= |s| && r == s[|s| - |r|..]
    ensures r == [] || !IsSpace(r[0])
    ensures forall i :: 0 <= i < |s| - |r| ==> IsSpace(s[i])
  {
    if s != [] && IsSpace(s[0]) then LStrip(s[1..]) else s
  }

  function RStrip(s: string): (r: string)
    ensures |r| <= |s| && r == s[..|r|]
    ensures r == [] || !IsSpace(r[|r| - 1])
    ensures forall i :: |r| <= i < |s| ==> IsSpace(s[i])
  {
    if s != [] && IsSpace(s[|s| - 1]) then RStrip(s[..|s| - 1]) else s
  }

  /** `s.strip()`. */
  function Strip(s: string): string
  {
    RStrip(LStrip(s))
  }

  lemma StripNoSpace(s: string)
    requires forall i :: 0 <= i < |s| ==> !IsSpace(s[i])
    ensures Strip(s) == s
  {
  }

  predicate StartsWith(s: string, p: string)
  {
    |p| <= |s| && s[..|p|] == p
  }

  predicate EndsWith(s: string, p: string)
  {
    |p| <= |s| && s[|s| - |p|..] == p
  }

  predicate OccursAt(s: string, sub: string, i: nat)
  {
    i + |sub| <= |s| && s[i..i + |sub|] == sub
  }

  /** `sub in s`. */
  predicate Contains(s: string, sub: string)
  {
    exists i: nat | i <= |s| :: OccursAt(s, sub, i)
  }

  predicate HasChar(s: string, c: char)
  {
    exists i :: 0 <= i < |s| && s[i] == c
  }

  /** `s.replace(pat, rep)`: every non-overlapping occurrence, scanning left to right. */
  function Replace(s: string, pat: string, rep: string): string
    requires pat != []
    decreases |s|
  {
    if |s| < |pat| then s
    else if s[..|pat|] == pat then rep + Replace(s[|pat|..], pat, rep)
    else [s[0]] + Replace(s[1..], pat, rep)
  }

  lemma {:induction false} ReplaceAbsent(s: string, pat: string, rep: string)
    requires pat != [] && !Contains(s, pat)
    ensures Replace(s, pat, rep) == s
    decreases |s|
  {
    if |s| >= |pat| {
      assert !OccursAt(s, pat, 0);
      assert s[0..0 + |pat|] == s[..|pat|];
      assert !Contains(s[1..], pat) by {
        forall i: nat | OccursAt(s[1..], pat, i) ensures false {
          assert s[1..][i..i + |pat|] == s[i + 1..i + 1 + |pat|];
          assert OccursAt(s, pat, i + 1);
        }
      }
      ReplaceAbsent(s[1..], pat, rep);
    }
  }

  predicate IsDigit(c: char)
  {
    '0' <= c <= '9'
  }

  function DigitValue(c: char): (d: nat)
    requires IsDigit(c)
    ensures d < 10
  {
    (c as int) - ('0' as int)
  }

  function DigitChar(d: nat): (c: char)
    requires d < 10
    ensures IsDigit(c) && DigitValue(c) == d
  {
    ('0' as int + d) as char
  }

  predicate AllDigits(s: string)
  {
    forall i :: 0 <= i < |s| ==> IsDigit(s[i])
  }

  /** `s.isdigit()`: non-empty and every character a digit. */
  predicate IsDigitString(s: string)
  {
    s != [] && AllDigits(s)
  }

  /** The number a string of decimal digits denotes. */
  function DigitsValue(s: string): nat
    requires AllDigits(s)
  {
    if s == [] then 0 else 10 * DigitsValue(s[..|s| - 1]) + DigitValue(s[|s| - 1])
  }

  /** `str(n)` for a non-negative integer. */
  function NatToString(n: nat): (r: string)
    ensures IsDigitString(r)
    ensures r[0] != '0' || r == "0"
  {
    if n < 10 then [DigitChar(n)] else NatToString(n / 10) + [DigitChar(n % 10)]
  }

  /** `str(n)` for an integer. */
  function IntToString(n: int): (r: string)
    ensures r != []
  {
    if n < 0 then "-" + NatToString(-n) else NatToString(n)
  }

  lemma {:induction false} NatToStringValue(n: nat)
    ensures DigitsValue(NatToString(n)) == n
  {
    if n >= 10 {
      NatToStringValue(n / 10);
      var s := NatToString(n);
      assert s[..|s| - 1] == NatToString(n / 10);
    }
  }

  /** `s` is one or more digit runs separated by single underscores (Python's integer-literal grammar). */
  predicate DigitGroups(s: string)
  {
    s != [] && IsDigit(s[0]) && IsDigit(s[|s| - 1]) &&
    (forall i :: 0 <= i < |s| ==> IsDigit(s[i]) || s[i] == '_') &&
    (forall i :: 0 <= i < |s| - 1 ==> !(s[i] == '_' && s[i + 1] == '_'))
  }

  function DropUnderscores(s: string): (r: string)
    requires forall i :: 0 <= i < |s| ==> IsDigit(s[i]) || s[i] == '_'
    ensures AllDigits(r)
  {
    if s == [] then []
    else if s[0] == '_' then DropUnderscores(s[1..])
    else [s[0]] + DropUnderscores(s[1..])
  }

  lemma {:induction false} DropUnderscoresOfDigits(s: string)
    requires AllDigits(s)
    ensures DropUnderscores(s) == s
  {
    if s != [] { DropUnderscoresOfDigits(s[1..]); }
  }

  /** An unsigned body of `int(...)`: digit groups, their value with underscores ignored. */
  function ParseUnsigned(s: string): Option<nat>
  {
    if DigitGroups(s) then Some(DigitsValue(DropUnderscores(s))) else None
  }

  /**
   * `int(s)` for a `str`: surrounding whitespace is ignored, an optional sign,
   * then digit groups; anything else raises ValueError, modelled as None.
   */
  function ParseInt(s: string): Option<int>
  {
    var t := Strip(s);
    if t != [] && (t[0] == '+' || t[0] == '-') then
      match ParseUnsigned(t[1..])
      case None => None
      case Some(v) => Some(if t[0] == '-' then -(v as int) else v as int)
    else
      match ParseUnsigned(t)
      case None => None
      case Some(v) => Some(v as int)
  }

  lemma ParseUnsignedNatToString(n: nat)
    ensures ParseUnsigned(NatToString(n)) == Some(n)
  {
    var s := NatToString(n);
    DropUnderscoresOfDigits(s);
    NatToStringValue(n);
  }

  /** `int(str(n)) == n`. */
  lemma ParseIntToString(n: int)
    ensures ParseInt(IntToString(n)) == Some(n)
  {
    var s := IntToString(n);
    StripNoSpace(s);
    ParseUnsignedNatToString(if n < 0 then -n else n);
    if n < 0 {
      assert s[1..] == NatToString(-n);
    }
  }

  lemma ParseIntOfDigits(s: string)
    requires IsDigitString(s)
    ensures ParseInt(s) == Some(DigitsValue(s) as int)
  {
    StripNoSpace(s);
    DropUnderscoresOfDigits(s);
  }

  function UpperChar(c: char): char
  {
    if 'a' <= c <= 'z' then (c as int - 32) as char else c
  }

  function LowerChar(c: char): char
  {
    if 'A' <= c <= 'Z' then (c as int + 32) as char else c
  }

  /** `s.upper()` on ASCII letters. */
  function Upper(s: string): (r: string)
    ensures |r| == |s| && forall i :: 0 <= i < |s| ==> r[i] == UpperChar(s[i])
  {
    if s == [] then [] else [UpperChar(s[0])] + Upper(s[1..])
  }

  /** `s.lower()` on ASCII letters. */
  function Lower(s: string): (r: string)
    ensures |r| == |s| && forall i :: 0 <= i < |s| ==> r[i] == LowerChar(s[i])
  {
    if s == [] then [] else [LowerChar(s[0])] + Lower(s[1..])
  }

  /** `sep.join(parts)`. */
  function Join(parts: seq<string>, sep: string): string
  {
    if parts == [] then "" else if |parts| == 1 then parts[0] else parts[0] + sep + Join(parts[1..], sep)
  }

  predicate NoBraces(s: string)
  {
    forall i :: 0 <= i < |s| ==> s[i] != '{' && s[i] != '}'
  }

  /** How the fields of a template are numbered so far: mixing `{}` with `{0}` raises. */
  datatype Numbering = Unnumbered | Automatic | Manual

  /** The index of the first `}` in `t` from `i` on, or `|t|`. */
  function CloseAt(t: string, i: nat): (j: nat)
    requires i <= |t|
    ensures i <= j <= |t| && (j < |t| ==> t[j] == '}')
    ensures forall k :: i <= k < j ==> t[k] != '}'
    decreases |t| - i
  {
    if i == |t| || t[i] == '}' then i else CloseAt(t, i + 1)
  }

  /**
   * One replacement field `{body}` of `str.format` with integer arguments:
   * an empty name takes the next argument, a decimal name the argument at
   * that index, and an optional conversion `!s`, `!r` or `!a` writes an
   * integer as `str` does. The text, the next automatic index and the
   * numbering afterwards; None for an argument that is missing, a switch
   * between automatic and manual numbering, a bad conversion, a named field
   * (a `KeyError` without keyword arguments), or a field with a format spec
   * or an attribute or index part, which the model does not interpret.
   */
  function Field(body: string, args: seq<int>, next: nat, mode: Numbering): Option<(string, nat, Numbering)>
  {
    var k := FindChar(body, '!');
    var name := body[..k];
    if ':' in body || (k < |body| && !(|body| == k + 2 && body[k + 1] in "sra")) then None
    else if name == [] then
      if mode == Manual || next >= |args| then None
      else Some((IntToString(args[next]), next + 1, Automatic))
    else if IsDigitString(name) then
      if mode == Automatic || DigitsValue(name) >= |args| then None
      else Some((IntToString(args[DigitsValue(name)]), next, Manual))
    else None
  }

  /** The index of the first `c` in `s`, or `|s|`. */
  function FindChar(s: string, c: char): (k: nat)
    ensures k <= |s| && (k < |s| ==> s[k] == c) && forall i :: 0 <= i < k ==> s[i] != c
  {
    if s == [] then 0 else if s[0] == c then 0 else 1 + FindChar(s[1..], c)
  }

  /** `template.format(*args)` from the current numbering state on. */
  function FormatFrom(t: string, args: seq<int>, next: nat, mode: Numbering): Option<string>
    decreases |t|
  {
    if t == [] then Some("")
    else if |t| >= 2 && t[0] == '{' && t[1] == '{' then
      match FormatFrom(t[2..], args, next, mode) case None => None case Some(r) => Some("{" + r)
    else if |t| >= 2 && t[0] == '}' && t[1] == '}' then
      match FormatFrom(t[2..], args, next, mode) case None => None case Some(r) => Some("}" + r)
    else if t[0] == '}' then None
    else if t[0] == '{' then
      var j := CloseAt(t, 1);
      if j == |t| then None
      else match Field(t[1..j], args, next, mode)
        case None => None
        case Some((text, next', mode')) =>
          match FormatFrom(t[j + 1..], args, next', mode') case None => None case Some(r) => Some(text + r)
    else
      match FormatFrom(t[1..], args, next, mode) case None => None case Some(r) => Some([t[0]] + r)
  }

  /**
   * `template.format(*args)` with integer arguments: `{{` and `}}` are
   * literal braces, and each replacement field is read by `Field`; a lone
   * `{` or `}` raises (None).
   */
  function Format(t: string, args: seq<int>): Option<string>
  {
    FormatFrom(t, args, 0, Unnumbered)
  }

  lemma {:induction false} FormatFromPlain(p: string, args: seq<int>, next: nat, mode: Numbering)
    requires NoBraces(p)
    ensures FormatFrom(p, args, next, mode) == Some(p)
    decreases |p|
  {
    if p != [] {
      assert p[0] != '{' && p[0] != '}';
      FormatFromPlain(p[1..], args, next, mode);
      assert [p[0]] + p[1..] == p;
    }
  }

  lemma FormatPlain(p: string, args: seq<int>)
    requires NoBraces(p)
    ensures Format(p, args) == Some(p)
  {
    FormatFromPlain(p, args, 0, Unnumbered);
  }

  /** A leading character other than a brace is copied in front of whatever the rest formats to. */
  lemma FormatConsPlain(p: string, q: string, args: seq<int>, x: string)
    requires p != [] && p[0] != '{' && p[0] != '}' && Format(p[1..] + q, args) == Some(p[1..] + x)
    ensures Format(p + q, args) == Some(p + x)
  {
    var t := p + q;
    assert t[0] == p[0] && t[1..] == p[1..] + q;
    assert [p[0]] + (p[1..] + x) == p + x;
  }

  /** A single field, `{}` or `{0}`, takes the only argument. */
  lemma FormatField(f: string, n: int)
    requires f == "{}" || f == "{0}"
    ensures Format(f, [n]) == Some(IntToString(n))
  {
    var j := |f| - 1;
    assert CloseAt(f, 1) == j by {
      if f == "{0}" {
        assert f[1] != '}';
      }
    }
    var body := f[1..j];
    if f == "{0}" {
      assert body == "0" && IsDigitString(body) && DigitsValue(body) == 0;
      assert FindChar(body, '!') == 1;
      assert Field(body, [n], 0, Unnumbered) == Some((IntToString(n), 0, Manual));
      assert FormatFrom(f[j + 1..], [n], 0, Manual) == Some("");
    } else {
      assert body == "";
      assert Field(body, [n], 0, Unnumbered) == Some((IntToString(n), 1, Automatic));
      assert FormatFrom(f[j + 1..], [n], 1, Automatic) == Some("");
    }
    assert IntToString(n) + "" == IntToString(n);
  }

  /** A brace-free prefix followed by one `{}` or `{0}` formats to the prefix and `str(n)`. */
  lemma {:induction false} FormatPrefixField(p: string, f: string, n: int)
    requires NoBraces(p) && (f == "{}" || f == "{0}")
    ensures Format(p + f, [n]) == Some(p + IntToString(n))
    decreases |p|
  {
    if p == [] {
      FormatField(f, n);
      assert p + f == f && p + IntToString(n) == IntToString(n);
    } else {
      FormatPrefixField(p[1..], f, n);
      FormatConsPlain(p, f, [n], IntToString(n));
    }
  }

  /** Automatic and manual numbering cannot be mixed: `'{}{0}'.format(a, b)` raises. */
  lemma FormatMixedRaises(a: int, b: int)
    ensures Format("{}{0}", [a, b]).None?
  {
    var t := "{}{0}";
    assert CloseAt(t, 1) == 1;
    assert FindChar("", '!') == 0;
    var rest := t[2..];
    assert rest == "{0}";
    assert CloseAt(rest, 1) == 2 by {
      assert rest[1] != '}';
    }
    var body := rest[1..2];
    assert body == "0" && IsDigitString(body);
    assert FindChar(body, '!') == 1;
  }

  /** The characters `str.splitlines()` breaks at (`\r\n` counts as one break). */
  predicate IsLineBreak(c: char)
  {
    c == '\n' || c == '\r' || c == '\U{b}' || c == '\U{c}' || ('\U{1c}' <= c <= '\U{1e}') ||
    c == '\U{85}' || c == '\U{2028}' || c == '\U{2029}'
  }

  function SplitLinesFrom(s: string, cur: string): (lines: seq<string>)
    requires forall i :: 0 <= i < |cur| ==> !IsLineBreak(cur[i])
    ensures forall l, i :: l in lines && 0 <= i < |l| ==> !IsLineBreak(l[i])
  {
    if s == [] then (if cur == [] then [] else [cur])
    else if s[0] == '\r' && |s| > 1 && s[1] == '\n' then [cur] + SplitLinesFrom(s[2..], [])
    else if IsLineBreak(s[0]) then [cur] + SplitLinesFrom(s[1..], [])
    else SplitLinesFrom(s[1..], cur + [s[0]])
  }

  /** `s.splitlines()`: the lines without their terminators; no final empty line. */
  function SplitLines(s: string): (lines: seq<string>)
    ensures forall l, i :: l in lines && 0 <= i < |l| ==> !IsLineBreak(l[i])
  {
    SplitLinesFrom(s, [])
  }

  /** `s.split('\n', 1)[0]`: the text before the first newline. */
  function FirstLine(s: string): (r: string)
    ensures StartsWith(s, r) && !HasChar(r, '\n')
    ensures r == s || (|r| < |s| && s[|r|] == '\n')
  {
    if s == [] then []
    else if s[0] == '\n' then []
    else
      var t := FirstLine(s[1..]);
      assert s[..|t| + 1] == [s[0]] + s[1..][..|t|];
      [s[0]] + t
  }
}
