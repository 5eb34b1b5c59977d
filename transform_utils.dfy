/**
 * `scripts/silver/transform_utils.py`: the date and time key codecs, the
 * safe casts, and the dimension upsert with its surrogate-key naming rule.
 * A dimension table is a value: its rows in storage order, each with its
 * serial key and its columns.
 */
module TransformUtils {
  import opened Wrappers
  import opened Json
  import opened PyText

  // ---------------------------------------------------------------------------
  // to_date_key
  // ---------------------------------------------------------------------------

  /** `s.split(c)[0]`: the text before the first `c`, or all of `s`. */
  function BeforeChar(s: string, c: char): (r: string)
    ensures |r| <= |s| && r == s[..|r|]
    ensures forall i :: 0 <= i < |r| ==> r[i] != c
    ensures |r| < |s| ==> s[|r|] == c
  {
    if s == [] || s[0] == c then [] else [s[0]] + BeforeChar(s[1..], c)
  }

  /**
   * `to_date_key(date_str)`: None for None or the empty string; the text
   * before the first `T`, with every `-` and `/` removed, when that leaves
   * exactly 8 digits; otherwise whatever `datetime.strptime(date_str,
   * '%Y-%m-%d')` gives for the cut text (`parseIso`, None when it raises).
   */
  function ToDateKey(dateStr: Option<string>, parseIso: string -> Option<int>): Option<int>
  {
    match dateStr
    case None => None
    case Some(s) => DateKeyOf(s, parseIso)
  }

  function DateKeyOf(s: string, parseIso: string -> Option<int>): Option<int>
  {
    if s == "" then None
    else
      var d := if HasChar(s, 'T') then BeforeChar(s, 'T') else s;
      var clean := Replace(Replace(d, "-", ""), "/", "");
      if |clean| == 8 && AllDigits(clean) then Some(DigitsValue(clean))
      else parseIso(d)
  }

  /** Removing one character distributes over concatenation. */
  lemma {:induction false} ReplaceCharConcat(a: string, b: string, c: char)
    ensures Replace(a + b, [c], "") == Replace(a, [c], "") + Replace(b, [c], "")
    decreases |a|
  {
    if a != [] {
      var p := [c];
      assert (a + b)[..1] == a[..1] && (a + b)[1..] == a[1..] + b;
      assert a[..1] == [a[0]];
      ReplaceCharConcat(a[1..], b, c);
      if a[0] == c {
        assert Replace(a + b, p, "") == Replace(a[1..] + b, p, "");
        assert Replace(a, p, "") == Replace(a[1..], p, "");
      } else {
        assert Replace(a + b, p, "") == [a[0]] + Replace(a[1..] + b, p, "");
        assert Replace(a, p, "") == [a[0]] + Replace(a[1..], p, "");
      }
    } else {
      assert a + b == b;
    }
  }

  /** Digits have nothing to remove. */
  lemma {:induction false} ReplaceCharDigits(s: string, c: char)
    requires AllDigits(s) && !IsDigit(c)
    ensures Replace(s, [c], "") == s
    decreases |s|
  {
    if s != [] {
      assert s[..1] != [c] by {
        assert s[..1][0] == s[0];
      }
      ReplaceCharDigits(s[1..], c);
    }
  }

  /** A date separator: `-`, `/`, or none at all. */
  predicate Separator(sep: string)
  {
    sep == "" || sep == "-" || sep == "/"
  }

  function SepAfter(sep: string, c: char): (r: string)
    requires Separator(sep)
    ensures Separator(r) && Replace(sep, [c], "") == r
  {
    if sep == [c] then "" else sep
  }

  /** Removing a non-digit from three digit runs joined by two separators removes it from the separators only. */
  lemma RemoveFromDate(y: string, a: string, m: string, b: string, d: string, c: char)
    requires AllDigits(y) && AllDigits(m) && AllDigits(d) && Separator(a) && Separator(b) && !IsDigit(c)
    ensures Replace(y + a + m + b + d, [c], "") == y + SepAfter(a, c) + m + SepAfter(b, c) + d
  {
    ReplaceCharConcat(y + a + m + b, d, c);
    ReplaceCharConcat(y + a + m, b, c);
    ReplaceCharConcat(y + a, m, c);
    ReplaceCharConcat(y, a, c);
    ReplaceCharDigits(y, c);
    ReplaceCharDigits(m, c);
    ReplaceCharDigits(d, c);
  }

  /** Removing both separators from `y + a + m + b + d` leaves `y + m + d`. */
  lemma CleanDate(y: string, a: string, m: string, b: string, d: string)
    requires AllDigits(y) && AllDigits(m) && AllDigits(d) && Separator(a) && Separator(b)
    ensures Replace(Replace(y + a + m + b + d, "-", ""), "/", "") == y + m + d
  {
    RemoveFromDate(y, a, m, b, d, '-');
    var a', b' := SepAfter(a, '-'), SepAfter(b, '-');
    RemoveFromDate(y, a', m, b', d, '/');
    assert SepAfter(a', '/') == "" && SepAfter(b', '/') == "";
    assert y + "" == y;
    assert y + m + "" == y + m;
  }

  /** Splitting at the first `T` of `date + "T" + rest`, where `date` has no `T`, gives `date`. */
  lemma {:induction false} CutAtT(date: string, rest: string)
    requires forall i :: 0 <= i < |date| ==> date[i] != 'T'
    ensures HasChar(date + "T" + rest, 'T') && BeforeChar(date + "T" + rest, 'T') == date
    decreases |date|
  {
    var s := date + "T" + rest;
    assert s[|date|] == 'T';
    if date != [] {
      assert s[1..] == date[1..] + "T" + rest;
      CutAtT(date[1..], rest);
    }
  }

  /** Three digit runs of 4, 2 and 2 make an 8-digit string. */
  lemma EightDigits(y: string, m: string, d: string)
    requires |y| == 4 && |m| == 2 && |d| == 2 && AllDigits(y) && AllDigits(m) && AllDigits(d)
    ensures |y + m + d| == 8 && AllDigits(y + m + d)
  {
    var s := y + m + d;
    forall i | 0 <= i < 8 ensures IsDigit(s[i]) {
      if i < 4 {
        assert s[i] == y[i];
      } else if i < 6 {
        assert s[i] == m[i - 4];
      } else {
        assert s[i] == d[i - 6];
      }
    }
  }

  /** A date written with digits and separators contains no `T`. */
  lemma DateHasNoT(y: string, a: string, m: string, b: string, d: string)
    requires AllDigits(y) && AllDigits(m) && AllDigits(d) && Separator(a) && Separator(b)
    ensures forall i :: 0 <= i < |y + a + m + b + d| ==> (y + a + m + b + d)[i] != 'T'
  {
    var s := y + a + m + b + d;
    forall i | 0 <= i < |s| ensures s[i] != 'T' {
      var n1, n2, n3, n4 := |y|, |y| + |a|, |y| + |a| + |m|, |y| + |a| + |m| + |b|;
      if i < n1 {
        assert s[i] == y[i];
      } else if i < n2 {
        assert s[i] == a[i - n1];
      } else if i < n3 {
        assert s[i] == m[i - n2];
      } else if i < n4 {
        assert s[i] == b[i - n3];
      } else {
        assert s[i] == d[i - n4];
      }
    }
  }

  /**
   * A date written as 4 + 2 + 2 digits, separated by `-`, `/` or nothing and
   * optionally followed by `T` and a time, gives the number YYYYMMDD. Month
   * and day are not checked: `2024-13-45` gives 20241345.
   */
  lemma DateKeyOfDigits(y: string, a: string, m: string, b: string, d: string, rest: Option<string>,
                        parseIso: string -> Option<int>)
    requires |y| == 4 && |m| == 2 && |d| == 2 && AllDigits(y) && AllDigits(m) && AllDigits(d)
    requires Separator(a) && Separator(b)
    ensures var date := y + a + m + b + d;
            ToDateKey(Some(if rest.Some? then date + "T" + rest.value else date), parseIso) == Some(DigitsValue(y + m + d))
  {
    var date := y + a + m + b + d;
    DateHasNoT(y, a, m, b, d);
    if rest.Some? {
      CutAtT(date, rest.value);
    } else {
      assert !HasChar(date, 'T');
    }
    CleanDate(y, a, m, b, d);
    EightDigits(y, m, d);
    assert |date| >= 8;
  }

  // ---------------------------------------------------------------------------
  // to_time_key
  // ---------------------------------------------------------------------------

  /** A match of `(\d{1,2}):(\d{2})` at the start of `s`: hour, minute, and the index after them. */
  datatype Clock = Clock(hour: nat, minute: nat, end: nat)

  function ClockPrefix(s: string): (r: Option<Clock>)
    ensures r.Some? ==> r.value.end <= |s| && r.value.hour < 100 && r.value.minute < 100
  {
    if |s| >= 5 && IsDigit(s[0]) && IsDigit(s[1]) && s[2] == ':' && IsDigit(s[3]) && IsDigit(s[4]) then
      Some(Clock(10 * DigitValue(s[0]) + DigitValue(s[1]), 10 * DigitValue(s[3]) + DigitValue(s[4]), 5))
    else if |s| >= 4 && IsDigit(s[0]) && s[1] == ':' && IsDigit(s[2]) && IsDigit(s[3]) then
      Some(Clock(DigitValue(s[0]), 10 * DigitValue(s[2]) + DigitValue(s[3]), 4))
    else None
  }

  /** The first index at or after `i` that is not white space (`\s*`). */
  function SkipSpaces(s: string, i: nat): (j: nat)
    requires i <= |s|
    ensures i <= j <= |s| && (j == |s| || !IsSpace(s[j]))
    ensures forall k :: i <= k < j ==> IsSpace(s[k])
    decreases |s| - i
  {
    if i < |s| && IsSpace(s[i]) then SkipSpaces(s, i + 1) else i
  }

  /** A match of `(\d{1,2}):(\d{2})\s*(AM|PM)` at the start of `u`: the clock and whether it is PM. */
  function TwelveHourExact(u: string): Option<(Clock, bool)>
  {
    match ClockPrefix(u)
    case None => None
    case Some(c) =>
      var j := SkipSpaces(u, c.end);
      if j + 1 < |u| && (u[j] == 'A' || u[j] == 'P') && u[j + 1] == 'M' then Some((c, u[j] == 'P'))
      else None
  }

  /** `AM` or `PM` in either case at index `j`, and whether it is PM. */
  function MarkerAt(s: string, j: nat): Option<bool>
  {
    if j + 1 < |s| && (UpperChar(s[j]) == 'A' || UpperChar(s[j]) == 'P') && UpperChar(s[j + 1]) == 'M'
    then Some(UpperChar(s[j]) == 'P')
    else None
  }

  /**
   * The 12-hour pattern matched against `s.upper()`, read on `s` itself:
   * upper-casing changes neither digits, `:` nor white space, so only the
   * marker needs to be upper-cased (`TwelveHourUpper`).
   */
  function TwelveHour(s: string): Option<(Clock, bool)>
  {
    match ClockPrefix(s)
    case None => None
    case Some(c) =>
      var mk := MarkerAt(s, SkipSpaces(s, c.end));
      if mk.Some? then Some((c, mk.value)) else None
  }

  lemma {:induction false} SkipSpacesUpper(s: string, i: nat)
    requires i <= |s|
    ensures SkipSpaces(Upper(s), i) == SkipSpaces(s, i)
    decreases |s| - i
  {
    if i < |s| {
      assert IsSpace(Upper(s)[i]) == IsSpace(s[i]);
      SkipSpacesUpper(s, i + 1);
    }
  }

  /** Matching the pattern against the upper-cased text is what `TwelveHour` reads. */
  lemma TwelveHourUpper(s: string)
    ensures TwelveHourExact(Upper(s)) == TwelveHour(s)
  {
    ClockPrefixUpper(s);
    var c := ClockPrefix(s);
    if c.Some? {
      SkipSpacesUpper(s, c.value.end);
    }
  }

  /** The 24-hour clock hour of an hour read with AM/PM: 12 AM is 0, a PM hour other than 12 gains 12. */
  function Hour24(hour: nat, pm: bool): nat
  {
    if pm && hour != 12 then hour + 12
    else if !pm && hour == 12 then 0
    else hour
  }

  /**
   * `to_time_key(time_str)`: HHMM of an `H:MM AM/PM` clock at the start of
   * the upper-cased text; failing that, of an `H:MM` clock at the start of
   * the text as given; otherwise (and for None or "") None.
   */
  function ToTimeKey(timeStr: Option<string>): Option<nat>
  {
    match timeStr
    case None => None
    case Some(s) => TimeKeyOf(s)
  }

  function TimeKeyOf(s: string): Option<nat>
  {
    if s == "" then None
    else
      var twelve := TwelveHour(s);
      if twelve.Some? then Some(Hour24(twelve.value.0.hour, twelve.value.1) * 100 + twelve.value.0.minute)
      else
        var clock := ClockPrefix(s);
        if clock.Some? then Some(clock.value.hour * 100 + clock.value.minute) else None
  }

  /** Upper-casing does not change digits or `:`, so both patterns see the same clock. */
  lemma ClockPrefixUpper(s: string)
    ensures ClockPrefix(Upper(s)) == ClockPrefix(s)
  {
  }

  /** A time key exists exactly when the text starts with an `H:MM` clock. */
  lemma TimeKeyDefined(s: string)
    ensures ToTimeKey(Some(s)).Some? <==> ClockPrefix(s).Some?
  {
    ClockPrefixUpper(s);
  }

  /** `H:MM` followed by white space and AM or PM in either case. */
  predicate TwelveHourText(s: string, hs: string, ms: string, sp: string, mark: string, rest: string)
  {
    s == hs + ":" + ms + sp + mark + rest &&
    (|hs| == 1 || |hs| == 2) && AllDigits(hs) && |ms| == 2 && AllDigits(ms) &&
    (forall i :: 0 <= i < |sp| ==> IsSpace(sp[i])) &&
    Marker(mark)
  }

  /** `AM` or `PM` in either case. */
  predicate Marker(mark: string)
  {
    |mark| == 2 && (UpperChar(mark[0]) == 'A' || UpperChar(mark[0]) == 'P') && UpperChar(mark[1]) == 'M'
  }

  /** A marker reads as PM when it upper-cases to `PM`. */
  predicate IsPm(mark: string)
    requires |mark| == 2
  {
    UpperChar(mark[0]) == 'P'
  }

  /** The two predicates say that `mark.upper()` is `AM` or `PM`, and which. */
  lemma MarkerText(mark: string)
    requires |mark| == 2
    ensures Marker(mark) <==> Upper(mark) == "AM" || Upper(mark) == "PM"
    ensures IsPm(mark) && Marker(mark) <==> Upper(mark) == "PM"
  {
    UpperMark(mark);
  }

  /** The 12-hour pattern reads the hour, the minute and the marker of such a text. */
  lemma TwelveHourReads(s: string, hs: string, ms: string, sp: string, mark: string, rest: string)
    requires TwelveHourText(s, hs, ms, sp, mark, rest)
    ensures TwelveHour(s) == Some((Clock(DigitsValue(hs), DigitsValue(ms), |hs| + 3), IsPm(mark)))
  {
    TextChars(s, hs, ms, sp, mark, rest);
    TwelveOfChars(s, hs, ms, |sp|, mark);
  }

  /** Where each part of a `TwelveHourText` sits in the text. */
  lemma TextChars(s: string, hs: string, ms: string, sp: string, mark: string, rest: string)
    requires s == hs + ":" + ms + sp + mark + rest && |ms| == 2 && |mark| == 2
    ensures |s| >= |hs| + 3 + |sp| + 2
    ensures forall i :: 0 <= i < |hs| ==> s[i] == hs[i]
    ensures s[|hs|] == ':' && s[|hs| + 1] == ms[0] && s[|hs| + 2] == ms[1]
    ensures forall k :: |hs| + 3 <= k < |hs| + 3 + |sp| ==> s[k] == sp[k - |hs| - 3]
    ensures s[|hs| + 3 + |sp|] == mark[0] && s[|hs| + 4 + |sp|] == mark[1]
  {
  }

  lemma UpperMark(mark: string)
    requires |mark| == 2
    ensures Upper(mark) == [UpperChar(mark[0]), UpperChar(mark[1])]
  {
  }

  /** The 12-hour pattern over a text given character by character. */
  lemma TwelveOfChars(s: string, hs: string, ms: string, n: nat, mark: string)
    requires (|hs| == 1 || |hs| == 2) && AllDigits(hs) && |ms| == 2 && AllDigits(ms)
    requires Marker(mark)
    requires |s| >= |hs| + 3 + n + 2
    requires forall i :: 0 <= i < |hs| ==> s[i] == hs[i]
    requires s[|hs|] == ':' && s[|hs| + 1] == ms[0] && s[|hs| + 2] == ms[1]
    requires forall k :: |hs| + 3 <= k < |hs| + 3 + n ==> IsSpace(s[k])
    requires s[|hs| + 3 + n] == mark[0] && s[|hs| + 4 + n] == mark[1]
    ensures TwelveHour(s) == Some((Clock(DigitsValue(hs), DigitsValue(ms), |hs| + 3), IsPm(mark)))
  {
    var e := |hs| + 3;
    ClockOfChars(s, hs, ms);
    SkipAll(s, e, e + n);
    assert MarkerAt(s, e + n) == Some(IsPm(mark));
  }

  /** The `(\d{1,2}):(\d{2})` part of the pattern over a text given character by character. */
  lemma ClockOfChars(u: string, hs: string, ms: string)
    requires (|hs| == 1 || |hs| == 2) && AllDigits(hs) && |ms| == 2 && AllDigits(ms)
    requires |u| >= |hs| + 3
    requires forall i :: 0 <= i < |hs| ==> u[i] == hs[i]
    requires u[|hs|] == ':' && u[|hs| + 1] == ms[0] && u[|hs| + 2] == ms[1]
    ensures ClockPrefix(u) == Some(Clock(DigitsValue(hs), DigitsValue(ms), |hs| + 3))
  {
    TwoDigits(ms);
    if |hs| == 2 {
      TwoDigits(hs);
      assert u[0] == hs[0] && u[1] == hs[1];
    } else {
      assert hs[..0] == [];
      assert u[0] == hs[0] && !IsDigit(u[1]);
    }
  }

  lemma {:induction false} SkipAll(s: string, i: nat, j: nat)
    requires i <= j < |s| && !IsSpace(s[j]) && forall k :: i <= k < j ==> IsSpace(s[k])
    ensures SkipSpaces(s, i) == j
    decreases j - i
  {
    if i < j {
      SkipAll(s, i + 1, j);
    }
  }

  /**
   * `H:MM AM/PM`: 12 AM gives the minutes alone, 12 PM gives 12MM, another
   * PM hour gains 12, and another AM hour is kept.
   */
  lemma TimeKeyTwelveHour(s: string, hs: string, ms: string, sp: string, mark: string, rest: string)
    requires TwelveHourText(s, hs, ms, sp, mark, rest)
    ensures var h, m, pm := DigitsValue(hs), DigitsValue(ms), IsPm(mark);
            ToTimeKey(Some(s)) == Some(if h == 12 && !pm then m
                                       else if h == 12 || !pm then h * 100 + m
                                       else (h + 12) * 100 + m)
  {
    TwelveHourReads(s, hs, ms, sp, mark, rest);
    TextChars(s, hs, ms, sp, mark, rest);
    var h, m, pm := DigitsValue(hs), DigitsValue(ms), IsPm(mark);
    TimeKeyOfTwelve(s, Clock(h, m, |hs| + 3), pm);
    Hour24Key(h, m, pm);
  }

  lemma TimeKeyOfTwelve(s: string, c: Clock, pm: bool)
    requires s != "" && TwelveHour(s) == Some((c, pm))
    ensures ToTimeKey(Some(s)) == Some(Hour24(c.hour, pm) * 100 + c.minute)
  {
  }

  lemma Hour24Key(h: nat, m: nat, pm: bool)
    ensures Hour24(h, pm) * 100 + m == if h == 12 && !pm then m
                                       else if h == 12 || !pm then h * 100 + m
                                       else (h + 12) * 100 + m
  {
  }

  /** Without an AM/PM marker after the clock, the 24-hour reading `H:MM` gives H·100 + M. */
  lemma TimeKeyTwentyFour(s: string)
    requires ClockPrefix(s).Some? && TwelveHour(s).None?
    ensures ToTimeKey(Some(s)) == Some(ClockPrefix(s).value.hour * 100 + ClockPrefix(s).value.minute)
  {
  }

  // ---------------------------------------------------------------------------
  // ensure_time_dimension / ensure_date_dimension key decoding
  // ---------------------------------------------------------------------------

  /** The `dim_time` row of a key: `hour = key // 100`, `minute = key % 100`, AM below hour 12. */
  datatype TimeRow = TimeRow(hour: int, minute: int, pm: bool)

  function DecodeTime(key: int): TimeRow
  {
    TimeRow(key / 100, key % 100, !(key / 100 < 12))
  }

  /** Decoding inverts H·100 + M for every minute below 100. */
  lemma DecodeTimeInverts(h: nat, m: nat)
    requires m < 100
    ensures DecodeTime(h * 100 + m) == TimeRow(h, m, h >= 12)
  {
  }

  /** A 12-hour clock with hour 1..12 and minute below 60 decodes to its own marker. */
  lemma TimeKeyKeepsMarker(s: string, hs: string, ms: string, sp: string, mark: string, rest: string)
    requires TwelveHourText(s, hs, ms, sp, mark, rest)
    requires 1 <= DigitsValue(hs) <= 12
    ensures ToTimeKey(Some(s)).Some? && DecodeTime(ToTimeKey(Some(s)).value).pm == IsPm(mark)
  {
    TwelveHourReads(s, hs, ms, sp, mark, rest);
    TextChars(s, hs, ms, sp, mark, rest);
    var h, m, pm := DigitsValue(hs), DigitsValue(ms), IsPm(mark);
    TimeKeyOfTwelve(s, Clock(h, m, |hs| + 3), pm);
    TwoDigits(ms);
    MarkerOfKey(h, m, pm);
  }

  lemma MarkerOfKey(h: nat, m: nat, pm: bool)
    requires 1 <= h <= 12 && m < 100
    ensures DecodeTime(Hour24(h, pm) * 100 + m).pm == pm
  {
    DecodeTimeInverts(Hour24(h, pm), m);
  }

  /** `f"{n:02d}"` for 0 <= n < 100. */
  function Pad2(n: nat): (r: string)
    requires n < 100
    ensures |r| == 2
  {
    [DigitChar(n / 10), DigitChar(n % 10)]
  }

  /** The `dim_date` row of a key: year, month, day and `full_date`. */
  datatype DateRow = DateRow(year: int, month: nat, day: nat, fullDate: string)

  /**
   * The decoding in `ensure_date_dimension`: `str(date_key)` must have 8
   * characters; its first 4, next 2 and last 2 are read as numbers
   * (a negative key keeps its sign in the year).
   */
  function DecodeDate(key: int): Option<DateRow>
  {
    // str(date_key) is NatToString(key), or "-" followed by NatToString(-key)
    var digits := NatToString(if key < 0 then -key else key);
    var sign := if key < 0 then 1 else 0;
    if sign + |digits| != 8 then None
    else
      var v: int := DigitsValue(digits[..4 - sign]);
      var year: int := if key < 0 then -v else v;
      var mm, dd := digits[4 - sign..6 - sign], digits[6 - sign..];
      TwoDigits(mm);
      TwoDigits(dd);
      var month, day := DigitsValue(mm), DigitsValue(dd);
      Some(DateRow(year, month, day, IntToString(year) + "-" + Pad2(month) + "-" + Pad2(day)))
  }

  lemma TwoDigits(s: string)
    requires |s| == 2 && AllDigits(s)
    ensures DigitsValue(s) == 10 * DigitValue(s[0]) + DigitValue(s[1]) && DigitsValue(s) < 100
  {
    var h := s[..1];
    assert h[..0] == [] && h[0] == s[0];
    assert DigitsValue(h) == DigitValue(s[0]);
  }

  lemma Pad2OfDigits(s: string)
    requires |s| == 2 && AllDigits(s)
    ensures DigitsValue(s) < 100 && Pad2(DigitsValue(s)) == s
  {
    TwoDigits(s);
  }

  /** A digit string with no leading zero is `str` of its value. */
  lemma {:induction false} NatToStringOfDigits(s: string)
    requires IsDigitString(s) && (s[0] != '0' || |s| == 1)
    ensures NatToString(DigitsValue(s)) == s
    decreases |s|
  {
    if |s| > 1 {
      var init := s[..|s| - 1];
      assert init[0] == s[0];
      NatToStringOfDigits(init);
      DigitsValuePositive(init);
      var n := DigitsValue(s);
      assert n / 10 == DigitsValue(init) && n % 10 == DigitValue(s[|s| - 1]);
    }
  }

  lemma {:induction false} DigitsValuePositive(s: string)
    requires IsDigitString(s) && s[0] != '0'
    ensures DigitsValue(s) >= 1
    decreases |s|
  {
    if |s| > 1 {
      assert s[..|s| - 1][0] == s[0];
      DigitsValuePositive(s[..|s| - 1]);
    }
  }

  /**
   * The key of a date YYYY-MM-DD whose year has no leading zero decodes to
   * its year, month and day, and `full_date` is the date as written.
   */
  lemma DecodeDateKey(y: string, m: string, d: string)
    requires |y| == 4 && |m| == 2 && |d| == 2 && AllDigits(y) && AllDigits(m) && AllDigits(d) && y[0] != '0'
    ensures DecodeDate(DigitsValue(y + m + d)) ==
            Some(DateRow(DigitsValue(y), DigitsValue(m), DigitsValue(d), y + "-" + m + "-" + d))
  {
    var s := y + m + d;
    assert s[0] == y[0];
    NatToStringOfDigits(s);
    NatToStringOfDigits(y);
    assert s[..4] == y && s[4..6] == m && s[6..8] == d;
    Pad2OfDigits(m);
    Pad2OfDigits(d);
  }

  /**
   * `ensure_date_dimension`: nothing for key 0 or a key already present; a
   * key of 8 characters adds its decoded row when `full_date::date` casts
   * (`isDate`; a failing cast raises and is logged). The day of week, week
   * number and weekend flag come from SQL functions that are not part of this
   * model.
   */
  function EnsureDate(dates: map<int, DateRow>, key: int, isDate: string -> bool): (r: map<int, DateRow>)
    ensures r.Keys == dates.Keys || r.Keys == dates.Keys + {key}
    ensures forall k :: k in dates ==> k in r && r[k] == dates[k]
    ensures key in r && key !in dates ==> DecodeDate(key).Some? && r[key] == DecodeDate(key).value && isDate(r[key].fullDate)
    ensures key != 0 && key !in dates && DecodeDate(key).Some? && isDate(DecodeDate(key).value.fullDate) ==> key in r
    ensures key == 0 ==> r == dates
  {
    if key == 0 || key in dates then dates
    else
      match DecodeDate(key)
      case None => dates
      case Some(row) => if isDate(row.fullDate) then dates[key := row] else dates
  }

  /** `ensure_time_dimension`: nothing for key 0 or a key already present, otherwise the decoded row (unless the insert fails). */
  function EnsureTime(times: map<int, TimeRow>, key: int, fails: bool): (r: map<int, TimeRow>)
    ensures key != 0 && !fails ==> key in r && (key in times ==> r == times) && (key !in times ==> r == times[key := DecodeTime(key)])
    ensures key == 0 || fails ==> r == times
  {
    if key == 0 || key in times || fails then times else times[key := DecodeTime(key)]
  }

  /**
   * `ensure_date_dimension` on a connection whose transaction may be
   * aborted. Its `except` swallows a failing statement without a rollback:
   * a cast that fails leaves the transaction aborted, and on an aborted
   * transaction the first SELECT raises, so nothing is added. Key 0 returns
   * before any statement.
   */
  function EnsureDateIn(dates: map<int, DateRow>, key: int, isDate: string -> bool, aborted: bool): (r: (map<int, DateRow>, bool))
    ensures !aborted ==> r.0 == EnsureDate(dates, key, isDate)
    ensures aborted ==> r.0 == dates
    ensures r.1 <==> aborted || (key != 0 && key !in dates && DecodeDate(key).Some? && !isDate(DecodeDate(key).value.fullDate))
  {
    if key == 0 then (dates, aborted)
    else if aborted then (dates, true)
    else if key in dates then (dates, false)
    else
      match DecodeDate(key)
      case None => (dates, false)
      case Some(row) => if isDate(row.fullDate) then (dates[key := row], false) else (dates, true)
  }

  /**
   * `ensure_time_dimension` on a connection whose transaction may be
   * aborted: a failing INSERT leaves it aborted, and on an aborted
   * transaction the first SELECT raises, so nothing is added.
   */
  function EnsureTimeIn(times: map<int, TimeRow>, key: int, fails: bool, aborted: bool): (r: (map<int, TimeRow>, bool))
    ensures !aborted ==> r.0 == EnsureTime(times, key, fails)
    ensures aborted ==> r.0 == times
    ensures r.1 <==> aborted || (key != 0 && key !in times && fails)
  {
    if key == 0 then (times, aborted)
    else if aborted then (times, true)
    else if key in times then (times, false)
    else if fails then (times, true)
    else (times[key := DecodeTime(key)], false)
  }

  // ---------------------------------------------------------------------------
  // safe_int / safe_bool
  // ---------------------------------------------------------------------------

  /** `safe_int(value)`: None for None and "", `int(value)` otherwise; a failing `int` (a bad string, a list, a dict) gives None. */
  function SafeInt(v: Json): Option<int>
  {
    match v
    case JNull => None
    case JStr(s) => if s == "" then None else ParseInt(s)
    case JInt(n) => Some(n)
    case JBool(b) => Some(if b then 1 else 0)
    case _ => None
  }

  /** `str(n)` converts back to `n`, and None comes only from None, a list, a dict or a string `int` rejects. */
  lemma SafeIntMeaning(v: Json, n: int)
    ensures SafeInt(JStr(IntToString(n))) == Some(n)
    ensures SafeInt(v).None? <==> v.JNull? || v.JArr? || v.JObj? || (v.JStr? && ParseInt(v.s).None?)
  {
    ParseIntToString(n);
    if v == JStr("") {
      assert Strip("") == "";
    }
  }

  /**
   * `safe_float(value)`: None for None and "", `float(value)` otherwise; a
   * failing `float` (a bad string, a list, a dict) gives None. Numbers are
   * thousandths; the float grammar for strings is `parseFloat` (None when
   * `float` raises).
   */
  function SafeFloat(v: Json, parseFloat: string -> Option<int>): Option<int>
  {
    match v
    case JNull => None
    case JStr(s) => if s == "" then None else parseFloat(s)
    case JInt(n) => Some(1000 * n)
    case JBool(b) => Some(if b then 1000 else 0)
    case _ => None
  }

  /** An integer keeps its value, and None comes only from None, "", a list, a dict or a string `float` rejects. */
  lemma SafeFloatMeaning(v: Json, parseFloat: string -> Option<int>, n: int)
    ensures SafeFloat(JInt(n), parseFloat) == Some(1000 * n)
    ensures SafeFloat(v, parseFloat).None? <==>
              v.JNull? || v.JArr? || v.JObj? || v == JStr("") || (v.JStr? && parseFloat(v.s).None?)
  {
  }

  /** `safe_bool(value)`. */
  function SafeBool(v: Json): bool
  {
    match v
    case JNull => false
    case JBool(b) => b
    case JInt(n) => n != 0
    case JStr(s) => Lower(s) in ["true", "1", "yes", "on"]
    case _ => false
  }

  /** On None, booleans and numbers `safe_bool` is Python truthiness. */
  lemma SafeBoolTruthy(v: Json)
    requires v.JNull? || v.JBool? || v.JInt?
    ensures SafeBool(v) <==> Truthy(v)
  {
  }

  /** A string is read in any letter case. */
  lemma SafeBoolAnyCase(s: string)
    ensures SafeBool(JStr(Upper(s))) == SafeBool(JStr(s))
  {
    assert Lower(Upper(s)) == Lower(s);
  }

  /** `"false"` and `"no"` are false although they are non-empty strings. */
  lemma SafeBoolFalseWords()
    ensures !SafeBool(JStr("false")) && !SafeBool(JStr("no")) && Truthy(JStr("false"))
  {
    assert Lower("false") == "false";
    assert Lower("no") == "no";
  }

  /** A word is read in any letter case: `"TRUE"` and `"Yes"` are true. */
  lemma SafeBoolTrueWords()
    ensures SafeBool(JStr("TRUE")) && SafeBool(JStr("Yes"))
  {
    assert Lower("TRUE") == "true";
    assert Lower("Yes") == "yes";
  }

  // ---------------------------------------------------------------------------
  // upsert_dimension / get_dimension_key
  // ---------------------------------------------------------------------------

  /** `table.replace('dim_', '') + '_key'`: the default name of a dimension's surrogate key column. */
  function KeyFieldFor(table: string, keyField: Option<string>): string
  {
    match keyField
    case Some(k) => k
    case None => Replace(table, "dim_", "") + "_key"
  }

  /** The default of `dim_<name>` is `<name>_key` whenever `<name>` itself does not contain `dim_`. */
  lemma KeyFieldDefault(name: string)
    requires !Contains(name, "dim_")
    ensures KeyFieldFor("dim_" + name, None) == name + "_key"
  {
    var t := "dim_" + name;
    assert t[..4] == "dim_" && t[4..] == name;
    ReplaceAbsent(name, "dim_", "");
  }

  datatype DimRow = DimRow(key: nat, cols: map<string, Json>)

  /** A dimension: its surrogate key column, its rows in storage order, and the next serial value. */
  datatype Dim = Dim(keyField: string, rows: seq<DimRow>, next: nat)
  {
    /** Surrogate keys are distinct and below `next`. */
    predicate Valid()
    {
      (forall i :: 0 <= i < |rows| ==> rows[i].key < next) &&
      (forall i, j :: 0 <= i < j < |rows| ==> rows[i].key != rows[j].key)
    }
  }

  /** `WHERE natural_key_field = value`: SQL `=` is never true for NULL. */
  predicate Matches(r: DimRow, field: string, v: Json)
  {
    v != JNull && field in r.cols && r.cols[field] == v
  }

  /** The row `fetchone()` returns: the first match in storage order. */
  function FindRow(rows: seq<DimRow>, field: string, v: Json): (r: Option<nat>)
    ensures r.Some? ==> r.value < |rows| && Matches(rows[r.value], field, v) &&
                        forall i :: 0 <= i < r.value ==> !Matches(rows[i], field, v)
    ensures r.None? ==> forall i :: 0 <= i < |rows| ==> !Matches(rows[i], field, v)
  {
    if rows == [] then None
    else if Matches(rows[0], field, v) then Some(0)
    else match FindRow(rows[1..], field, v)
      case None => None
      case Some(i) => Some(i + 1)
  }

  /** `UPDATE … SET <data> WHERE natural_key_field = value`: every matching row takes the columns of `data`. */
  function UpdateMatching(rows: seq<DimRow>, field: string, v: Json, data: map<string, Json>): (r: seq<DimRow>)
    ensures |r| == |rows| && forall i :: 0 <= i < |rows| ==> r[i].key == rows[i].key
    ensures forall i :: 0 <= i < |rows| ==>
              r[i] == if Matches(rows[i], field, v) then DimRow(rows[i].key, rows[i].cols + data) else rows[i]
  {
    seq(|rows|, i requires 0 <= i < |rows| =>
      if Matches(rows[i], field, v) then DimRow(rows[i].key, rows[i].cols + data) else rows[i])
  }

  /**
   * `upsert_dimension(conn, table, natural_key_field, value, data, key_field)`.
   * With a row matching the natural key, the columns of every matching row
   * are overwritten by `data` (no statement when `data` is empty) and the
   * key of the first one is returned; otherwise a row of `data` plus the
   * natural key is inserted under the next serial key. An SQL error
   * (`fails`, or a key column that is not the table's) returns None and
   * leaves this table as it was; the `conn.rollback()` that then undoes the
   * caller's whole transaction is modelled by the caller
   * (`TransformDimensions.UpsertInto`).
   */
  function UpsertDimension(t: Dim, table: string, field: string, v: Json, data: map<string, Json>,
                           keyField: Option<string>, fails: bool): (r: (Option<nat>, Dim))
    requires t.Valid()
    ensures r.1.Valid()
    ensures r.0.None? <==> fails || KeyFieldFor(table, keyField) != t.keyField
    ensures r.0.None? ==> r.1 == t
    ensures r.0.Some? && FindRow(t.rows, field, v).Some? ==>
              var i := FindRow(t.rows, field, v).value;
              r.0.value == t.rows[i].key && r.1.keyField == t.keyField && r.1.next == t.next &&
              |r.1.rows| == |t.rows| &&
              forall j :: 0 <= j < |t.rows| ==>
                r.1.rows[j] == if Matches(t.rows[j], field, v) then DimRow(t.rows[j].key, t.rows[j].cols + data)
                               else t.rows[j]
    ensures r.0.Some? && FindRow(t.rows, field, v).None? ==>
              r.0.value == t.next && r.1 == Dim(t.keyField, t.rows + [DimRow(t.next, data[field := v])], t.next + 1)
  {
    if fails || KeyFieldFor(table, keyField) != t.keyField then (None, t)
    else
      match FindRow(t.rows, field, v)
      case Some(i) =>
        var rows := if data == map[] then t.rows else UpdateMatching(t.rows, field, v, data);
        assert data == map[] ==> forall j :: 0 <= j < |t.rows| ==> t.rows[j].cols + data == t.rows[j].cols;
        (Some(t.rows[i].key), t.(rows := rows))
      case None =>
        (Some(t.next), Dim(t.keyField, t.rows + [DimRow(t.next, data[field := v])], t.next + 1))
  }

  /** `get_dimension_key`: the key of the first row matching the natural key, or None. */
  function GetDimensionKey(t: Dim, field: string, v: Json): (r: Option<nat>)
    ensures r.Some? <==> exists i :: 0 <= i < |t.rows| && Matches(t.rows[i], field, v)
  {
    match FindRow(t.rows, field, v)
    case None => None
    case Some(i) => Some(t.rows[i].key)
  }

  /** The first matching row is the one `FindRow` reports. */
  lemma FirstMatch(rows: seq<DimRow>, field: string, v: Json, i: nat)
    requires i < |rows| && Matches(rows[i], field, v)
    requires forall j :: 0 <= j < i ==> !Matches(rows[j], field, v)
    ensures FindRow(rows, field, v) == Some(i)
  {
  }

  /**
   * After a successful upsert whose `data` keeps the natural key, looking the
   * key up finds the row the upsert returned, and a table that had a match
   * gained no row.
   */
  lemma UpsertThenGet(t: Dim, table: string, field: string, v: Json, data: map<string, Json>, keyField: Option<string>)
    requires t.Valid() && v != JNull
    requires field !in data || data[field] == v
    requires KeyFieldFor(table, keyField) == t.keyField
    ensures var (k, t1) := UpsertDimension(t, table, field, v, data, keyField, false);
            k.Some? && GetDimensionKey(t1, field, v) == k &&
            |t1.rows| == |t.rows| + (if GetDimensionKey(t, field, v).Some? then 0 else 1)
  {
    var (k, t1) := UpsertDimension(t, table, field, v, data, keyField, false);
    match FindRow(t.rows, field, v)
    case Some(i) =>
      assert FindRow(t1.rows, field, v) == Some(i) by {
        assert Matches(t1.rows[i], field, v);
        assert forall j :: 0 <= j < i ==> !Matches(t1.rows[j], field, v);
        FirstMatch(t1.rows, field, v, i);
      }
    case None =>
      var n := |t.rows|;
      assert FindRow(t1.rows, field, v) == Some(n) by {
        assert Matches(t1.rows[n], field, v);
        assert forall j :: 0 <= j < n ==> t1.rows[j] == t.rows[j];
        FirstMatch(t1.rows, field, v, n);
      }
  }

  /** Upserting the same natural key twice returns the same key and adds at most one row. */
  lemma UpsertTwice(t: Dim, table: string, field: string, v: Json, data: map<string, Json>, data2: map<string, Json>,
                    keyField: Option<string>)
    requires t.Valid() && v != JNull
    requires field !in data || data[field] == v
    requires KeyFieldFor(table, keyField) == t.keyField
    ensures var (k1, t1) := UpsertDimension(t, table, field, v, data, keyField, false);
            var (k2, t2) := UpsertDimension(t1, table, field, v, data2, keyField, false);
            k1 == k2 && |t2.rows| == |t1.rows| <= |t.rows| + 1
  {
    UpsertThenGet(t, table, field, v, data, keyField);
  }

  /** A NULL natural key never matches, so every successful upsert with it inserts a new row. */
  lemma NullKeyAlwaysInserts(t: Dim, table: string, field: string, data: map<string, Json>, keyField: Option<string>)
    requires t.Valid() && KeyFieldFor(table, keyField) == t.keyField
    ensures |UpsertDimension(t, table, field, JNull, data, keyField, false).1.rows| == |t.rows| + 1
  {
  }
}
