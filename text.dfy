/**
 * The few Python string operations the bot relies on: `str.split` on one
 * character, `str.strip()` and the decimal `int(...)` conversion, together
 * with the decimal rendering of an integer that serves as their inverse.
 */
module Text {

  import opened Wrappers

  // ---------------------------------------------------------------------
  // str.split(sep) with a one-character separator
  // ---------------------------------------------------------------------

  /** Glues parts back together with `sep` between consecutive parts (`sep.join`). */
  function Join(parts: seq<string>, sep: char): string
    requires |parts| >= 1
  {
    if |parts| == 1 then parts[0] else parts[0] + [sep] + Join(parts[1..], sep)
  }

  /** Python's `s.split(sep)`: never empty, no part holds `sep`, and joining gives `s` back. */
  function Split(s: string, sep: char): (parts: seq<string>)
    ensures |parts| >= 1
    ensures forall i :: 0 <= i < |parts| ==> sep !in parts[i]
    ensures Join(parts, sep) == s
  {
    if |s| == 0 then [""]
    else
      var rest := Split(s[1..], sep);
      if s[0] == sep then
        assert Join([""] + rest, sep) == "" + [sep] + Join(rest, sep);
        [""] + rest
      else
        var parts := [[s[0]] + rest[0]] + rest[1..];
        assert parts[1..] == rest[1..];
        assert s == [s[0]] + s[1..];
        parts
  }

  /** The first part of a split is the text before the first separator. */
  lemma SplitFirst(s: string, sep: char)
    ensures Split(s, sep)[0] <= s
    ensures sep !in Split(s, sep)[0]
    ensures |Split(s, sep)[0]| < |s| ==> s[|Split(s, sep)[0]|] == sep
    ensures |Split(s, sep)| > 1 ==> |Split(s, sep)[0]| < |s|
  {
    var parts := Split(s, sep);
    if |parts| > 1 {
      assert s == parts[0] + [sep] + Join(parts[1..], sep);
    }
  }

  /** Text without the separator is its own single part. */
  lemma {:induction false} SplitWithoutSep(s: string, sep: char)
    requires sep !in s
    ensures Split(s, sep) == [s]
  {
    if |s| > 0 {
      SplitWithoutSep(s[1..], sep);
      assert [s[0]] + s[1..] == s;
    }
  }

  /** Splitting at a first separator peels off the text before it. */
  lemma {:induction false} SplitAtFirstSep(a: string, sep: char, b: string)
    requires sep !in a
    ensures Split(a + [sep] + b, sep) == [a] + Split(b, sep)
  {
    if |a| == 0 {
      assert a + [sep] + b == [sep] + b;
      assert ([sep] + b)[1..] == b;
    } else {
      SplitAtFirstSep(a[1..], sep, b);
      assert (a + [sep] + b)[1..] == a[1..] + [sep] + b;
      assert [a[0]] + a[1..] == a;
    }
  }

  // ---------------------------------------------------------------------
  // str.strip()
  // ---------------------------------------------------------------------

  /** Python's `str.isspace()` for one character. */
  predicate IsSpace(c: char)
  {
    var n := c as int;
    || (0x09 <= n <= 0x0D) || (0x1C <= n <= 0x20) || n == 0x85 || n == 0xA0
    || n == 0x1680 || (0x2000 <= n <= 0x200A) || n == 0x2028 || n == 0x2029
    || n == 0x202F || n == 0x205F || n == 0x3000
  }

  predicate AllSpace(s: string)
  {
    forall i :: 0 <= i < |s| ==> IsSpace(s[i])
  }

  /** `str.lstrip()`: drops the longest all-whitespace prefix. */
  function TrimStart(s: string): (r: string)
    ensures |r| <= |s| && r == s[|s| - |r|..]
    ensures AllSpace(s[..|s| - |r|])
    ensures r == [] || !IsSpace(r[0])
  {
    if |s| > 0 && IsSpace(s[0]) then
      var r := TrimStart(s[1..]);
      assert s[..|s| - |r|] == [s[0]] + s[1..][..|s| - 1 - |r|];
      r
    else s
  }

  /** `str.rstrip()`: drops the longest all-whitespace suffix. */
  function TrimEnd(s: string): (r: string)
    ensures |r| <= |s| && r == s[..|r|]
    ensures AllSpace(s[|r|..])
    ensures r == [] || !IsSpace(r[|r| - 1])
  {
    if |s| > 0 && IsSpace(s[|s| - 1]) then
      var r := TrimEnd(s[..|s| - 1]);
      assert s[|r|..] == s[..|s| - 1][|r|..] + [s[|s| - 1]];
      r
    else s
  }

  /** `str.strip()` with no argument. */
  function Strip(s: string): string
  {
    TrimEnd(TrimStart(s))
  }

  /** `lstrip` stops at the first non-whitespace character. */
  lemma {:induction false} TrimStartAfterSpace(a: string, t: string)
    requires AllSpace(a) && (t == [] || !IsSpace(t[0]))
    ensures TrimStart(a + t) == t
  {
    if |a| > 0 {
      assert (a + t)[1..] == a[1..] + t;
      TrimStartAfterSpace(a[1..], t);
    } else {
      assert a + t == t;
    }
  }

  /** `rstrip` stops at the last non-whitespace character. */
  lemma {:induction false} TrimEndBeforeSpace(t: string, b: string)
    requires AllSpace(b) && (t == [] || !IsSpace(t[|t| - 1]))
    ensures TrimEnd(t + b) == t
  {
    if |b| > 0 {
      var b' := b[..|b| - 1];
      assert (t + b)[..|t + b| - 1] == t + b';
      TrimEndBeforeSpace(t, b');
    } else {
      assert t + b == t;
    }
  }

  /** Surrounding whitespace is removed and nothing else. */
  lemma StripPadded(lead: string, m: string, trail: string)
    requires AllSpace(lead) && AllSpace(trail)
    requires m == [] || (!IsSpace(m[0]) && !IsSpace(m[|m| - 1]))
    ensures Strip(lead + m + trail) == m
  {
    if m == [] {
      assert lead + m + trail == lead + trail;
      assert AllSpace(lead + trail);
    } else {
      assert lead + m + trail == lead + (m + trail);
      TrimStartAfterSpace(lead, m + trail);
      TrimEndBeforeSpace(m, trail);
    }
  }

  // ---------------------------------------------------------------------
  // int(...) on an already stripped string, and its inverse
  // ---------------------------------------------------------------------

  predicate IsDigit(c: char)
  {
    '0' <= c <= '9'
  }

  predicate AllDigits(s: string)
  {
    forall i :: 0 <= i < |s| ==> IsDigit(s[i])
  }

  function DigitValue(c: char): nat
    requires IsDigit(c)
  {
    c as int - '0' as int
  }

  function DigitChar(d: nat): (c: char)
    requires d < 10
    ensures IsDigit(c) && DigitValue(c) == d
  {
    ('0' as int + d) as char
  }

  /** The value of a string of decimal digits, most significant first. */
  function DigitsValue(s: string): nat
    requires AllDigits(s)
  {
    if s == [] then 0
    else DigitsValue(s[..|s| - 1]) * 10 + DigitValue(s[|s| - 1])
  }

  /** What `int()` accepts here: an optional sign and at least one decimal digit. */
  predicate IsIntLiteral(s: string)
  {
    if |s| >= 1 && (s[0] == '+' || s[0] == '-') then |s| >= 2 && AllDigits(s[1..])
    else |s| >= 1 && AllDigits(s)
  }

  /** `int(s)`, with `ValueError` as `None`. */
  function ParseInt(s: string): (r: Option<int>)
    ensures r.Some? <==> IsIntLiteral(s)
    ensures r.Some? && r.value < 0 ==> s[0] == '-'
  {
    if !IsIntLiteral(s) then None
    else if s[0] == '-' then Some(0 - DigitsValue(s[1..]))
    else if s[0] == '+' then Some(DigitsValue(s[1..]))
    else Some(DigitsValue(s))
  }

  /** Decimal digits of `n` without leading zeros. */
  function FormatNat(n: nat): (s: string)
    ensures |s| >= 1 && AllDigits(s)
    ensures s[0] != '0' || n == 0
  {
    if n < 10 then [DigitChar(n)] else FormatNat(n / 10) + [DigitChar(n % 10)]
  }

  /** `str(v)` for an integer. */
  function FormatInt(v: int): (s: string)
    ensures IsIntLiteral(s)
  {
    if v < 0 then "-" + FormatNat(-v) else FormatNat(v)
  }

  lemma {:induction false} DigitsValueOfFormat(n: nat)
    ensures DigitsValue(FormatNat(n)) == n
  {
    if n >= 10 {
      DigitsValueOfFormat(n / 10);
      var s := FormatNat(n);
      assert s[..|s| - 1] == FormatNat(n / 10);
    }
  }

  /** Parsing the rendering of an integer gives the integer back. */
  lemma ParseFormat(v: int)
    ensures ParseInt(FormatInt(v)) == Some(v)
  {
    if v < 0 {
      DigitsValueOfFormat(-v);
      assert FormatInt(v)[1..] == FormatNat(-v);
    } else {
      DigitsValueOfFormat(v);
    }
  }

  /** A digit string that does not start with `0` has a positive value. */
  lemma {:induction false} DigitsValuePositive(s: string)
    requires AllDigits(s) && |s| >= 1 && s[0] != '0'
    ensures DigitsValue(s) >= 1
  {
    if |s| > 1 {
      DigitsValuePositive(s[..|s| - 1]);
    }
  }

  /** Digits without a leading zero are exactly the rendering of their value. */
  lemma {:induction false} FormatDigitsValue(s: string)
    requires AllDigits(s) && |s| >= 1 && (s[0] != '0' || |s| == 1)
    ensures FormatNat(DigitsValue(s)) == s
  {
    var init := s[..|s| - 1];
    if |s| > 1 {
      DigitsValuePositive(init);
      FormatDigitsValue(init);
      var n := DigitsValue(s);
      assert n / 10 == DigitsValue(init) && n % 10 == DigitValue(s[|s| - 1]);
      assert DigitChar(DigitValue(s[|s| - 1])) == s[|s| - 1];
      assert s == init + [s[|s| - 1]];
    } else {
      assert DigitChar(DigitValue(s[0])) == s[0];
    }
  }

  /** The literals `str` produces: no `+`, no leading zero, no `-0`. */
  predicate IsCanonicalLiteral(s: string)
  {
    if |s| >= 1 && s[0] == '-' then
      |s| >= 2 && AllDigits(s[1..]) && s[1] != '0'
    else
      |s| >= 1 && AllDigits(s) && (s[0] != '0' || |s| == 1)
  }

  /** Rendering a parsed canonical literal gives the literal back. */
  lemma FormatParse(s: string)
    requires IsCanonicalLiteral(s)
    ensures ParseInt(s).Some? && FormatInt(ParseInt(s).value) == s
  {
    if s[0] == '-' {
      FormatDigitsValue(s[1..]);
      DigitsValuePositive(s[1..]);
      assert s == "-" + s[1..];
    } else {
      FormatDigitsValue(s);
    }
  }
}
