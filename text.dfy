/** The JavaScript string and number built-ins the screens rely on: case mapping,
    `includes`, `trim`, number-to-text for integers and `toFixed(2)`, and
    `parseFloat`. Case mapping covers ASCII letters only. */
module Text {
  import opened Base

  predicate IsDigit(c: char) { '0' <= c <= '9' }

  function ToLowerChar(c: char): char
  {
    if 'A' <= c <= 'Z' then (c as int + 32) as char else c
  }

  function ToUpperChar(c: char): char
  {
    if 'a' <= c <= 'z' then (c as int - 32) as char else c
  }

  /** `String.prototype.toLowerCase` on ASCII letters. */
  function ToLower(s: string): (r: string)
    ensures |r| == |s|
    ensures forall i :: 0 <= i < |s| ==> r[i] == ToLowerChar(s[i])
  {
    seq(|s|, i requires 0 <= i < |s| => ToLowerChar(s[i]))
  }

  /** `String.prototype.toUpperCase` on ASCII letters. */
  function ToUpper(s: string): (r: string)
    ensures |r| == |s|
    ensures forall i :: 0 <= i < |s| ==> r[i] == ToUpperChar(s[i])
  {
    seq(|s|, i requires 0 <= i < |s| => ToUpperChar(s[i]))
  }

  /** Lower-casing twice is lower-casing once. */
  lemma ToLowerIdempotent(s: string)
    ensures ToLower(ToLower(s)) == ToLower(s)
  {
  }

  predicate IsPrefix(p: string, s: string)
  {
    |p| <= |s| && s[..|p|] == p
  }

  /** `s.includes(sub)`: `sub` occurs in `s` at some position. */
  predicate Contains(s: string, sub: string)
    decreases |s|
  {
    IsPrefix(sub, s) || (s != [] && Contains(s[1..], sub))
  }

  /** `Contains` agrees with "occurs at some offset". */
  lemma {:induction false} ContainsAt(s: string, sub: string)
    ensures Contains(s, sub) <==> exists i :: 0 <= i <= |s| && IsPrefix(sub, s[i..])
    decreases |s|
  {
    if s != [] {
      ContainsAt(s[1..], sub);
      assert s[0..] == s;
      if Contains(s[1..], sub) {
        var i :| 0 <= i <= |s[1..]| && IsPrefix(sub, s[1..][i..]);
        assert s[1..][i..] == s[i + 1..];
      }
      if exists i :: 0 <= i <= |s| && IsPrefix(sub, s[i..]) {
        var i :| 0 <= i <= |s| && IsPrefix(sub, s[i..]);
        if i > 0 {
          assert s[1..][i - 1..] == s[i..];
        }
      }
    } else {
      assert s[0..] == s;
    }
  }

  /** The empty string is contained in every string. */
  lemma ContainsEmpty(s: string)
    ensures Contains(s, "")
  {
    assert IsPrefix("", s);
  }

  /** The characters `String.prototype.trim` removes: ECMAScript WhiteSpace and LineTerminator. */
  predicate IsSpace(c: char)
  {
    c == ' ' || c == '\t' || c == '\n' || c == '\r' || c == '\U{000B}' || c == '\U{000C}'
    || c == '\U{00A0}' || c == '\U{FEFF}' || c == '\U{1680}' || ('\U{2000}' <= c <= '\U{200A}')
    || c == '\U{2028}' || c == '\U{2029}' || c == '\U{202F}' || c == '\U{205F}' || c == '\U{3000}'
  }

  /** `trimStart`. */
  function TrimStart(s: string): (r: string)
    ensures |r| <= |s| && r == s[|s| - |r|..]
    ensures r == [] || !IsSpace(r[0])
    ensures forall i :: 0 <= i < |s| - |r| ==> IsSpace(s[i])
    decreases |s|
  {
    if s != [] && IsSpace(s[0]) then TrimStart(s[1..]) else s
  }

  /** `trimEnd`. */
  function TrimEnd(s: string): (r: string)
    ensures |r| <= |s| && r == s[..|r|]
    ensures r == [] || !IsSpace(r[|r| - 1])
    ensures forall i :: |r| <= i < |s| ==> IsSpace(s[i])
    decreases |s|
  {
    if s != [] && IsSpace(s[|s| - 1]) then TrimEnd(s[..|s| - 1]) else s
  }

  /** `trim`: both ends. */
  function Trim(s: string): (r: string)
  {
    TrimEnd(TrimStart(s))
  }

  lemma {:induction false} TrimStartAllSpace(s: string)
    requires forall i :: 0 <= i < |s| ==> IsSpace(s[i])
    ensures TrimStart(s) == []
    decreases |s|
  {
    if s != [] {
      TrimStartAllSpace(s[1..]);
    }
  }

  /** A trimmed string neither starts nor ends with white space, and the trimmed
      string is empty exactly when every character is white space. */
  lemma TrimProperties(s: string)
    ensures Trim(s) == [] || (!IsSpace(Trim(s)[0]) && !IsSpace(Trim(s)[|Trim(s)| - 1]))
    ensures Trim(s) == [] <==> forall i :: 0 <= i < |s| ==> IsSpace(s[i])
  {
    var t := TrimStart(s);
    var r := TrimEnd(t);
    if r != [] {
      assert r[0] == t[0];
    }
    if r == [] {
      forall i | 0 <= i < |s| ensures IsSpace(s[i]) {
        if i >= |s| - |t| {
          assert s[i] == t[i - (|s| - |t|)];
        }
      }
    }
    if forall i :: 0 <= i < |s| ==> IsSpace(s[i]) {
      TrimStartAllSpace(s);
    }
  }

  /** Trimming is idempotent. */
  lemma TrimIdempotent(s: string)
    ensures Trim(Trim(s)) == Trim(s)
  {
    TrimProperties(s);
    var r := Trim(s);
    if r != [] {
      assert TrimStart(r) == r;
      assert TrimEnd(r) == r;
    }
  }

  /** JavaScript truthiness of `s.trim()`: the trimmed string is non-empty. */
  predicate IsBlank(s: string)
  {
    Trim(s) == ""
  }

  function DigitChar(d: nat): char
    requires d < 10
  {
    ('0' as int + d) as char
  }

  /** Decimal text of a natural number, without leading zeros (`String(n)`). */
  function NatToString(n: nat): (r: string)
    ensures |r| >= 1 && IsDigit(r[0])
    ensures forall i :: 0 <= i < |r| ==> IsDigit(r[i])
    decreases n
  {
    if n < 10 then [DigitChar(n)] else NatToString(n / 10) + [DigitChar(n % 10)]
  }

  /** Decimal text of an integer, with a leading '-' when negative. */
  function IntToString(n: int): (r: string)
    ensures n >= 0 ==> r == NatToString(n)
    ensures n < 0 ==> r == "-" + NatToString(-n)
  {
    if n < 0 then "-" + NatToString(-n) else NatToString(n)
  }

  /** Two-digit text with a leading zero, as in ISO dates. */
  function Pad2(n: nat): (r: string)
    requires n < 100
    ensures |r| == 2
  {
    [DigitChar(n / 10), DigitChar(n % 10)]
  }

  function DigitValue(c: char): (r: nat)
    requires IsDigit(c)
    ensures r < 10
  {
    c as int - '0' as int
  }

  /** Value of a run of decimal digits, most significant first. */
  function DigitsValue(d: string): nat
    requires forall i :: 0 <= i < |d| ==> IsDigit(d[i])
    decreases |d|
  {
    if d == [] then 0 else DigitsValue(d[..|d| - 1]) * 10 + DigitValue(d[|d| - 1])
  }

  /** Length of the longest prefix of decimal digits. */
  function DigitRun(s: string): (n: nat)
    ensures n <= |s|
    ensures forall i :: 0 <= i < n ==> IsDigit(s[i])
    ensures n < |s| ==> !IsDigit(s[n])
    decreases |s|
  {
    if s != [] && IsDigit(s[0]) then 1 + DigitRun(s[1..]) else 0
  }

  function Pow10(n: nat): (r: nat)
    ensures r >= 1
  {
    if n == 0 then 1 else 10 * Pow10(n - 1)
  }

  /** The signed exponent of an optional ExponentPart (`e`, optional sign, digits) at the
      start of `s`; 0 when there is none. */
  function Exponent(s: string): int
  {
    if |s| >= 1 && (s[0] == 'e' || s[0] == 'E') then
      var signed := |s| >= 2 && (s[1] == '+' || s[1] == '-');
      var digits := if signed then s[2..] else s[1..];
      var n := DigitRun(digits);
      if n == 0 then 0
      else if signed && s[1] == '-' then -(DigitsValue(digits[..n]) as int)
      else DigitsValue(digits[..n]) as int
    else 0
  }

  /** `parseFloat`: leading white space is skipped, then the longest prefix that is
      an optional sign, decimal digits with an optional fraction (at least one digit)
      and an optional exponent is read; anything after it is ignored. `None` stands
      for NaN. The literal `Infinity` is not recognised. */
  function ParseFloat(s: string): Option<real>
  {
    var t := TrimStart(s);
    var neg := |t| > 0 && t[0] == '-';
    var u := if |t| > 0 && (t[0] == '-' || t[0] == '+') then t[1..] else t;
    match ParseUnsigned(u)
    case None => None
    case Some(m) => Some(if neg then -m else m)
  }

  /** An unsigned decimal literal at the start of `u`. */
  function ParseUnsigned(u: string): Option<real>
  {
    var i := DigitRun(u);
    var hasDot := i < |u| && u[i] == '.';
    var f := if hasDot then DigitRun(u[i + 1..]) else 0;
    if i == 0 && f == 0 then None
    else
      var whole := DigitsValue(u[..i]) as real;
      var frac := if hasDot then Scale(DigitsValue(u[i + 1..i + 1 + f]) as real, -f) else 0.0;
      var e := Exponent(if hasDot then u[i + 1 + f..] else u[i..]);
      Some(Scale(whole + frac, e))
  }

  /** `x * 10^e`, for an exponent of either sign. */
  function Scale(x: real, e: int): real
    decreases if e < 0 then -e else e
  {
    if e == 0 then x else if e > 0 then Scale(x, e - 1) * 10.0 else Scale(x, e + 1) / 10.0
  }

  /** `parseFloat(text) || 0`: the parsed number when it is truthy, otherwise 0;
      NaN and zero are the falsy numbers. */
  function NumberOrZero(text: string): (r: real)
    ensures r == 0.0 <==> ParseFloat(text).None? || ParseFloat(text) == Some(0.0)
    ensures r != 0.0 ==> ParseFloat(text) == Some(r)
  {
    match ParseFloat(text)
    case None => 0.0
    case Some(v) => v
  }

  lemma {:induction false} DigitsValueOfNat(n: nat)
    ensures DigitsValue(NatToString(n)) == n
    decreases n
  {
    if n >= 10 {
      DigitsValueOfNat(n / 10);
      var s := NatToString(n);
      assert s[..|s| - 1] == NatToString(n / 10);
    }
  }

  /** Reading back the decimal text of a natural number gives the number. */
  lemma ParseFloatNat(n: nat)
    ensures ParseFloat(NatToString(n)) == Some(n as real)
  {
    var s := NatToString(n);
    assert !IsSpace(s[0]);
    assert TrimStart(s) == s;
    assert s[0] != '-' && s[0] != '+';
    assert DigitRun(s) == |s| by {
      DigitRunAll(s);
    }
    assert s[..|s|] == s;
    DigitsValueOfNat(n);
    assert s[|s|..] == [];
  }

  lemma {:induction false} DigitRunAll(s: string)
    requires forall i :: 0 <= i < |s| ==> IsDigit(s[i])
    ensures DigitRun(s) == |s|
    decreases |s|
  {
    if s != [] {
      DigitRunAll(s[1..]);
    }
  }

  /** Text without digits holds no unsigned decimal literal. */
  lemma NoDigitsUnsigned(u: string)
    requires forall i :: 0 <= i < |u| ==> !IsDigit(u[i])
    ensures ParseUnsigned(u) == None
  {
    assert DigitRun(u) == 0;
    if 0 < |u| && u[0] == '.' {
      var v := u[1..];
      assert |v| > 0 ==> v[0] == u[1];
      assert DigitRun(v) == 0;
    }
  }

  /** A string with no digit at all is NaN to `parseFloat`, so it counts as 0. */
  lemma NoDigitsIsZero(s: string)
    requires forall i :: 0 <= i < |s| ==> !IsDigit(s[i])
    ensures ParseFloat(s) == None && NumberOrZero(s) == 0.0
  {
    var t := TrimStart(s);
    var u := if |t| > 0 && (t[0] == '-' || t[0] == '+') then t[1..] else t;
    assert forall i :: 0 <= i < |u| ==> u[i] == s[|s| - |u| + i];
    NoDigitsUnsigned(u);
  }

  /** `x.toFixed(2)`: the nearest multiple of 1/100 (the larger one on a tie),
      written with exactly two decimals and a '-' for negative `x`. */
  function Fixed2(x: real): (r: string)
  {
    var neg := x < 0.0;
    var a := if neg then -x else x;
    var n := (a * 100.0 + 0.5).Floor;
    assert n >= 0;
    (if neg then "-" else "") + NatToString(n / 100) + "." + Pad2(n % 100)
  }
}
