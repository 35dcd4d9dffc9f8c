/** The string operations the panel relies on, in ECMAScript terms: `trim`,
    `toLowerCase` (ASCII letters only), `includes`, `\D` digit stripping,
    number-to-string rendering and `parseInt` with its `|| default` fallback. */
module Text {
  import opened Wrappers

  /** ECMAScript WhiteSpace and LineTerminator code points: what `trim` removes
      and `parseInt` skips. */
  predicate IsWhitespace(c: char) {
    || c == '\t' || c == '\n' || c == '\U{000B}' || c == '\U{000C}' || c == '\r' || c == ' '
    || c == '\U{00A0}' || c == '\U{1680}' || ('\U{2000}' <= c <= '\U{200A}')
    || c == '\U{2028}' || c == '\U{2029}' || c == '\U{202F}' || c == '\U{205F}'
    || c == '\U{3000}' || c == '\U{FEFF}'
  }

  /** `trimStart`: drops the leading whitespace and nothing else. */
  function TrimStart(s: string): (r: string)
    ensures |r| <= |s| && r == s[|s| - |r|..]
    ensures forall i :: 0 <= i < |s| - |r| ==> IsWhitespace(s[i])
    ensures |r| > 0 ==> !IsWhitespace(r[0])
  {
    if |s| > 0 && IsWhitespace(s[0]) then TrimStart(s[1..]) else s
  }

  /** `trimEnd`: drops the trailing whitespace and nothing else. */
  function TrimEnd(s: string): (r: string)
    ensures |r| <= |s| && r == s[..|r|]
    ensures forall i :: |r| <= i < |s| ==> IsWhitespace(s[i])
    ensures |r| > 0 ==> !IsWhitespace(r[|r| - 1])
  {
    if |s| > 0 && IsWhitespace(s[|s| - 1]) then TrimEnd(s[..|s| - 1]) else s
  }

  /** `String.prototype.trim`. */
  function Trim(s: string): string {
    TrimEnd(TrimStart(s))
  }

  /** A string trims to `''` exactly when every character of it is whitespace. */
  lemma TrimEmptyIffBlank(s: string)
    ensures Trim(s) == "" <==> forall i :: 0 <= i < |s| ==> IsWhitespace(s[i])
  {
    var t := TrimStart(s);
    if Trim(s) == "" {
      assert |t| == 0;
    } else {
      assert |t| > 0;
      assert t[0] == s[|s| - |t|];
      assert !IsWhitespace(s[|s| - |t|]);
    }
  }

  /** `toLowerCase` restricted to ASCII: `A`..`Z` become `a`..`z`. */
  function ToLowerChar(c: char): char {
    if 'A' <= c <= 'Z' then (c as int + 32) as char else c
  }

  /** `String.prototype.toLowerCase` over ASCII letters; every other character
      is kept. */
  function ToLower(s: string): (r: string)
    ensures |r| == |s|
    ensures forall i :: 0 <= i < |r| ==> !('A' <= r[i] <= 'Z')
    ensures forall i :: 0 <= i < |s| && !('A' <= s[i] <= 'Z') ==> r[i] == s[i]
    ensures forall i :: 0 <= i < |s| && 'A' <= s[i] <= 'Z' ==> r[i] as int == s[i] as int + 32
  {
    seq(|s|, i requires 0 <= i < |s| => ToLowerChar(s[i]))
  }

  /** Lowercasing twice is lowercasing once. */
  lemma ToLowerIdempotent(s: string)
    ensures ToLower(ToLower(s)) == ToLower(s)
  {
  }

  /** `s.includes(t)`: `t` is a prefix of some suffix of `s`. */
  predicate Contains(s: string, t: string)
    decreases |s|
  {
    t <= s || (|s| > 0 && Contains(s[1..], t))
  }

  /** `t` occurs in `s` starting at offset `i`. */
  predicate OccursAt(s: string, t: string, i: int) {
    0 <= i <= |s| - |t| && s[i..i + |t|] == t
  }

  /** `includes` holds exactly when `t` occurs in `s` at some offset. */
  lemma ContainsIffOccurs(s: string, t: string)
    ensures Contains(s, t) <==> exists i :: OccursAt(s, t, i)
  {
    if Contains(s, t) {
      var i := ContainsWitness(s, t);
    }
    if exists i :: OccursAt(s, t, i) {
      var i :| OccursAt(s, t, i);
      OccursAtContains(s, t, i);
    }
  }

  /** An offset at which an included string occurs. */
  lemma {:induction false} ContainsWitness(s: string, t: string) returns (i: int)
    requires Contains(s, t)
    ensures OccursAt(s, t, i)
    decreases |s|
  {
    if t <= s {
      i := 0;
    } else {
      var j := ContainsWitness(s[1..], t);
      assert s[j + 1..j + 1 + |t|] == s[1..][j..j + |t|];
      i := j + 1;
    }
  }

  /** A string occurring at some offset is included. */
  lemma {:induction false} OccursAtContains(s: string, t: string, i: int)
    requires OccursAt(s, t, i)
    ensures Contains(s, t)
    decreases i
  {
    if i == 0 {
      assert t == s[..|t|];
    } else {
      assert s[1..][i - 1..i - 1 + |t|] == s[i..i + |t|];
      OccursAtContains(s[1..], t, i - 1);
    }
  }

  /** Every string includes the empty string, so an empty search term matches. */
  lemma ContainsEmpty(s: string)
    ensures Contains(s, "")
  {
  }

  /** The ASCII digits matched by the regular expression class `\d`. */
  predicate IsDigit(c: char) {
    '0' <= c <= '9'
  }

  /** The character for a decimal digit value. */
  function DigitChar(d: int): (c: char)
    requires 0 <= d < 10
    ensures IsDigit(c)
  {
    ('0' as int + d) as char
  }

  /** Template-literal rendering `${n}` of a non-negative integer: decimal
      digits, no leading zero. */
  function NatToString(n: nat): (r: string)
    ensures |r| > 0
    ensures forall i :: 0 <= i < |r| ==> IsDigit(r[i])
    ensures |r| > 1 ==> r[0] != '0'
  {
    if n < 10 then [DigitChar(n)] else NatToString(n / 10) + [DigitChar(n % 10)]
  }

  /** The value of a digit character in bases up to 36, or 36 when it is none. */
  function DigitValue(c: char): (v: int)
    ensures 0 <= v <= 36
    ensures IsDigit(c) ==> v == c as int - '0' as int
  {
    if '0' <= c <= '9' then c as int - '0' as int
    else if 'a' <= c <= 'z' then c as int - 'a' as int + 10
    else if 'A' <= c <= 'Z' then c as int - 'A' as int + 10
    else 36
  }

  /** The longest prefix of `s` made of digits of the given radix. */
  function DigitPrefix(s: string, radix: int): (r: string)
    ensures |r| <= |s| && r == s[..|r|]
    ensures forall i :: 0 <= i < |r| ==> DigitValue(r[i]) < radix
    ensures |r| < |s| ==> DigitValue(s[|r|]) >= radix
  {
    if |s| > 0 && DigitValue(s[0]) < radix then [s[0]] + DigitPrefix(s[1..], radix) else ""
  }

  /** The number that a digit string denotes in the given radix. */
  function DigitsValue(ds: string, radix: nat): nat
  {
    if |ds| == 0 then 0
    else DigitsValue(ds[..|ds| - 1], radix) * radix + (var d := DigitValue(ds[|ds| - 1]); if d < radix then d else 0)
  }

  /** Global `parseInt(s)` without a radix (ECMAScript section 19.2.5): skip
      leading whitespace, read an optional sign, switch to base 16 after `0x`
      or `0X`, and read the longest run of digits; `None` is NaN. */
  function ParseInt(s: string): Option<int>
  {
    ParseSigned(TrimStart(s))
  }

  /** The signed part of `parseInt`, once the whitespace is skipped. */
  function ParseSigned(t: string): Option<int>
  {
    var signed := |t| > 0 && (t[0] == '-' || t[0] == '+');
    var v := ParseUnsigned(if signed then t[1..] else t);
    if v.None? then None
    else if signed && t[0] == '-' then Some(-(v.value as int))
    else Some(v.value as int)
  }

  /** The unsigned part of `parseInt`, after the sign: hexadecimal after `0x`
      or `0X`, decimal otherwise; `None` when no digit follows. */
  function ParseUnsigned(u: string): Option<nat>
  {
    var hex := |u| >= 2 && u[0] == '0' && (u[1] == 'x' || u[1] == 'X');
    var radix := if hex then 16 else 10;
    var ds := DigitPrefix(if hex then u[2..] else u, radix);
    if |ds| == 0 then None else Some(DigitsValue(ds, radix))
  }

  /** JavaScript `parseInt(s) || d`: NaN and zero are falsy, so both give `d`. */
  function ParseIntOr(s: string, d: int): (r: int)
    ensures ParseInt(s).None? ==> r == d
    ensures ParseInt(s) == Some(0) ==> r == d
    ensures ParseInt(s).Some? && ParseInt(s).value != 0 ==> r == ParseInt(s).value
  {
    match ParseInt(s)
    case None => d
    case Some(n) => if n == 0 then d else n
  }

  /** A digit string is its own longest digit prefix. */
  lemma {:induction false} DigitPrefixOfDigits(s: string)
    requires forall i :: 0 <= i < |s| ==> IsDigit(s[i])
    ensures DigitPrefix(s, 10) == s
    decreases |s|
  {
    if |s| > 0 {
      DigitPrefixOfDigits(s[1..]);
      assert s == [s[0]] + s[1..];
    }
  }

  /** Reading back a rendered number gives the number. */
  lemma {:induction false} DigitsValueOfNatToString(n: nat)
    ensures DigitsValue(NatToString(n), 10) == n
    decreases n
  {
    var r := NatToString(n);
    if n < 10 {
      assert r[..0] == "";
    } else {
      DigitsValueOfNatToString(n / 10);
      assert r[..|r| - 1] == NatToString(n / 10);
    }
  }

  /** `parseInt` inverts decimal rendering, for either sign. */
  lemma ParseIntOfNatToString(n: nat)
    ensures ParseInt(NatToString(n)) == Some(n)
    ensures ParseInt("-" + NatToString(n)) == Some(-(n as int))
  {
    var r := NatToString(n);
    DigitsValueOfNatToString(n);
    ParseIntOfDigits(r, n);
    ParseIntOfNegatedDigits(r, n);
  }

  /** An unsigned run of decimal digits reads as its value `n`. */
  lemma ParseIntOfDigits(ds: string, n: nat)
    requires |ds| > 0 && forall i :: 0 <= i < |ds| ==> IsDigit(ds[i])
    requires DigitsValue(ds, 10) == n
    ensures ParseInt(ds) == Some(n)
  {
    assert IsDigit(ds[0]);
    NothingToTrim(ds);
    ParseUnsignedOfDigits(ds, n);
    NoSign(ds, n);
  }

  /** A minus sign and a run of decimal digits of value `n` read as `-n`. */
  lemma ParseIntOfNegatedDigits(ds: string, n: nat)
    requires |ds| > 0 && forall i :: 0 <= i < |ds| ==> IsDigit(ds[i])
    requires DigitsValue(ds, 10) == n
    ensures ParseInt("-" + ds) == Some(-(n as int))
  {
    var m := "-" + ds;
    assert m[0] == '-' && m[1..] == ds;
    NothingToTrim(m);
    ParseUnsignedOfDigits(ds, n);
    NegativeSign(m, n);
  }

  /** A text that starts with a non-whitespace character is not trimmed. */
  lemma NothingToTrim(s: string)
    requires |s| > 0 && !IsWhitespace(s[0])
    ensures TrimStart(s) == s
  {
  }

  /** Without a sign, the unsigned value `n` is read as it is. */
  lemma NoSign(t: string, n: nat)
    requires |t| > 0 && t[0] != '-' && t[0] != '+' && ParseUnsigned(t) == Some(n)
    ensures ParseSigned(t) == Some(n)
  {
  }

  /** A minus sign in front of an unsigned value `n` makes it `-n`. */
  lemma NegativeSign(t: string, n: nat)
    requires |t| > 0 && t[0] == '-' && ParseUnsigned(t[1..]) == Some(n)
    ensures ParseSigned(t) == Some(-(n as int))
  {
  }

  /** A run of decimal digits, which never starts with `0x`, is read in base
      10 to its end. */
  lemma ParseUnsignedOfDigits(ds: string, n: nat)
    requires |ds| > 0 && forall i :: 0 <= i < |ds| ==> IsDigit(ds[i])
    requires DigitsValue(ds, 10) == n
    ensures ParseUnsigned(ds) == Some(n)
  {
    assert !(|ds| >= 2 && ds[0] == '0' && (ds[1] == 'x' || ds[1] == 'X')) by {
      if |ds| >= 2 {
        assert IsDigit(ds[1]);
      }
    }
    DigitPrefixOfDigits(ds);
  }

  /** The digit prefix of digits followed by a non-digit is those digits. */
  lemma {:induction false} DigitPrefixStops(ds: string, rest: string)
    requires forall i :: 0 <= i < |ds| ==> IsDigit(ds[i])
    requires |rest| > 0 ==> DigitValue(rest[0]) >= 10
    ensures DigitPrefix(ds + rest, 10) == ds
    decreases |ds|
  {
    if |ds| > 0 {
      assert (ds + rest)[1..] == ds[1..] + rest;
      DigitPrefixStops(ds[1..], rest);
      assert ds == [ds[0]] + ds[1..];
    } else {
      assert ds + rest == rest;
    }
  }

  /** `parseInt` reads the number at the head of a text like `5 min`: a
      rendered number followed by anything that does not continue it. */
  lemma ParseIntOfNumberThen(n: nat, suffix: string)
    requires |suffix| > 0 ==> DigitValue(suffix[0]) >= 10 && suffix[0] != 'x' && suffix[0] != 'X'
    ensures ParseInt(NatToString(n) + suffix) == Some(n)
  {
    var r := NatToString(n);
    var m := r + suffix;
    assert m[0] == r[0];
    assert TrimStart(m) == m by {
      assert !IsWhitespace(m[0]);
    }
    assert IsDigit(m[0]);
    assert m[0] != '-' && m[0] != '+';
    assert !(|m| >= 2 && m[0] == '0' && (m[1] == 'x' || m[1] == 'X')) by {
      if |r| >= 2 {
        assert m[1] == r[1] && IsDigit(r[1]);
      } else if |m| >= 2 {
        assert m[1] == suffix[0];
      }
    }
    DigitPrefixStops(r, suffix);
    DigitsValueOfNatToString(n);
    assert DigitPrefix(m, 10) == r;
  }
}
