/** The few pieces of Python string behaviour the SDK relies on: `str(int)`,
    `sep.join(parts)`, `str.replace` of one character, `str.split(sep)` and the
    zero-padded integer format `{n:0Wd}`. */
module Strings {

  /** The decimal digit for 0 <= d < 10. */
  function DigitChar(d: int): (c: char)
    requires 0 <= d < 10
    ensures '0' <= c <= '9'
  {
    "0123456789"[d]
  }

  predicate IsDigit(c: char) {
    '0' <= c <= '9'
  }

  predicate AllDigits(s: string) {
    forall i :: 0 <= i < |s| ==> IsDigit(s[i])
  }

  /** `str(n)` for n >= 0. */
  function NatDigits(n: nat): (s: string)
    decreases n
  {
    if n < 10 then [DigitChar(n)] else NatDigits(n / 10) + [DigitChar(n % 10)]
  }

  /** `str(n)` for any Python int: a minus sign, then the digits of |n|. */
  function Decimal(n: int): string {
    if n < 0 then "-" + NatDigits(-n) else NatDigits(n)
  }

  /** The value of a string of decimal digits, read left to right. */
  function ParseDigits(s: string): int
    requires AllDigits(s)
  {
    if s == [] then 0 else 10 * ParseDigits(s[..|s| - 1]) + (s[|s| - 1] as int - '0' as int)
  }

  /** The digits of n are non-empty, all decimal digits, and without a leading
      zero unless n is 0. */
  lemma {:induction false} NatDigitsShape(n: nat)
    ensures |NatDigits(n)| >= 1 && AllDigits(NatDigits(n))
    ensures NatDigits(n)[0] == '0' ==> n == 0
    decreases n
  {
    if n >= 10 {
      NatDigitsShape(n / 10);
      var s := NatDigits(n);
      assert s == NatDigits(n / 10) + [DigitChar(n % 10)];
      assert s[0] == NatDigits(n / 10)[0];
    }
  }

  /** The digits of n read back as n. */
  lemma {:induction false} NatDigitsRoundTrip(n: nat)
    ensures AllDigits(NatDigits(n))
    ensures ParseDigits(NatDigits(n)) == n
    decreases n
  {
    NatDigitsShape(n);
    if n >= 10 {
      NatDigitsRoundTrip(n / 10);
      var s := NatDigits(n);
      assert s[..|s| - 1] == NatDigits(n / 10);
    }
  }

  /** Numbers below 10^k have at most k digits; numbers at or above 10^(k-1) at
      least k. Stated here for the two widths the SRT format uses. */
  lemma {:induction false} NatDigitsLength(n: nat)
    ensures n < 10 ==> |NatDigits(n)| == 1
    ensures 10 <= n < 100 ==> |NatDigits(n)| == 2
    ensures 100 <= n < 1000 ==> |NatDigits(n)| == 3
    ensures n < 1000 ==> |NatDigits(n)| <= 3
  {
    if n >= 10 {
      NatDigitsLength(n / 10);
    }
  }

  /** The format `{n:0<width>d}`: the digits of |n| padded on the left with
      zeros to `width` characters, the sign counting toward the width. */
  function ZeroPad(n: int, width: nat): (s: string)
  {
    if n < 0 then "-" + LeftPad(NatDigits(-n), if width == 0 then 0 else width - 1)
    else LeftPad(NatDigits(n), width)
  }

  function LeftPad(s: string, width: nat): (r: string)
    ensures |r| == if |s| >= width then |s| else width
    ensures r[|r| - |s|..] == s
    ensures forall i :: 0 <= i < |r| - |s| ==> r[i] == '0'
  {
    if |s| >= width then s else seq(width - |s|, _ => '0') + s
  }

  /** Non-negative numbers are padded with zeros only: the result is all
      digits, exactly `width` long when n fits, and reads back as n. */
  lemma ZeroPadNat(n: nat, width: nat)
    ensures AllDigits(ZeroPad(n, width))
    ensures |NatDigits(n)| <= width ==> |ZeroPad(n, width)| == width
    ensures ParseDigits(ZeroPad(n, width)) == n
  {
    NatDigitsRoundTrip(n);
    var d := NatDigits(n);
    var r := ZeroPad(n, width);
    assert r == LeftPad(d, width);
    ParseLeadingZeros(r, |r| - |d|);
  }

  /** Leading zeros do not change the value of a digit string. */
  lemma {:induction false} ParseLeadingZeros(s: string, k: nat)
    requires k <= |s| && AllDigits(s)
    requires forall i :: 0 <= i < k ==> s[i] == '0'
    ensures ParseDigits(s) == ParseDigits(s[k..])
    decreases |s|
  {
    if k == |s| {
      assert s[k..] == [];
      ParseAllZeros(s);
    } else {
      var t := s[..|s| - 1];
      assert s[k..][..|s[k..]| - 1] == t[k..];
      ParseLeadingZeros(t, k);
    }
  }

  lemma {:induction false} ParseAllZeros(s: string)
    requires forall i :: 0 <= i < |s| ==> s[i] == '0'
    ensures AllDigits(s) && ParseDigits(s) == 0
    decreases |s|
  {
    if s != [] {
      ParseAllZeros(s[..|s| - 1]);
    }
  }

  /** `sep.join(parts)` */
  function Join(parts: seq<string>, sep: string): string
  {
    if parts == [] then "" else if |parts| == 1 then parts[0] else parts[0] + sep + Join(parts[1..], sep)
  }

  /** `s.replace(a, b)` for single characters a and b. */
  function ReplaceChar(s: string, a: char, b: char): (r: string)
    ensures |r| == |s|
    ensures forall i :: 0 <= i < |s| ==> r[i] == (if s[i] == a then b else s[i])
  {
    if s == [] then [] else [if s[0] == a then b else s[0]] + ReplaceChar(s[1..], a, b)
  }

  /** `s.split(sep)` for a single-character separator: the pieces between the
      separators, empty pieces included; always at least one piece. */
  function Split(s: string, sep: char): (pieces: seq<string>)
    ensures |pieces| >= 1
    decreases |s|
  {
    if s == [] then [""]
    else
      var rest := Split(s[1..], sep);
      if s[0] == sep then [""] + rest else [[s[0]] + rest[0]] + rest[1..]
  }

  /** Joining the pieces of a split with the separator gives the string back,
      and no piece contains the separator. */
  lemma {:induction false} SplitJoin(s: string, sep: char)
    ensures Join(Split(s, sep), [sep]) == s
    ensures forall i, j :: 0 <= i < |Split(s, sep)| && 0 <= j < |Split(s, sep)[i]| ==> Split(s, sep)[i][j] != sep
    decreases |s|
  {
    if s != [] {
      SplitJoin(s[1..], sep);
      var rest := Split(s[1..], sep);
      if s[0] == sep {
        assert Split(s, sep) == [""] + rest;
        assert s == [s[0]] + s[1..];
      } else {
        var p := Split(s, sep);
        assert p == [[s[0]] + rest[0]] + rest[1..];
        if |rest| == 1 {
          assert Join(p, [sep]) == [s[0]] + rest[0];
          assert Join(rest, [sep]) == rest[0];
        } else {
          assert Join(p, [sep]) == [s[0]] + rest[0] + [sep] + Join(rest[1..], [sep]);
        }
        assert s == [s[0]] + s[1..];
        forall i, j | 0 <= i < |p| && 0 <= j < |p[i]| ensures p[i][j] != sep {
          if i == 0 {
            if j > 0 { assert p[0][j] == rest[0][j - 1]; }
          } else {
            assert p[i] == rest[i];
          }
        }
      }
    }
  }

  /** Python's `str.isspace()` for one character: the characters Python treats
      as whitespace (category Zs and the bidirectional classes WS, B and S). */
  predicate IsSpace(c: char) {
    c == ' ' || ('\t' <= c <= '\r') || ('\U{1c}' <= c <= '\U{1f}') || c == '\U{85}' || c == '\U{a0}'
    || c == '\U{1680}' || ('\U{2000}' <= c <= '\U{200a}') || c == '\U{2028}' || c == '\U{2029}'
    || c == '\U{202f}' || c == '\U{205f}' || c == '\U{3000}'
  }

  /** `bool(s.strip())`: the string has a character that is not whitespace. */
  predicate NonBlank(s: string) {
    exists i :: 0 <= i < |s| && !IsSpace(s[i])
  }
}
