/**
 * Integers as text: `Number.prototype.toString()` on integers and the global
 * `parseInt` of ECMA-262 (leading `\s` skipped, an optional sign, a `0x`/`0X`
 * prefix switching to base 16, the longest run of digits; no digit is `NaN`).
 */
module Numbers {
  import opened Wrappers
  import Strings

  /** The largest magnitude printed without an exponent: 10^21. */
  const PlainDecimalBound: int := 1000000000000000000000

  predicate IsDecimalDigit(c: char) {
    '0' <= c <= '9'
  }

  function DigitChar(d: int): (c: char)
    requires 0 <= d < 10
    ensures IsDecimalDigit(c)
  {
    ('0' as int + d) as char
  }

  /** Decimal digits of `n`, most significant first, no leading zero. */
  function NatToString(n: nat): (s: string)
    ensures |s| >= 1
    ensures forall i :: 0 <= i < |s| ==> IsDecimalDigit(s[i])
    ensures s[0] == '0' ==> n == 0
    decreases n
  {
    if n < 10 then [DigitChar(n)]
    else NatToString(n / 10) + [DigitChar(n % 10)]
  }

  /**
   * `n.toString()` with exact integer digits: the text JavaScript prints for
   * integers up to 2^53 in magnitude, where doubles are still exact.
   */
  function IntToString(n: int): (s: string)
    ensures |s| >= 1
  {
    if n < 0 then "-" + NatToString(-n) else NatToString(n)
  }

  /** The value of one character as a digit in base `radix`, if it is one. */
  function DigitValue(c: char, radix: int): (d: Option<int>)
    requires radix == 10 || radix == 16
    ensures d.Some? ==> 0 <= d.value < radix
    ensures radix == 10 ==> (d.Some? <==> IsDecimalDigit(c))
  {
    if '0' <= c <= '9' then Some(c as int - '0' as int)
    else if radix == 16 && 'a' <= c <= 'f' then Some(c as int - 'a' as int + 10)
    else if radix == 16 && 'A' <= c <= 'F' then Some(c as int - 'A' as int + 10)
    else None
  }

  /** The longest prefix of `s` made of digits of base `radix`. */
  function DigitRun(s: string, radix: int): (r: string)
    requires radix == 10 || radix == 16
    ensures r <= s
    ensures forall i :: 0 <= i < |r| ==> DigitValue(r[i], radix).Some?
    ensures |r| < |s| ==> DigitValue(s[|r|], radix).None?
  {
    if s == [] || DigitValue(s[0], radix).None? then []
    else [s[0]] + DigitRun(s[1..], radix)
  }

  /** The number a run of digits denotes, most significant first. */
  function RunValue(r: string, radix: int): (v: nat)
    requires radix == 10 || radix == 16
    requires forall i :: 0 <= i < |r| ==> DigitValue(r[i], radix).Some?
  {
    if r == [] then 0
    else RunValue(r[..|r| - 1], radix) * radix + DigitValue(r[|r| - 1], radix).value
  }

  /** `u` starts with `0x` or `0X`, which switches `parseInt` to base 16. */
  predicate HexPrefix(u: string) {
    |u| >= 2 && u[0] == '0' && (u[1] == 'x' || u[1] == 'X')
  }

  /** The digits after the sign: base 16 after `0x` or `0X`, else base 10. */
  function ParseMagnitude(u: string): (m: Option<nat>)
    ensures m.Some? ==> u != []
  {
    var hex := HexPrefix(u);
    var radix := if hex then 16 else 10;
    var run := DigitRun(if hex then u[2..] else u, radix);
    if run == [] then None else Some(RunValue(run, radix))
  }

  /** `parseInt(s)` with no radix argument; `None` stands for `NaN`. */
  function ParseInt(s: string): (r: Option<int>)
    ensures var u := UnsignedPart(Strings.TrimStart(s));
      && (HexPrefix(u) ==> (r.None? <==> |u| == 2 || DigitValue(u[2], 16).None?))
      && (!HexPrefix(u) ==> (r.None? <==> u == [] || !IsDecimalDigit(u[0])))
    ensures var t := Strings.TrimStart(s);
      && (r.Some? && t != [] && t[0] == '-' ==> r.value <= 0)
      && (r.Some? && !(t != [] && t[0] == '-') ==> r.value >= 0)
  {
    var t := Strings.TrimStart(s);
    match ParseMagnitude(UnsignedPart(t))
    case None => None
    case Some(m) =>
      var v: int := if t != [] && t[0] == '-' then 0 - (m as int) else m;
      Some(v)
  }

  /**
   * Without a `0x` prefix, `parseInt` reads the longest run of decimal digits
   * after the leading space and the sign, and negates it after a `-`.
   */
  lemma DecimalValue(s: string)
    requires !HexPrefix(UnsignedPart(Strings.TrimStart(s)))
    requires ParseInt(s).Some?
    ensures var t := Strings.TrimStart(s);
      var run := DigitRun(UnsignedPart(t), 10);
      ParseInt(s).value == if t != [] && t[0] == '-' then 0 - (RunValue(run, 10) as int) else RunValue(run, 10)
  {
  }

  /** `0x` with no hexadecimal digit after it is `NaN`, though it starts with the digit `0`. */
  lemma BareHexPrefixIsNaN()
    ensures ParseInt("0x") == None && ParseInt("0xg") == None
    ensures ParseInt("0x1f") == Some(31)
  {
    var h := "0x1f";
    assert Strings.TrimStart(h) == h && UnsignedPart(h) == h;
    assert HexPrefix(h) && h[2..] == "1f";
    assert DigitRun("", 16) == "";
    assert DigitRun("f", 16) == "f" by { assert "f"[1..] == ""; }
    assert DigitRun("1f", 16) == "1f" by { assert "1f"[1..] == "f"; }
    assert RunValue("1", 16) == 1 by { assert "1"[..0] == ""; }
    assert RunValue("1f", 16) == 31 by { assert "1f"[..1] == "1"; }
  }

  /** The text after one leading `+` or `-`. */
  function UnsignedPart(t: string): (u: string)
    ensures |u| <= |t|
  {
    if t != [] && (t[0] == '-' || t[0] == '+') then t[1..] else t
  }

  lemma {:induction false} DigitRunOfDigits(s: string)
    requires forall i :: 0 <= i < |s| ==> IsDecimalDigit(s[i])
    ensures DigitRun(s, 10) == s
  {
    if s != [] {
      DigitRunOfDigits(s[1..]);
    }
  }

  lemma {:induction false} NatToStringValue(n: nat)
    ensures RunValue(NatToString(n), 10) == n
    decreases n
  {
    var s := NatToString(n);
    if n >= 10 {
      NatToStringValue(n / 10);
      assert s[..|s| - 1] == NatToString(n / 10);
      assert s[|s| - 1] == DigitChar(n % 10);
    }
  }

  /** The digits of a natural number parse back to it. */
  lemma NatToStringParses(m: nat)
    ensures ParseMagnitude(NatToString(m)) == Some(m)
  {
    var digits := NatToString(m);
    assert digits[0] == '0' ==> |digits| == 1;
    DigitRunOfDigits(digits);
    NatToStringValue(m);
  }

  /**
   * Printing an integer and parsing it back gives the integer again, over the
   * range where `toString` prints plain decimal digits.
   */
  lemma IntToStringRoundTrip(n: int)
    requires -PlainDecimalBound < n < PlainDecimalBound
    ensures ParseInt(IntToString(n)) == Some(n)
  {
    var m: nat := if n < 0 then -n else n;
    var digits := NatToString(m);
    var s := IntToString(n);
    assert !Strings.IsSpace(s[0]) by {
      if n >= 0 {
        assert IsDecimalDigit(digits[0]);
      } else {
        assert s[0] == '-';
      }
    }
    assert Strings.TrimStart(s) == s;
    if n < 0 {
      assert s == "-" + digits;
      assert UnsignedPart(s) == digits;
    } else {
      assert s == digits;
      assert IsDecimalDigit(digits[0]);
      assert UnsignedPart(s) == digits;
    }
    NatToStringParses(m);
  }
}
