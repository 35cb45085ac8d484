/**
 * Decimal text for non-negative integers (JavaScript's `String(n)` / template
 * interpolation of an integer) and the global `parseInt(text)` called without a
 * radix, as section 19.2.5 of ECMA-262 defines it.
 */
module Decimal {
  import opened Js

  function DigitChar(d: nat): (c: char)
    requires d < 10
    ensures IsDigit(c)
  {
    ('0' as int + d) as char
  }

  /** The value of `c` as a digit in any radix up to 36 (`a`/`A` is 10), or 36 when `c` is no digit at all. */
  function DigitValue(c: char): (v: nat)
    ensures v <= 36
    ensures IsDigit(c) <==> v < 10
  {
    if '0' <= c <= '9' then c as int - '0' as int
    else if 'a' <= c <= 'z' then c as int - 'a' as int + 10
    else if 'A' <= c <= 'Z' then c as int - 'A' as int + 10
    else 36
  }

  predicate IsRadixDigit(c: char, radix: nat)
  {
    DigitValue(c) < radix
  }

  predicate AllRadixDigits(s: string, radix: nat)
  {
    forall i :: 0 <= i < |s| ==> IsRadixDigit(s[i], radix)
  }

  /** `String(n)`: the shortest decimal numeral of `n`. */
  function ToDecimal(n: nat): (s: string)
    ensures |s| > 0
    ensures forall i :: 0 <= i < |s| ==> IsDigit(s[i])
    ensures s[0] == '0' ==> n == 0 && s == "0"
    ensures n < 10 <==> |s| == 1
    decreases n
  {
    if n < 10 then [DigitChar(n)] else ToDecimal(n / 10) + [DigitChar(n % 10)]
  }

  function Pow10(k: nat): (p: nat)
    ensures p >= 1
  {
    if k == 0 then 1 else 10 * Pow10(k - 1)
  }

  /** `String(n)` has exactly `k` digits when `10^(k-1) <= n < 10^k`. */
  lemma {:induction false} DecimalLength(n: nat, k: nat)
    requires 1 <= k && Pow10(k - 1) <= n < Pow10(k)
    ensures |ToDecimal(n)| == k
    decreases k
  {
    if k > 1 {
      assert n >= 10;
      assert Pow10(k - 2) <= n / 10 < Pow10(k - 1);
      DecimalLength(n / 10, k - 1);
    }
  }

  /** The value of a numeral, most significant digit first. */
  function ValueOf(digits: string, radix: nat): nat
    requires AllRadixDigits(digits, radix)
  {
    if digits == [] then 0
    else ValueOf(digits[..|digits| - 1], radix) * radix + DigitValue(digits[|digits| - 1])
  }

  /** Leading white space removed (`\s`, which is also the set `parseInt` trims). */
  function TrimStart(s: string): (t: string)
    ensures |t| <= |s| && t == s[|s| - |t|..]
    ensures t == [] || !IsWhitespace(t[0])
  {
    if s != [] && IsWhitespace(s[0]) then TrimStart(s[1..]) else s
  }

  /** The longest prefix of `s` made of digits of `radix`. */
  function LeadingDigits(s: string, radix: nat): (d: string)
    ensures |d| <= |s| && d == s[..|d|]
    ensures AllRadixDigits(d, radix)
    ensures |d| < |s| ==> !IsRadixDigit(s[|d|], radix)
  {
    if s != [] && IsRadixDigit(s[0], radix) then [s[0]] + LeadingDigits(s[1..], radix) else []
  }

  /**
   * `parseInt(text)` without a radix; `None` stands for `NaN`. White space is
   * skipped, one sign is taken, and the rest is read by `ParseUnsigned`.
   */
  function ParseInt(text: string): (r: Option<int>)
    ensures text != [] && '1' <= text[0] <= '9' ==> r.Some? && r.value > 0
  {
    var t := TrimStart(text);
    if t != [] && t[0] == '-' then
      match ParseUnsigned(t[1..])
      case None => None
      case Some(v) => Some(-(v as int))
    else if t != [] && t[0] == '+' then ParseUnsigned(t[1..])
    else ParseUnsigned(t)
  }

  /**
   * A `0x`/`0X` prefix switches to radix 16; the longest run of digits that
   * follows is read and anything after it is ignored; no digits at all is `NaN`.
   */
  function ParseUnsigned(u: string): (r: Option<nat>)
    ensures u != [] && '1' <= u[0] <= '9' ==> r.Some? && r.value > 0
  {
    if |u| >= 2 && u[0] == '0' && (u[1] == 'x' || u[1] == 'X') then
      var d := LeadingDigits(u[2..], 16);
      if d == [] then None else Some(ValueOf(d, 16))
    else
      var d := LeadingDigits(u, 10);
      if d == [] then None
      else
        var v := ValueOf(d, 10);
        assert d[0] == u[0];
        assert d[0] != '0' ==> v > 0 by {
          if d[0] != '0' { LeadingValuePositive(d, 10); }
        }
        Some(v)
  }

  /** A numeral whose first digit is not zero has a positive value. */
  lemma {:induction false} LeadingValuePositive(d: string, radix: nat)
    requires d != [] && AllRadixDigits(d, radix) && DigitValue(d[0]) > 0
    ensures ValueOf(d, radix) > 0
  {
    var init := d[..|d| - 1];
    assert radix >= 1;
    if |d| > 1 {
      assert init[0] == d[0];
      assert AllRadixDigits(init, radix) by {
        forall i | 0 <= i < |init|
          ensures IsRadixDigit(init[i], radix)
        {
          assert init[i] == d[i];
        }
      }
      LeadingValuePositive(init, radix);
      var v := ValueOf(init, radix);
      assert v >= 1;
      assert v * radix >= radix by {
        MultiplyMonotone(v, radix);
      }
    } else {
      assert init == [];
      assert d[|d| - 1] == d[0];
    }
  }

  lemma MultiplyMonotone(v: nat, radix: nat)
    requires v >= 1
    ensures v * radix >= radix
  {
  }

  lemma {:induction false} ValueOfDecimal(n: nat)
    ensures AllRadixDigits(ToDecimal(n), 10)
    ensures ValueOf(ToDecimal(n), 10) == n
    decreases n
  {
    var s := ToDecimal(n);
    if n >= 10 {
      ValueOfDecimal(n / 10);
      assert s[..|s| - 1] == ToDecimal(n / 10);
    }
  }

  /** `parseInt(String(n)) === n` for every non-negative integer `n`. */
  lemma {:induction false} ParseIntOfDecimal(n: nat)
    ensures ParseInt(ToDecimal(n)) == Some(n)
  {
    ValueOfDecimal(n);
    ParseIntOfNumeral(ToDecimal(n));
  }

  /** A plain numeral (digits only, nothing before them) is read in radix 10. */
  lemma {:induction false} ParseIntOfNumeral(s: string)
    requires s != [] && forall i :: 0 <= i < |s| ==> IsDigit(s[i])
    ensures AllRadixDigits(s, 10)
    ensures ParseInt(s) == Some(ValueOf(s, 10))
  {
    assert !IsWhitespace(s[0]);
    assert TrimStart(s) == s;
    assert s[0] != '-' && s[0] != '+';
    assert |s| >= 2 ==> s[1] != 'x' && s[1] != 'X';
    AllDigitsAreLeading(s, 10);
    assert ParseUnsigned(s) == Some(ValueOf(s, 10));
  }

  /** Text that starts with something other than white space, a sign or a digit reads as `NaN`. */
  lemma ParseIntNaN(s: string)
    requires s == [] || (!IsWhitespace(s[0]) && s[0] != '-' && s[0] != '+' && !IsDigit(s[0]))
    ensures ParseInt(s) == None
  {
    assert TrimStart(s) == s;
    assert LeadingDigits(s, 10) == [];
  }

  lemma {:induction false} AllDigitsAreLeading(s: string, radix: nat)
    requires AllRadixDigits(s, radix)
    ensures LeadingDigits(s, radix) == s
  {
    if s != [] {
      AllDigitsAreLeading(s[1..], radix);
    }
  }
}
