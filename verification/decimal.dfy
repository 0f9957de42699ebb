/**
 * Decimal rendering and parsing of Go's `int` on a 64-bit platform: the
 * behaviour of `strconv.Itoa` and `strconv.Atoi` (base 10) as the handler
 * and the port selection use them.
 */
module Decimal {
  import opened Wrappers
  import opened GoInt

  predicate IsDigit(c: char) {
    '0' <= c <= '9'
  }

  predicate AllDigits(s: string) {
    forall i :: 0 <= i < |s| ==> IsDigit(s[i])
  }

  function DigitValue(c: char): (d: nat)
    requires IsDigit(c)
    ensures d < 10
  {
    (c as int) - ('0' as int)
  }

  function DigitChar(d: nat): (c: char)
    requires d < 10
    ensures IsDigit(c) && DigitValue(c) == d
  {
    (('0' as int) + d) as char
  }

  /** The number a string of decimal digits denotes, most significant digit first. */
  function DigitsValue(s: string): nat
    requires AllDigits(s)
  {
    if |s| == 0 then 0 else DigitsValue(s[..|s| - 1]) * 10 + DigitValue(s[|s| - 1])
  }

  /** A magnitude written the way `Itoa` writes it: digits only, no leading zero except "0" itself. */
  predicate CanonicalMagnitude(t: string) {
    |t| > 0 && AllDigits(t) && (t[0] == '0' ==> |t| == 1)
  }

  /** A full rendering as `Itoa` produces it: an optional '-' before a non-zero canonical magnitude. */
  predicate Canonical(s: string) {
    if |s| > 0 && s[0] == '-' then CanonicalMagnitude(s[1..]) && s[1..] != "0"
    else CanonicalMagnitude(s)
  }

  /** Digits of n, most significant first, without leading zeros. */
  function NatToDigits(n: nat): (s: string)
    ensures |s| > 0 && AllDigits(s)
    decreases n
  {
    if n < 10 then [DigitChar(n)] else NatToDigits(n / 10) + [DigitChar(n % 10)]
  }

  /** `strconv.Itoa`: '-' only for negatives, no leading zeros, "0" for zero. */
  function IntToDecimal(n: int64): (s: string)
    ensures Canonical(s)
    ensures s[0] == '-' <==> n < 0
    ensures s == "0" <==> n == 0
  {
    if n < 0 then
      var m: nat := -(n as int);
      NatToDigitsCanonical(m);
      NatToDigitsZero(m);
      "-" + NatToDigits(m)
    else
      NatToDigitsCanonical(n);
      NatToDigitsZero(n);
      NatToDigits(n)
  }

  /**
   * `strconv.Atoi` (base-10 `ParseInt` into 64 bits): an optional '+' or '-'
   * followed by at least one ASCII digit; leading zeros are accepted; any other
   * character, an empty string and a value outside the 64-bit range fail.
   */
  function ParseDecimal(s: string): (r: Option<int64>)
    ensures |s| == 0 ==> r.None?
    ensures r.Some? ==> AllDigits(Unsigned(s)) && |Unsigned(s)| > 0
    ensures r.Some? ==> (r.value < 0 ==> s[0] == '-')
    ensures r.Some? && s[0] != '-' ==> r.value == DigitsValue(Unsigned(s))
    ensures r.Some? && s[0] == '-' ==> r.value == -(DigitsValue(Unsigned(s)) as int)
    ensures r.None? && |s| > 0 && |Unsigned(s)| > 0 && AllDigits(Unsigned(s)) ==>
              if s[0] == '-' then DigitsValue(Unsigned(s)) > -MinInt64
              else DigitsValue(Unsigned(s)) > MaxInt64
  {
    if |s| == 0 then None
    else
      var body := Unsigned(s);
      if |body| == 0 || !AllDigits(body) then None
      else
        var v: int := if s[0] == '-' then -(DigitsValue(body) as int) else DigitsValue(body);
        if MinInt64 <= v <= MaxInt64 then Some(v) else None
  }

  /** The text after an optional leading sign: a suffix of s at most one character shorter. */
  function Unsigned(s: string): (body: string)
    ensures |s| - 1 <= |body| <= |s| && body == s[|s| - |body|..]
  {
    if |s| > 0 && (s[0] == '-' || s[0] == '+') then s[1..] else s
  }

  lemma {:induction false} NatToDigitsCanonical(n: nat)
    ensures CanonicalMagnitude(NatToDigits(n))
    ensures NatToDigits(n)[0] == '0' ==> n == 0
    decreases n
  {
    if n >= 10 {
      NatToDigitsCanonical(n / 10);
      assert NatToDigits(n)[0] == NatToDigits(n / 10)[0];
    }
  }

  lemma NatToDigitsZero(n: nat)
    ensures NatToDigits(n) == "0" <==> n == 0
  {
    NatToDigitsCanonical(n);
    if NatToDigits(n) == "0" {
      assert NatToDigits(n)[0] == '0';
    }
  }

  /** Reading back the digits of n gives n. */
  lemma {:induction false} DigitsRoundTrip(n: nat)
    ensures DigitsValue(NatToDigits(n)) == n
    decreases n
  {
    if n >= 10 {
      DigitsRoundTrip(n / 10);
      var s := NatToDigits(n);
      assert s[..|s| - 1] == NatToDigits(n / 10);
    }
  }

  /** A digit string without a leading zero denotes a positive number. */
  lemma {:induction false} PositiveValue(t: string)
    requires |t| > 0 && AllDigits(t) && t[0] != '0'
    ensures DigitsValue(t) >= 1
    decreases |t|
  {
    if |t| > 1 {
      PositiveValue(t[..|t| - 1]);
    }
  }

  /** Writing out the value of a canonical magnitude gives back the same text. */
  lemma {:induction false} DigitsOfValue(t: string)
    requires CanonicalMagnitude(t)
    ensures NatToDigits(DigitsValue(t)) == t
    decreases |t|
  {
    var last := t[|t| - 1];
    if |t| == 1 {
      assert t == [last];
    } else {
      var init := t[..|t| - 1];
      assert init[0] == t[0];
      DigitsOfValue(init);
      PositiveValue(t);
      var v := DigitsValue(t);
      assert v == DigitsValue(init) * 10 + DigitValue(last);
      assert v / 10 == DigitsValue(init);
      assert v % 10 == DigitValue(last);
      assert t == init + [last];
    }
  }

  /** Parsing what `Itoa` printed gives the number back. */
  lemma RoundTrip(n: int64)
    ensures ParseDecimal(IntToDecimal(n)) == Some(n)
  {
    var s := IntToDecimal(n);
    if n < 0 {
      var m: nat := -(n as int);
      DigitsRoundTrip(m);
      assert s == "-" + NatToDigits(m);
      assert Unsigned(s) == NatToDigits(m);
      assert DigitsValue(Unsigned(s)) == m;
    } else {
      DigitsRoundTrip(n);
      assert s == NatToDigits(n);
      assert Unsigned(s) == s;
    }
  }

  /**
   * `IntToDecimal` is exactly the canonical spelling: a string is the rendering
   * of n if and only if it parses to n and has no '+', no leading zero and no "-0".
   */
  lemma RenderingIsCanonicalParse(n: int64, s: string)
    ensures IntToDecimal(n) == s <==> ParseDecimal(s) == Some(n) && Canonical(s)
  {
    if IntToDecimal(n) == s {
      RoundTrip(n);
    }
    if ParseDecimal(s) == Some(n) && Canonical(s) {
      var body := Unsigned(s);
      if s[0] == '-' {
        assert body == s[1..];
        if body[0] == '0' {
          assert false;
        }
        PositiveValue(body);
        DigitsOfValue(body);
        assert s == "-" + body;
      } else {
        assert body == s;
        DigitsOfValue(body);
      }
    }
  }

  /** Different numbers never render to the same text. */
  lemma RenderingInjective(m: int64, n: int64)
    ensures IntToDecimal(m) == IntToDecimal(n) <==> m == n
  {
    if IntToDecimal(m) == IntToDecimal(n) {
      RoundTrip(m);
      RoundTrip(n);
    }
  }

  /** A leading zero does not change the number a digit string denotes. */
  lemma {:induction false} LeadingZeroValue(t: string)
    requires AllDigits(t)
    ensures AllDigits("0" + t) && DigitsValue("0" + t) == DigitsValue(t)
    decreases |t|
  {
    if |t| > 0 {
      var z := "0" + t;
      assert z[..|z| - 1] == "0" + t[..|t| - 1];
      LeadingZeroValue(t[..|t| - 1]);
    }
  }

  /** `Atoi` accepts leading zeros: "0" before the digits of an unsigned number parses to the same result. */
  lemma ParseLeadingZero(t: string)
    requires |t| > 0 && AllDigits(t)
    ensures ParseDecimal("0" + t) == ParseDecimal(t)
  {
    LeadingZeroValue(t);
    assert Unsigned("0" + t) == "0" + t;
  }

  /** `Atoi` accepts an explicit '+': it parses like the unsigned text. */
  lemma ParsePlusSign(t: string)
    requires |t| > 0 && AllDigits(t)
    ensures ParseDecimal("+" + t) == ParseDecimal(t)
  {
    assert Unsigned("+" + t) == t;
  }

  /** Sample renderings: a two-digit number, a negative one, and zero. */
  lemma RenderingExamples()
    ensures IntToDecimal(42) == "42"
    ensures IntToDecimal(-7) == "-7"
    ensures IntToDecimal(0) == "0"
  {
    assert NatToDigits(42) == NatToDigits(4) + [DigitChar(2)];
  }
}
