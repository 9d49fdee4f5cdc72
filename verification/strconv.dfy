/** Base-10 integer parsing with the semantics of Go's `strconv.ParseInt(s, 10, 64)`:
    an optional leading `+` or `-`, then one or more ASCII digits and nothing
    else, with the value required to fit a signed 64-bit integer. Any other input
    is an error, modelled as `None`. `FormatInt` is the base-10 rendering used
    as the parser's partner. */
module Strconv {
  import opened Wrappers

  const MinInt64: int := -0x8000_0000_0000_0000
  const MaxInt64: int := 0x7FFF_FFFF_FFFF_FFFF

  predicate InInt64(n: int) {
    MinInt64 <= n <= MaxInt64
  }

  predicate IsDigit(c: char) {
    '0' <= c <= '9'
  }

  predicate AllDigits(s: string) {
    forall i :: 0 <= i < |s| ==> IsDigit(s[i])
  }

  function DigitValue(c: char): (d: nat)
    requires IsDigit(c)
    ensures d < 10
  {
    (c as int) - ('0' as int)
  }

  function DigitChar(d: nat): (c: char)
    requires d < 10
    ensures IsDigit(c) && DigitValue(c) == d
  {
    ('0' as int + d) as char
  }

  /** The value of a string of decimal digits, most significant first. */
  function DecimalValue(s: string): nat
    requires AllDigits(s)
    decreases |s|
  {
    if s == [] then 0 else DecimalValue(s[..|s| - 1]) * 10 + DigitValue(s[|s| - 1])
  }

  /** The digits of an accepted input once its optional sign is removed. */
  function Unsigned(s: string): string {
    if |s| > 0 && (s[0] == '+' || s[0] == '-') then s[1..] else s
  }

  /** `strconv.ParseInt(s, 10, 64)`: `Some(n)` when `s` is a well-formed base-10
      integer whose value `n` fits int64, `None` (a syntax or range error)
      otherwise. */
  function ParseInt64(s: string): (r: Option<int>)
    ensures r.Some? ==> InInt64(r.value)
    ensures r.Some? ==> |Unsigned(s)| > 0 && AllDigits(Unsigned(s))
    ensures r.Some? && |s| > 0 && s[0] == '-' ==> r.value <= 0
    ensures r.Some? && !(|s| > 0 && s[0] == '-') ==> r.value >= 0
  {
    if s == [] then None
    else
      var digits := Unsigned(s);
      if digits == [] || !AllDigits(digits) then None
      else
        var magnitude: int := DecimalValue(digits);
        var n := if s[0] == '-' then -magnitude else magnitude;
        if InInt64(n) then Some(n) else None
  }

  /** Base-10 digits of a natural number, without leading zeros. */
  function FormatNat(n: nat): (s: string)
    ensures |s| > 0 && AllDigits(s)
    ensures DecimalValue(s) == n
    ensures s[0] != '+' && s[0] != '-'
    ensures n > 0 ==> s[0] != '0'
    decreases n
  {
    if n < 10 then [DigitChar(n)]
    else
      var init := FormatNat(n / 10);
      var s := init + [DigitChar(n % 10)];
      assert s[..|s| - 1] == init;
      s
  }

  /** `strconv.FormatInt(n, 10)`: a leading `-` for negative numbers only. */
  function FormatInt(n: int): string {
    if n < 0 then "-" + FormatNat(-n) else FormatNat(n)
  }

  /** Parsing inverts formatting on int64 values and reports a range error for
      every value outside int64. */
  lemma ParseFormatInt(n: int)
    ensures ParseInt64(FormatInt(n)) == if InInt64(n) then Some(n) else None
  {
    var s := FormatInt(n);
    if n < 0 {
      assert Unsigned(s) == FormatNat(-n);
    } else {
      assert Unsigned(s) == FormatNat(n);
    }
  }

  /** The value a sign prefix gives to the magnitude `n`. */
  function Signed(sign: string, n: nat): int {
    if sign == "-" then -(n as int) else n
  }

  /** No sign, `+` or `-`, then any number of leading zeros, then the digits of
      `n`: the zeros do not change the value, and the signed value is accepted
      exactly when it fits int64. */
  lemma ParseSignAndLeadingZeros(sign: string, zeros: nat, n: nat)
    requires sign == "" || sign == "+" || sign == "-"
    ensures ParseInt64(sign + Zeros(zeros) + FormatNat(n))
      == if InInt64(Signed(sign, n)) then Some(Signed(sign, n)) else None
  {
    var digits := Zeros(zeros) + FormatNat(n);
    assert |digits| > 0 && AllDigits(digits) by {
      DigitsAppend(Zeros(zeros), FormatNat(n));
    }
    assert DecimalValue(digits) == n by {
      LeadingZerosValue(zeros, FormatNat(n));
    }
    ParseSigned(sign, digits, n);
    assert sign + Zeros(zeros) + FormatNat(n) == sign + digits;
  }

  /** A sign in front of digits of value `n` parses to the signed value of `n`
      when that fits int64. */
  lemma ParseSigned(sign: string, digits: string, n: nat)
    requires sign == "" || sign == "+" || sign == "-"
    requires |digits| > 0 && AllDigits(digits) && DecimalValue(digits) == n
    ensures ParseInt64(sign + digits)
      == if InInt64(Signed(sign, n)) then Some(Signed(sign, n)) else None
  {
    SignPrefix(sign, digits);
    ParseDigits(sign + digits, digits, sign == "-");
  }

  /** Two digit strings concatenate to a digit string. */
  lemma DigitsAppend(a: string, b: string)
    requires AllDigits(a) && AllDigits(b) && |b| > 0
    ensures |a + b| > 0 && AllDigits(a + b)
  {
    forall i | 0 <= i < |a + b|
      ensures IsDigit((a + b)[i])
    {
      if i < |a| {
        assert (a + b)[i] == a[i];
      } else {
        assert (a + b)[i] == b[i - |a|];
      }
    }
  }

  /** No sign, `+` or `-` in front of a digit string is removed again by
      `Unsigned`, and the input starts with `-` exactly for the `-` sign. */
  lemma SignPrefix(sign: string, digits: string)
    requires sign == "" || sign == "+" || sign == "-"
    requires |digits| > 0 && AllDigits(digits)
    ensures |sign + digits| > 0 && Unsigned(sign + digits) == digits
    ensures (sign + digits)[0] == '-' <==> sign == "-"
  {
    var s := sign + digits;
    if sign == "" {
      assert s == digits;
      assert IsDigit(s[0]);
    } else {
      assert s[1..] == digits;
      assert s[0] == sign[0];
    }
  }

  /** An input whose digits are `digits` and whose sign is `negative` parses to
      the signed value of those digits when it fits int64. */
  lemma ParseDigits(s: string, digits: string, negative: bool)
    requires |digits| > 0 && AllDigits(digits)
    requires Unsigned(s) == digits
    requires |s| > 0 && (s[0] == '-' <==> negative)
    ensures ParseInt64(s)
      == var v := if negative then -(DecimalValue(digits) as int) else DecimalValue(digits);
         if InInt64(v) then Some(v) else None
  {
  }

  function Zeros(k: nat): (s: string)
    ensures |s| == k && AllDigits(s)
  {
    seq(k, _ => '0')
  }

  /** Prefixing zeros to a digit string keeps its value. */
  lemma {:induction false} LeadingZerosValue(k: nat, s: string)
    requires AllDigits(s)
    ensures DecimalValue(Zeros(k) + s) == DecimalValue(s)
    decreases |s|
  {
    var z := Zeros(k) + s;
    if s == [] {
      assert z == Zeros(k);
      ZerosValue(k);
    } else {
      var init := s[..|s| - 1];
      assert z[..|z| - 1] == Zeros(k) + init;
      assert z[|z| - 1] == s[|s| - 1];
      LeadingZerosValue(k, init);
    }
  }

  /** A string of zeros has value zero. */
  lemma {:induction false} ZerosValue(k: nat)
    ensures DecimalValue(Zeros(k)) == 0
  {
    if k > 0 {
      assert Zeros(k)[..k - 1] == Zeros(k - 1);
      ZerosValue(k - 1);
    }
  }

  /** Inputs the sensor API is known to send that are not integers. */
  lemma ParseRejects()
    ensures ParseInt64("") == None
    ensures ParseInt64("-") == None
    ensures ParseInt64("unknown") == None
    ensures ParseInt64("72.5") == None
    ensures ParseInt64(" 72") == None
  {
    assert !IsDigit("unknown"[0]);
    assert !IsDigit("72.5"[2]);
    assert !IsDigit(" 72"[0]);
  }
}
