/**
 * strconv.ParseInt(s, 10, 64), which the record mapper uses for humidity:
 * an optional sign and one or more decimal digits whose value fits in int64.
 * With an explicit base there is no prefix and no digit separator.
 */
module GoStrconv {
  import opened Wrappers

  const MinInt64: int := -0x8000_0000_0000_0000
  const MaxInt64: int := 0x7FFF_FFFF_FFFF_FFFF

  predicate IsDigit(c: char) {
    '0' <= c <= '9'
  }

  predicate AllDigits(s: string) {
    forall i :: 0 <= i < |s| ==> IsDigit(s[i])
  }

  function DigitValue(c: char): nat
    requires IsDigit(c)
  {
    c as int - '0' as int
  }

  function DigitChar(d: nat): (c: char)
    requires d < 10
    ensures IsDigit(c) && DigitValue(c) == d
  {
    ('0' as int + d) as char
  }

  /** The value of a string of decimal digits, most significant first. */
  function DigitsValue(s: string): nat
    requires AllDigits(s)
  {
    if s == [] then 0 else DigitsValue(s[..|s| - 1]) * 10 + DigitValue(s[|s| - 1])
  }

  /** The digits after an optional leading sign. */
  function Unsigned(s: string): string
  {
    if s != [] && (s[0] == '+' || s[0] == '-') then s[1..] else s
  }

  /** strconv.ParseInt(s, 10, 64); None stands for both its syntax and its range error. */
  function ParseInt(s: string): (r: Option<int>)
    ensures r.Some? ==> && |s| >= 1
                        && (s[0] == '+' || s[0] == '-' ==> |s| >= 2)
                        && forall i :: 0 <= i < |s| && (i > 0 || (s[0] != '+' && s[0] != '-')) ==> IsDigit(s[i])
    ensures r.Some? ==> MinInt64 <= r.value <= MaxInt64
    ensures r.Some? ==> (r.value < 0 ==> s[0] == '-')
  {
    var digits := Unsigned(s);
    if digits == [] || !AllDigits(digits) then None
    else
      var v: int := if s[0] == '-' then -(DigitsValue(digits) as int) else DigitsValue(digits);
      if MinInt64 <= v <= MaxInt64 then Some(v) else None
  }

  /** strconv.FormatUint in base 10, the inverse direction of the digit reading. */
  function FormatNat(n: nat): (s: string)
    ensures s != [] && AllDigits(s)
  {
    if n < 10 then [DigitChar(n)] else FormatNat(n / 10) + [DigitChar(n % 10)]
  }

  /** strconv.FormatInt in base 10. */
  function FormatInt(n: int): string
  {
    if n < 0 then "-" + FormatNat(-n) else FormatNat(n)
  }

  lemma {:induction false} DigitsValueFormat(n: nat)
    ensures DigitsValue(FormatNat(n)) == n
  {
    if n >= 10 {
      var s := FormatNat(n);
      assert s[..|s| - 1] == FormatNat(n / 10);
      DigitsValueFormat(n / 10);
    }
  }

  /** ParseInt reads back every int64 written in decimal. */
  lemma ParseIntFormat(n: int)
    requires MinInt64 <= n <= MaxInt64
    ensures ParseInt(FormatInt(n)) == Some(n)
  {
    var s := FormatInt(n);
    if n < 0 {
      assert Unsigned(s) == FormatNat(-n);
      DigitsValueFormat(-n);
    } else {
      assert Unsigned(s) == FormatNat(n);
      DigitsValueFormat(n);
    }
  }

  /** `z` zero digits. */
  function Zeros(z: nat): (s: string)
    ensures |s| == z && AllDigits(s)
  {
    if z == 0 then [] else Zeros(z - 1) + ['0']
  }

  lemma {:induction false} DigitsValueLeadingZeros(z: nat, s: string)
    requires AllDigits(s)
    ensures AllDigits(Zeros(z) + s) && DigitsValue(Zeros(z) + s) == DigitsValue(s)
    decreases |s| + z
  {
    var t := Zeros(z) + s;
    assert AllDigits(t) by {
      forall i | 0 <= i < |t|
        ensures IsDigit(t[i])
      {
        if i >= z {
          assert t[i] == s[i - z];
        }
      }
    }
    if s != [] {
      assert t[..|t| - 1] == Zeros(z) + s[..|s| - 1];
      DigitsValueLeadingZeros(z, s[..|s| - 1]);
    } else if z > 0 {
      assert t == Zeros(z - 1) + ['0'];
      assert t[..|t| - 1] == Zeros(z - 1) + [];
      DigitsValueLeadingZeros(z - 1, []);
    }
  }

  /**
   * ParseInt reads every optional sign followed by decimal digits, leading
   * zeros included: the value the digits spell, negated after a minus, when
   * it fits in int64, and an error otherwise.
   */
  lemma ParseIntReadsDigits(sign: string, z: nat, n: nat)
    requires sign == "" || sign == "+" || sign == "-"
    ensures sign != "-" ==> ParseInt(sign + (Zeros(z) + FormatNat(n))) == if n <= MaxInt64 then Some(n) else None
    ensures sign == "-" ==> ParseInt(sign + (Zeros(z) + FormatNat(n))) == if n <= -MinInt64 then Some(-(n as int)) else None
  {
    var digits := Zeros(z) + FormatNat(n);
    DigitsValueFormat(n);
    DigitsValueLeadingZeros(z, FormatNat(n));
    SignThenDigits(sign, digits);
    ParseIntSigned(sign + digits);
  }

  lemma SignThenDigits(sign: string, digits: string)
    requires sign == "" || sign == "+" || sign == "-"
    requires digits != [] && AllDigits(digits)
    ensures Unsigned(sign + digits) == digits
    ensures (sign + digits)[0] == '-' <==> sign == "-"
  {
    var s := sign + digits;
    assert IsDigit(digits[0]);
    if sign == "" {
      assert s == digits;
    } else {
      assert s[0] == sign[0];
      assert s[1..] == digits;
    }
  }

  lemma ParseIntSigned(s: string)
    requires Unsigned(s) != [] && AllDigits(Unsigned(s))
    ensures var v := if s[0] == '-' then -(DigitsValue(Unsigned(s)) as int) else DigitsValue(Unsigned(s));
      ParseInt(s) == if MinInt64 <= v <= MaxInt64 then Some(v) else None
  {
  }
}
