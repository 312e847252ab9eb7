/** Decimal text to numbers and back, as `Integer.parseInt`, `Long.parseLong`,
    `Boolean.valueOf` and `Integer.toString` do it for ASCII digits. */
module Numbers {
  import opened Wrappers
  import Text

  const IntMin: int := -0x8000_0000
  const IntMax: int := 0x7fff_ffff
  const LongMin: int := -0x8000_0000_0000_0000
  const LongMax: int := 0x7fff_ffff_ffff_ffff

  predicate IsDigit(c: char)
  {
    '0' <= c <= '9'
  }

  predicate AllDigits(s: string)
  {
    forall i :: 0 <= i < |s| ==> IsDigit(s[i])
  }

  /** The number the digits spell, most significant first. */
  function DigitsValue(s: string): nat
    requires AllDigits(s)
    decreases |s|
  {
    if |s| == 0 then 0 else DigitsValue(s[..|s| - 1]) * 10 + (s[|s| - 1] as int - '0' as int)
  }

  function DigitChar(d: nat): (c: char)
    requires d < 10
    ensures IsDigit(c)
  {
    ('0' as int + d) as char
  }

  function Pow10(n: nat): (p: nat)
    ensures p >= 1
  {
    if n == 0 then 1 else 10 * Pow10(n - 1)
  }

  /** `Integer.parseInt(s)` (lo, hi = the int range) and `Long.parseLong(s)` (the long range):
      an optional sign, at least one digit, nothing else, and a value the type can hold.
      None stands for the NumberFormatException. */
  function ParseDecimal(s: string, lo: int, hi: int): (r: Option<int>)
    ensures r.Some? ==> lo <= r.value <= hi
    ensures r.Some? ==> |s| >= 1 && AllDigits(s[1..])
    ensures r.Some? ==> IsDigit(s[0]) || (|s| >= 2 && (s[0] == '-' || s[0] == '+'))
  {
    if |s| == 0 then None
    else
      var digits := if s[0] == '-' || s[0] == '+' then s[1..] else s;
      if |digits| == 0 || !AllDigits(digits) then None
      else
        var v: int := if s[0] == '-' then -(DigitsValue(digits) as int) else DigitsValue(digits);
        if lo <= v <= hi then Some(v) else None
  }

  /** Every text of the accepted shape, an optional sign and then at least one digit, leading
      zeros allowed, reads as the signed number its digits spell, and is refused exactly when
      that number lies outside [lo, hi]. With the second ensures of `ParseDecimal`, which says
      every accepted text has this shape, this describes the parser completely. */
  lemma ParseDecimalSigned(sign: string, digits: string, lo: int, hi: int)
    requires sign == "" || sign == "-" || sign == "+"
    requires digits != [] && AllDigits(digits)
    ensures var v: int := if sign == "-" then -(DigitsValue(digits) as int) else DigitsValue(digits);
            ParseDecimal(sign + digits, lo, hi) == if lo <= v <= hi then Some(v) else None
  {
    if sign != "" {
      assert (sign + digits)[1..] == digits;
    } else {
      assert sign + digits == digits;
    }
  }

  function ParseInt(s: string): Option<int>
  {
    ParseDecimal(s, IntMin, IntMax)
  }

  function ParseLong(s: string): Option<int>
  {
    ParseDecimal(s, LongMin, LongMax)
  }

  /** `Boolean.valueOf(s)`: true exactly for "true" in any case; every other text is false. */
  function ParseBoolean(s: string): (b: bool)
    ensures b <==> |s| == 4 && Text.Lower(s[0]) == 't' && Text.Lower(s[1]) == 'r'
                            && Text.Lower(s[2]) == 'u' && Text.Lower(s[3]) == 'e'
  {
    Text.EqualsIgnoreCase(s, "true")
  }

  /** `Integer.toString(n)` for a non-negative n: its digits without leading zeros. */
  function NatDecimal(n: nat): (r: string)
    ensures |r| >= 1 && AllDigits(r)
    decreases n
  {
    if n < 10 then [DigitChar(n)] else NatDecimal(n / 10) + [DigitChar(n % 10)]
  }

  /** `Integer.toString(n)` / `Long.toString(n)`. */
  function Decimal(n: int): string
  {
    if n < 0 then "-" + NatDecimal(-n) else NatDecimal(n)
  }

  /** n written with exactly `width` digits, zero-padded on the left (as Joda prints a
      fixed-width field). */
  function Padded(n: nat, width: nat): (r: string)
    ensures |r| == width && AllDigits(r)
  {
    if width == 0 then [] else Padded(n / 10, width - 1) + [DigitChar(n % 10)]
  }

  lemma {:induction false} NatDecimalValue(n: nat)
    ensures DigitsValue(NatDecimal(n)) == n
    decreases n
  {
    if n >= 10 {
      NatDecimalValue(n / 10);
      var s := NatDecimal(n);
      assert s[..|s| - 1] == NatDecimal(n / 10);
    }
  }

  /** Reading a zero-padded field gives back the number, provided it fits the width. */
  lemma {:induction false} PaddedValue(n: nat, width: nat)
    requires n < Pow10(width)
    ensures DigitsValue(Padded(n, width)) == n
  {
    if width > 0 {
      PaddedValue(n / 10, width - 1);
      var s := Padded(n, width);
      assert s[..|s| - 1] == Padded(n / 10, width - 1);
    }
  }

  /** A digit string is the zero-padded printing, at its own width, of the number it spells. */
  lemma {:induction false} DigitsPadded(s: string)
    requires AllDigits(s)
    ensures Padded(DigitsValue(s), |s|) == s
    decreases |s|
  {
    if |s| > 0 {
      var n := |s| - 1;
      DigitsPadded(s[..n]);
      assert s == s[..n] + [s[n]];
    }
  }

  /** parseInt/parseLong read back whatever toString wrote, for every value in range. */
  lemma {:induction false} DecimalRoundTrip(n: int, lo: int, hi: int)
    requires lo <= n <= hi
    ensures ParseDecimal(Decimal(n), lo, hi) == Some(n)
  {
    if n < 0 {
      NatDecimalValue(-n);
      assert ("-" + NatDecimal(-n))[1..] == NatDecimal(-n);
    } else {
      NatDecimalValue(n);
    }
  }
}
