/**
 * Decimal integers as the codec reads and writes them: `strconv.Atoi` for
 * reading (an optional sign and at least one ASCII digit) and
 * `fmt.Sprintf("%d")` for writing. Integers are unbounded here, so 64-bit
 * overflow is not modelled.
 */
module Decimal {
  import opened Wrappers

  predicate IsDigit(c: char) {
    '0' <= c <= '9'
  }

  /** One or more ASCII digits and nothing else. */
  predicate IsNumeral(s: string) {
    |s| > 0 && forall i :: 0 <= i < |s| ==> IsDigit(s[i])
  }

  /** The value of a digit string, most significant digit first. */
  function NumeralValue(s: string): nat
    requires forall i :: 0 <= i < |s| ==> IsDigit(s[i])
  {
    if s == [] then 0
    else
      assert IsDigit(s[|s| - 1]);
      10 * NumeralValue(s[..|s| - 1]) + (s[|s| - 1] as int - '0' as int)
  }

  function DigitChar(d: nat): char
    requires d < 10
  {
    ('0' as int + d) as char
  }

  /** The shortest digit string of `n`: no leading zero unless it is "0". */
  function Numeral(n: nat): (s: string)
    ensures IsNumeral(s)
    ensures NumeralValue(s) == n
    ensures s[0] != '0' || s == "0"
  {
    if n < 10 then [DigitChar(n)]
    else
      var prefix := Numeral(n / 10);
      assert (prefix + [DigitChar(n % 10)])[..|prefix|] == prefix;
      prefix + [DigitChar(n % 10)]
  }

  /**
   * `strconv.Atoi`: an optional `+` or `-` followed by one or more digits.
   * A plain digit string reads as its value, and only a leading minus gives
   * a negative number.
   */
  function ParseInt(s: string): (v: Option<int>)
    ensures IsNumeral(s) ==> v == Some(NumeralValue(s))
    ensures |s| > 1 && (s[0] == '+' || s[0] == '-') && IsNumeral(s[1..]) ==>
              var m: int := NumeralValue(s[1..]); v == Some(if s[0] == '-' then -m else m)
    ensures v.Some? ==> IsNumeral(s) || (|s| > 1 && (s[0] == '+' || s[0] == '-') && IsNumeral(s[1..]))
    ensures v.Some? ==> |s| > 0 && (IsDigit(s[0]) || s[0] == '+' || s[0] == '-')
    ensures v.Some? ==> forall i :: 0 < i < |s| ==> IsDigit(s[i])
    ensures v.Some? && v.value < 0 ==> s[0] == '-'
  {
    if |s| > 0 && (s[0] == '+' || s[0] == '-') then
      if IsNumeral(s[1..]) then
        var magnitude: int := NumeralValue(s[1..]);
        Some(if s[0] == '-' then -magnitude else magnitude)
      else None
    else if IsNumeral(s) then Some(NumeralValue(s))
    else None
  }

  /**
   * `fmt.Sprintf("%d", n)`. The text reads back as `n`; it is the digits of
   * `|n|` with no leading zero (unless `n` is 0), preceded by a minus sign
   * exactly when `n` is negative, and never by a plus sign.
   */
  function FormatInt(n: int): (s: string)
    ensures ParseInt(s) == Some(n)
    ensures forall i :: 0 <= i < |s| ==> IsDigit(s[i]) || s[i] == '-'
    ensures n >= 0 ==> IsNumeral(s) && (s[0] != '0' || |s| == 1)
    ensures n < 0 ==> |s| > 1 && s[0] == '-' && IsNumeral(s[1..]) && s[1] != '0'
  {
    if n < 0 then
      var digits := Numeral(-n);
      assert ("-" + digits)[1..] == digits;
      "-" + digits
    else Numeral(n)
  }

  /** A digit string that starts with a non-zero digit has a positive value. */
  lemma {:induction false} LeadingDigitPositive(s: string)
    requires IsNumeral(s) && s[0] != '0'
    ensures NumeralValue(s) > 0
    decreases |s|
  {
    if |s| > 1 {
      var prefix := s[..|s| - 1];
      assert prefix[0] == s[0];
      LeadingDigitPositive(prefix);
    }
  }

  /**
   * The other direction of the round trip: a canonical digit string (no
   * leading zero) is the text `fmt.Sprintf("%d")` prints for its value.
   */
  lemma {:induction false} CanonicalNumeral(s: string)
    requires IsNumeral(s) && (s[0] != '0' || |s| == 1)
    ensures ParseInt(s) == Some(NumeralValue(s))
    ensures FormatInt(NumeralValue(s)) == s
    decreases |s|
  {
    var n := NumeralValue(s);
    var d := s[|s| - 1] as int - '0' as int;
    if |s| == 1 {
      assert s[..|s| - 1] == [] && NumeralValue([]) == 0;
      assert n == d;
      assert [DigitChar(d)] == s;
    } else {
      var prefix := s[..|s| - 1];
      assert prefix[0] == s[0];
      CanonicalNumeral(prefix);
      LeadingDigitPositive(prefix);
      assert n == 10 * NumeralValue(prefix) + d;
      assert n / 10 == NumeralValue(prefix) && n % 10 == d;
      assert prefix + [DigitChar(d)] == s;
    }
  }
}
