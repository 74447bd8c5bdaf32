/** Java's 32-bit `int`: the saturating `(int)` cast of a double, and the
    decimal text that Integer.valueOf reads and Integer.toString writes
    (with String.startsWith, which the command parsers test first). */
module JavaInt {
  import opened GuestScience

  const MinInt32: int := -0x8000_0000
  const MaxInt32: int := 0x7fff_ffff

  predicate InInt32(n: int) { MinInt32 <= n <= MaxInt32 }

  /** `(int) x` for a whole-number double `x`: values beyond the int range
      become its nearest end. */
  function SaturatingCast(x: int): (r: int)
    ensures InInt32(r)
    ensures InInt32(x) ==> r == x
    ensures x < MinInt32 ==> r == MinInt32
    ensures x > MaxInt32 ==> r == MaxInt32
  {
    if x < MinInt32 then MinInt32 else if x > MaxInt32 then MaxInt32 else x
  }

  /** String.startsWith. */
  predicate StartsWith(s: string, prefix: string)
  {
    |prefix| <= |s| && s[..|prefix|] == prefix
  }

  predicate IsDigit(c: char) { '0' <= c <= '9' }

  function DigitValue(c: char): nat
    requires IsDigit(c)
  {
    c as int - '0' as int
  }

  predicate AllDigits(s: string)
  {
    forall i :: 0 <= i < |s| ==> IsDigit(s[i])
  }

  /** The number a string of decimal digits denotes, most significant first. */
  function DigitsValue(s: string): nat
    requires AllDigits(s)
  {
    if s == [] then 0 else DigitsValue(s[..|s| - 1]) * 10 + DigitValue(s[|s| - 1])
  }

  /** Integer.valueOf(s) for radix 10: an optional '-' or '+', then at least
      one digit, and a value that fits in an int; any other text raises
      NumberFormatException, here None. */
  function ParseInt(s: string): (r: Option<int>)
    ensures r.Some? ==> InInt32(r.value)
    ensures s == [] ==> r == None
    ensures AllDigits(s) && s != [] ==> r == if DigitsValue(s) <= MaxInt32 then Some(DigitsValue(s)) else None
  {
    if s == [] then None
    else
      var negative := s[0] == '-';
      var digits := if s[0] == '-' || s[0] == '+' then s[1..] else s;
      if digits == [] || !AllDigits(digits) then None
      else
        var magnitude: int := DigitsValue(digits);
        var v := if negative then -magnitude else magnitude;
        if InInt32(v) then Some(v) else None
  }

  /** The decimal digits of a natural number, without leading zeros ("0" for
      zero). */
  function NatToString(n: nat): (s: string)
    ensures s != [] && AllDigits(s)
    decreases n
  {
    if n < 10 then [('0' as int + n) as char]
    else NatToString(n / 10) + [('0' as int + n % 10) as char]
  }

  /** Integer.toString(n): a '-' before the digits of a negative number. */
  function IntToString(n: int): string
  {
    if n < 0 then "-" + NatToString(-n) else NatToString(n)
  }

  lemma {:induction false} NatToStringValue(n: nat)
    ensures DigitsValue(NatToString(n)) == n
    decreases n
  {
    var s := NatToString(n);
    if n >= 10 {
      NatToStringValue(n / 10);
      assert s[..|s| - 1] == NatToString(n / 10);
    }
  }

  /** Reading back what Integer.toString wrote gives the number again, for
      every int. */
  lemma ParseIntRoundTrip(n: int)
    requires InInt32(n)
    ensures ParseInt(IntToString(n)) == Some(n)
  {
    var s := IntToString(n);
    if n < 0 {
      NatToStringValue(-n);
      assert s[0] == '-' && s[1..] == NatToString(-n);
    } else {
      NatToStringValue(n);
      assert IsDigit(s[0]);
    }
  }

  /** A text with any character other than a digit, apart from a leading
      sign, is refused. */
  lemma ParseIntRejectsNonDigit(s: string, i: nat)
    requires i < |s| && !IsDigit(s[i])
    requires i == 0 ==> s[0] != '-' && s[0] != '+'
    ensures ParseInt(s) == None
  {
    if s[0] == '-' || s[0] == '+' {
      assert s[1..][i - 1] == s[i];
    } else {
      assert !AllDigits(s);
    }
  }
}
