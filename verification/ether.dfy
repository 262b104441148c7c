/** The two ethers (v5) string conversions the pages rely on: `formatEther`,
    which turns a wei amount into the decimal text the pages display, and the
    string grammar `BigNumber.from` accepts, which every `formatEther` call
    applies to its argument first. */
module Ether {
  const Decimals: nat := 18
  const WeiPerEther: nat := 1_000_000_000_000_000_000

  predicate IsDigit(c: char) {
    '0' <= c <= '9'
  }

  predicate IsHexDigit(c: char) {
    IsDigit(c) || 'a' <= c <= 'f' || 'A' <= c <= 'F'
  }

  predicate AllDigits(s: string) {
    |s| > 0 && forall i :: 0 <= i < |s| ==> IsDigit(s[i])
  }

  predicate AllHexDigits(s: string) {
    |s| > 0 && forall i :: 0 <= i < |s| ==> IsHexDigit(s[i])
  }

  function DigitChar(d: nat): (c: char)
    requires d < 10
    ensures IsDigit(c)
  {
    (('0' as int) + d) as char
  }

  /** `n.toString()` for a natural number. */
  function Decimal(n: nat): (s: string)
    ensures AllDigits(s)
    ensures n < 10 <==> |s| == 1
  {
    if n < 10 then [DigitChar(n)] else Decimal(n / 10) + [DigitChar(n % 10)]
  }

  /** `n` zeros. */
  function Zeros(n: nat): (r: string)
    ensures |r| == n && forall i :: 0 <= i < n ==> r[i] == '0'
  {
    seq(n, _ => '0')
  }

  /** Prepends zeros until the text is `width` long. */
  function PadLeft(s: string, width: nat): (r: string)
    ensures |r| == if |s| < width then width else |s|
    ensures r[|r| - |s|..] == s
    ensures forall i :: 0 <= i < |r| - |s| ==> r[i] == '0'
  {
    if |s| < width then Zeros(width - |s|) + s else s
  }

  /** Drops trailing zeros. */
  function TrimZeros(s: string): (r: string)
    ensures |r| <= |s| && r == s[..|r|]
    ensures |r| > 0 ==> r[|r| - 1] != '0'
    ensures forall i :: |r| <= i < |s| ==> s[i] == '0'
  {
    if |s| > 0 && s[|s| - 1] == '0' then TrimZeros(s[..|s| - 1]) else s
  }

  /** The fraction digits `formatFixed` keeps: the 18-digit padded remainder
      up to its last non-zero digit, or "0" when it is all zeros. */
  function Fraction(remainder: nat): (r: string)
    ensures AllDigits(r)
  {
    var digits := PadLeft(Decimal(remainder), Decimals);
    var kept := TrimZeros(digits);
    if kept == "" then "0" else kept
  }

  /** `ethers.utils.formatEther(wei)` for a non-negative amount. */
  function FormatEther(wei: nat): string {
    Decimal(wei / WeiPerEther) + "." + Fraction(wei % WeiPerEther)
  }

  /** The strings `BigNumber.from` accepts: `/^-?0x[0-9a-f]+$/i` or
      `/^-?[0-9]+$/`. Anything else throws "invalid BigNumber string". */
  predicate BigNumberString(s: string) {
    || AllDigits(s)
    || (|s| > 1 && s[0] == '-' && AllDigits(s[1..]))
    || (|s| > 2 && s[0] == '0' && (s[1] == 'x' || s[1] == 'X') && AllHexDigits(s[2..]))
    || (|s| > 3 && s[0] == '-' && s[1] == '0' && (s[2] == 'x' || s[2] == 'X') && AllHexDigits(s[3..]))
  }

  /** Digits, a point, digits: never a `BigNumber` string. */
  lemma PointedIsNotBigNumber(whole: string, frac: string)
    requires AllDigits(whole) && AllDigits(frac)
    ensures !BigNumberString(whole + "." + frac)
  {
    var s := whole + "." + frac;
    assert s[|whole|] == '.';
    assert !IsDigit(s[|whole|]) && !IsHexDigit(s[|whole|]);
    assert s[0] == whole[0];
    assert s[1] == '.' || s[1] == whole[1];
  }

  /** Text that `formatEther` produced is never accepted by `BigNumber.from`:
      it always carries a decimal point. */
  lemma FormattedIsNotBigNumber(wei: nat)
    ensures !BigNumberString(FormatEther(wei))
  {
    PointedIsNotBigNumber(Decimal(wei / WeiPerEther), Fraction(wei % WeiPerEther));
  }

  lemma {:induction false} AllZerosTrimAway(s: string)
    requires forall i :: 0 <= i < |s| ==> s[i] == '0'
    ensures TrimZeros(s) == ""
  {
    if |s| > 0 {
      AllZerosTrimAway(s[..|s| - 1]);
    }
  }

  /** Five ether is displayed as "5.0". */
  lemma FiveEther()
    ensures FormatEther(5 * WeiPerEther) == "5.0"
  {
    var wei := 5 * WeiPerEther;
    assert wei / WeiPerEther == 5 && wei % WeiPerEther == 0;
    assert Decimal(5) == "5";
    assert Decimal(0) == "0";
    var padded := PadLeft("0", Decimals);
    assert padded == Zeros(17) + "0";
    assert forall i :: 0 <= i < |padded| ==> padded[i] == '0';
    AllZerosTrimAway(padded);
    assert Fraction(0) == "0";
  }
}
