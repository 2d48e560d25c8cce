/** Digits in radices 2 to 36 as ECMAScript writes and reads them: '0'-'9'
    then the letters, either case, for the values 10 to 35. */
module Numerals {

  /** The digit value of `ch`, or 36 when `ch` is no digit in any radix. */
  function DigitValue(ch: char): (d: nat)
    ensures d <= 36
    ensures d < 10 <==> '0' <= ch <= '9'
  {
    if '0' <= ch <= '9' then (ch as int) - ('0' as int)
    else if 'a' <= ch <= 'z' then (ch as int) - ('a' as int) + 10
    else if 'A' <= ch <= 'Z' then (ch as int) - ('A' as int) + 10
    else 36
  }

  /** True when `ch` is a digit of the given radix. */
  predicate IsDigit(ch: char, radix: nat)
  {
    DigitValue(ch) < radix
  }

  predicate AllDigits(s: string, radix: nat)
  {
    forall i :: 0 <= i < |s| ==> IsDigit(s[i], radix)
  }

  /** The lower-case character for a digit value. */
  function DigitChar(d: nat): (ch: char)
    requires d < 36
    ensures DigitValue(ch) == d
  {
    if d < 10 then (('0' as int) + d) as char else (('a' as int) + d - 10) as char
  }

  /** The shortest digit string of `n` in `radix` (Number.prototype.toString). */
  function ToRadix(n: nat, radix: nat): (s: string)
    requires 2 <= radix <= 36
    ensures |s| > 0 && AllDigits(s, radix)
    ensures n >= radix ==> s[0] != '0'
    decreases n
  {
    if n < radix then [DigitChar(n)]
    else
      DivMod(n, radix);
      ToRadix(n / radix, radix) + [DigitChar(n % radix)]
  }

  /** Euclidean division facts for one digit step. */
  lemma DivMod(n: nat, radix: nat)
    requires 2 <= radix <= n
    ensures 1 <= n / radix < n
    ensures n % radix < radix
    ensures (n / radix) * radix + n % radix == n
  {
  }

  /** The number a digit string denotes, most significant digit first. */
  function FromDigits(s: string, radix: nat): nat
    requires AllDigits(s, radix)
  {
    if |s| == 0 then 0
    else FromDigits(s[..|s| - 1], radix) * radix + DigitValue(s[|s| - 1])
  }

  /** Reading back the digits written for `n` gives `n`. */
  lemma {:induction false} FromDigitsToRadix(n: nat, radix: nat)
    requires 2 <= radix <= 36
    ensures FromDigits(ToRadix(n, radix), radix) == n
    decreases n
  {
    var s := ToRadix(n, radix);
    if n >= radix {
      DivMod(n, radix);
      var prefix := ToRadix(n / radix, radix);
      assert s[..|s| - 1] == prefix;
      FromDigitsToRadix(n / radix, radix);
    }
  }

  /** Distinct numbers are written differently. */
  lemma ToRadixInjective(n: nat, m: nat, radix: nat)
    requires 2 <= radix <= 36
    requires ToRadix(n, radix) == ToRadix(m, radix)
    ensures n == m
  {
    FromDigitsToRadix(n, radix);
    FromDigitsToRadix(m, radix);
  }
}
