/** The global `parseInt(string, radix)` of ECMAScript (section 19.2.5 of
    ECMA-262), which `integerCoercion` applies to its input. `None` is the
    NaN result. Numbers are exact integers here. */
module ParseInt {
  import opened Maybe
  import Numerals

  /** WhiteSpace and LineTerminator code points (StrWhiteSpaceChar), which
      parseInt skips at the start of its input. */
  predicate IsStrWhiteSpace(ch: char)
  {
    var c := ch as int;
    // TAB, VT, FF, SP, NBSP, ZWNBSP and the other Zs space separators
    || c == 0x09 || c == 0x0B || c == 0x0C || c == 0x20 || c == 0xA0 || c == 0xFEFF
    || c == 0x1680 || (0x2000 <= c <= 0x200A) || c == 0x202F || c == 0x205F || c == 0x3000
    // LF, CR, LINE SEPARATOR, PARAGRAPH SEPARATOR
    || c == 0x0A || c == 0x0D || c == 0x2028 || c == 0x2029
  }

  /** The input with its leading white space removed. */
  function TrimStart(s: string): (t: string)
    ensures |t| <= |s| && t == s[|s| - |t|..]
    ensures forall i :: 0 <= i < |s| - |t| ==> IsStrWhiteSpace(s[i])
    ensures |t| > 0 ==> !IsStrWhiteSpace(t[0])
  {
    if |s| > 0 && IsStrWhiteSpace(s[0]) then TrimStart(s[1..]) else s
  }

  /** ToInt32: the integer wrapped into the signed 32-bit range. */
  function ToInt32(x: int): (r: int)
    ensures -0x8000_0000 <= r < 0x8000_0000
    ensures (x - r) % 0x1_0000_0000 == 0
  {
    var m := x % 0x1_0000_0000;
    if m >= 0x8000_0000 then m - 0x1_0000_0000 else m
  }

  /** The length of the longest prefix of `s` made of digits of `radix`. */
  function DigitRun(s: string, radix: nat): (k: nat)
    ensures k <= |s|
    ensures Numerals.AllDigits(s[..k], radix)
    ensures k < |s| ==> !Numerals.IsDigit(s[k], radix)
  {
    if |s| == 0 || !Numerals.IsDigit(s[0], radix) then 0
    else
      var k := 1 + DigitRun(s[1..], radix);
      assert s[..k] == [s[0]] + s[1..][..k - 1];
      k
  }

  /** True when the input starts with a hexadecimal prefix "0x" or "0X". */
  predicate HasHexPrefix(s: string)
  {
    |s| >= 2 && s[0] == '0' && (s[1] == 'x' || s[1] == 'X')
  }

  /** parseInt(input, radix); `None` is NaN. The sign of a zero result is
      not kept. */
  function ParseInt(input: string, radix: int): (r: Option<int>)
    ensures ToInt32(radix) != 0 && (ToInt32(radix) < 2 || ToInt32(radix) > 36) ==> r.None?
    ensures |TrimStart(input)| == 0 ==> r.None?
  {
    ParseTrimmed(TrimStart(input), ToInt32(radix))
  }

  /** Steps 4 to 16 of parseInt, after white space is skipped and the
      radix is converted by ToInt32. */
  function ParseTrimmed(trimmed: string, r: int): (result: Option<int>)
    ensures r != 0 && (r < 2 || r > 36) ==> result.None?
    ensures |trimmed| == 0 ==> result.None?
  {
    var negative := |trimmed| > 0 && trimmed[0] == '-';
    var unsigned := if |trimmed| > 0 && (trimmed[0] == '+' || trimmed[0] == '-') then trimmed[1..] else trimmed;
    if r != 0 && (r < 2 || r > 36) then None
    else
      var stripPrefix := r == 0 || r == 16;
      var hex := stripPrefix && HasHexPrefix(unsigned);
      var digits := if hex then unsigned[2..] else unsigned;
      var base := if hex then 16 else if r == 0 then 10 else r;
      match ReadDigits(digits, base)
      case None => None
      case Some(m) => var v: int := m; Some(if negative then -v else v)
  }

  /** The number written by the longest run of digits at the start of
      `s`; `None` when `s` does not start with a digit. */
  function ReadDigits(s: string, radix: nat): (r: Option<nat>)
    ensures r.None? <==> |s| == 0 || !Numerals.IsDigit(s[0], radix)
  {
    var end := DigitRun(s, radix);
    if end == 0 then None else Some(Numerals.FromDigits(s[..end], radix))
  }

  /** ToInt32 leaves a radix that already fits 32 bits alone. */
  lemma ToInt32Small(x: int)
    requires 0 <= x < 0x8000_0000
    ensures ToInt32(x) == x
  {
  }

  /** A digit string followed by something that is not a digit: the
      digit run is exactly the digit string. */
  lemma {:induction false} DigitRunOfDigits(d: string, t: string, radix: nat)
    requires |d| > 0 && Numerals.AllDigits(d, radix)
    requires |t| == 0 || !Numerals.IsDigit(t[0], radix)
    ensures DigitRun(d + t, radix) == |d|
  {
    assert (d + t)[0] == d[0];
    if |d| == 1 {
      assert (d + t)[1..] == t;
    } else {
      assert (d + t)[1..] == d[1..] + t;
      DigitRunOfDigits(d[1..], t, radix);
    }
  }

  /** Reading the digits of `n` followed by a non-digit gives `n`. */
  lemma ReadDigitsOfRadix(n: nat, t: string, radix: nat)
    requires 2 <= radix <= 36
    requires |t| == 0 || !Numerals.IsDigit(t[0], radix)
    ensures ReadDigits(Numerals.ToRadix(n, radix) + t, radix) == Some(n)
  {
    var d := Numerals.ToRadix(n, radix);
    DigitRunOfDigits(d, t, radix);
    assert (d + t)[..|d|] == d;
    Numerals.FromDigitsToRadix(n, radix);
  }

  /** White space in front of the input changes nothing. */
  lemma {:induction false} TrimStartSkipsWhiteSpace(ws: string, s: string)
    requires forall i :: 0 <= i < |ws| ==> IsStrWhiteSpace(ws[i])
    ensures TrimStart(ws + s) == TrimStart(s)
  {
    if |ws| > 0 {
      assert (ws + s)[0] == ws[0];
      assert (ws + s)[1..] == ws[1..] + s;
      TrimStartSkipsWhiteSpace(ws[1..], s);
    } else {
      assert ws + s == s;
    }
  }

  /** A digit is neither white space nor a sign. */
  lemma DigitIsPlain(ch: char)
    requires Numerals.DigitValue(ch) < 36
    ensures !IsStrWhiteSpace(ch) && ch != '+' && ch != '-'
  {
  }

  /** With a radix of 2 to 36 and no prefix to strip, parseInt of a string
      starting with a digit reads its digit run. */
  lemma ParseDigitsFirst(s: string, radix: int)
    requires 2 <= radix <= 36 && |s| > 0 && Numerals.IsDigit(s[0], radix)
    requires radix == 16 ==> !HasHexPrefix(s)
    ensures ReadDigits(s, radix).Some?
    ensures ParseInt(s, radix) == Some(ReadDigits(s, radix).value)
  {
    DigitIsPlain(s[0]);
    assert TrimStart(s) == s;
    ToInt32Small(radix);
  }

  /** As `ParseDigitsFirst`, after a minus sign. */
  lemma ParseMinusDigits(s: string, radix: int)
    requires 2 <= radix <= 36 && |s| > 0 && Numerals.IsDigit(s[0], radix)
    requires radix == 16 ==> !HasHexPrefix(s)
    ensures ReadDigits(s, radix).Some?
    ensures ParseInt("-" + s, radix) == Some(-(ReadDigits(s, radix).value as int))
  {
    var t := "-" + s;
    assert !IsStrWhiteSpace(t[0]);
    assert TrimStart(t) == t;
    assert t[1..] == s;
    ToInt32Small(radix);
  }

  /** The digits of a number never start with a hexadecimal prefix. */
  lemma NoHexPrefix(n: nat, t: string, radix: int)
    requires 2 <= radix <= 36
    requires radix == 16 && n == 0 ==> |t| == 0 || (t[0] != 'x' && t[0] != 'X')
    ensures radix == 16 ==> !HasHexPrefix(Numerals.ToRadix(n, radix) + t)
  {
    var d := Numerals.ToRadix(n, radix);
    var s := d + t;
    if radix == 16 && |s| >= 2 {
      assert s[0] == d[0];
      if |d| >= 2 {
        assert s[1] == d[1];
        assert Numerals.IsDigit(d[1], radix);
      } else {
        assert n < radix;
        assert s[1] == t[0];
      }
    }
  }

  /** parseInt reads back what Number.prototype.toString(radix) writes,
      and stops at the first character that is not a digit of the radix. */
  lemma ParseIntReadsDigits(n: nat, t: string, radix: int)
    requires 2 <= radix <= 36
    requires |t| == 0 || !Numerals.IsDigit(t[0], radix)
    requires radix == 16 && n == 0 ==> |t| == 0 || (t[0] != 'x' && t[0] != 'X')
    ensures ParseInt(Numerals.ToRadix(n, radix) + t, radix) == Some(n)
  {
    var d := Numerals.ToRadix(n, radix);
    assert (d + t)[0] == d[0];
    NoHexPrefix(n, t, radix);
    ParseDigitsFirst(d + t, radix);
    ReadDigitsOfRadix(n, t, radix);
  }

  /** A leading minus sign negates the number read. */
  lemma ParseIntNegative(n: nat, radix: int)
    requires 2 <= radix <= 36
    ensures ParseInt("-" + Numerals.ToRadix(n, radix), radix) == Some(-(n as int))
  {
    var d := Numerals.ToRadix(n, radix);
    NoHexPrefix(n, [], radix);
    assert d + [] == d;
    ParseMinusDigits(d, radix);
    ReadDigitsOfRadix(n, [], radix);
  }

  /** With radix 0 (and so with an absent radix) a "0x" prefix switches
      to hexadecimal. */
  lemma ParseIntHexPrefix(n: nat)
    ensures ParseInt("0x" + Numerals.ToRadix(n, 16), 0) == Some(n)
  {
    var d := Numerals.ToRadix(n, 16);
    var s := "0x" + d;
    assert !IsStrWhiteSpace(s[0]) && s[0] != '+' && s[0] != '-';
    assert TrimStart(s) == s;
    assert HasHexPrefix(s);
    assert s[2..] == d + [];
    ReadDigitsOfRadix(n, [], 16);
    assert ParseTrimmed(s, 0) == Some(n);
  }

  /** A string with no digits at its start is NaN, whatever the radix. */
  lemma ParseIntNoDigits(s: string, radix: int)
    requires |s| > 0 && Numerals.DigitValue(s[0]) == 36
    requires !IsStrWhiteSpace(s[0]) && s[0] != '+' && s[0] != '-'
    ensures ParseInt(s, radix) == None
  {
    assert TrimStart(s) == s;
  }

  /** A string whose first character is no digit of a valid radix is NaN
      in that radix. */
  lemma ParseIntNoLeadingDigit(s: string, radix: int)
    requires 2 <= radix <= 36
    requires |s| > 0 && !Numerals.IsDigit(s[0], radix)
    requires !IsStrWhiteSpace(s[0]) && s[0] != '+' && s[0] != '-'
    ensures ParseInt(s, radix) == None
  {
    assert TrimStart(s) == s;
    ToInt32Small(radix);
    assert s[0] != '0';
  }
}
