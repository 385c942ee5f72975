/**
 * The two Python builtins the wizard uses on the step number: `int(text)`,
 * which raises ValueError on text that is not a decimal integer, and
 * `str(n)`, which writes an integer in decimal.
 */
module PyInt {
  import opened Wrappers

  /** The ASCII whitespace that `int()` ignores around its argument. */
  predicate IsSpace(c: char) {
    c == ' ' || c == '\t' || c == '\n' || c == '\U{B}' || c == '\U{C}' || c == '\r'
  }

  predicate IsDigit(c: char) {
    '0' <= c <= '9'
  }

  function DigitValue(c: char): (d: nat)
    requires IsDigit(c)
    ensures d < 10
  {
    c as int - '0' as int
  }

  function DigitChar(d: nat): (c: char)
    requires d < 10
    ensures IsDigit(c) && DigitValue(c) == d
  {
    ('0' as int + d) as char
  }

  /** `s` with its leading whitespace removed. */
  function TrimStart(s: string): string
  {
    if |s| > 0 && IsSpace(s[0]) then TrimStart(s[1..]) else s
  }

  /** `s` with its trailing whitespace removed. */
  function TrimEnd(s: string): string
  {
    if |s| > 0 && IsSpace(s[|s| - 1]) then TrimEnd(s[..|s| - 1]) else s
  }

  function Strip(s: string): string {
    TrimEnd(TrimStart(s))
  }

  /**
   * The value of a run of decimal digits in which single underscores may
   * separate two digits ("1_000"), as `int()` accepts it; None for anything
   * else, the empty text included.
   */
  function ParseDigits(t: string): Option<nat>
    decreases |t|
  {
    if |t| == 0 || !IsDigit(t[|t| - 1]) then None
    else if |t| == 1 then Some(DigitValue(t[0]))
    else
      var init := if t[|t| - 2] == '_' then t[..|t| - 2] else t[..|t| - 1];
      match ParseDigits(init)
      case None => None
      case Some(v) => Some(10 * v + DigitValue(t[|t| - 1]))
  }

  /** Python's `int(text)` for base 10: None where it raises ValueError. */
  function ParseInt(text: string): Option<int> {
    var t := Strip(text);
    if |t| > 0 && (t[0] == '+' || t[0] == '-') then
      match ParseDigits(t[1..])
      case None => None
      case Some(v) => var n: int := if t[0] == '-' then -(v as int) else v; Some(n)
    else
      match ParseDigits(t)
      case None => None
      case Some(v) => var n: int := v; Some(n)
  }

  /** The decimal digits of `n`, without leading zeros. */
  function NatToString(n: nat): (s: string)
    ensures |s| >= 1 && (n >= 10 <==> |s| >= 2)
    ensures forall i :: 0 <= i < |s| ==> IsDigit(s[i])
    ensures n == 0 || s[0] != '0'
    decreases n
  {
    if n < 10 then [DigitChar(n)] else NatToString(n / 10) + [DigitChar(n % 10)]
  }

  /** Python's `str(n)`: a minus sign for negative numbers, then the digits. */
  function IntToString(n: int): string {
    if n < 0 then "-" + NatToString(-n) else NatToString(n)
  }

  lemma {:induction false} ParseNatToString(n: nat)
    ensures ParseDigits(NatToString(n)) == Some(n)
    decreases n
  {
    if n >= 10 {
      var s := NatToString(n);
      var init := NatToString(n / 10);
      assert s == init + [DigitChar(n % 10)];
      assert s[|s| - 2] == init[|init| - 1];
      assert s[..|s| - 1] == init;
      ParseNatToString(n / 10);
    }
  }

  lemma StripUnchanged(s: string)
    requires |s| > 0 && !IsSpace(s[0]) && !IsSpace(s[|s| - 1])
    ensures Strip(s) == s
  {
    assert TrimStart(s) == s;
  }

  /** `int()` reads back what `str()` writes. */
  lemma {:induction false} ParseIntToString(n: int)
    ensures ParseInt(IntToString(n)) == Some(n)
  {
    var s := IntToString(n);
    var digits := NatToString(if n < 0 then -n else n);
    ParseNatToString(if n < 0 then -n else n);
    assert IsDigit(digits[|digits| - 1]);
    if n < 0 {
      assert s == "-" + digits && s[1..] == digits;
    } else {
      assert s == digits && IsDigit(s[0]);
    }
    StripUnchanged(s);
  }

  /** The text `str(n)` is "6" for the number 6 and for no other. */
  lemma IntToStringIsSix(n: int)
    ensures IntToString(n) == "6" <==> n == 6
  {
    if n < 0 {
      assert IntToString(n)[0] == '-';
    } else if n >= 10 {
      assert |IntToString(n)| >= 2;
    } else if IntToString(n) == "6" {
      assert DigitValue(IntToString(n)[0]) == n;
    }
  }
}
