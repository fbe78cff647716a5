/** Python's `int(text)`, `float(text)` and `int(x)` for a float `x`, as the script uses them
    on generation numbers, configuration values and evaluation counts. */
module Numbers {
  import opened Common
  import opened Strings

  predicate IsDigit(c: char) {
    '0' <= c <= '9'
  }

  predicate AllDigits(s: string) {
    forall i :: 0 <= i < |s| ==> IsDigit(s[i])
  }

  /** The value of a string of decimal digits. */
  function DigitsValue(s: string): nat
    requires AllDigits(s)
  {
    if s == [] then 0 else DigitsValue(s[..|s| - 1]) * 10 + (s[|s| - 1] as int - '0' as int)
  }

  /** Python's `int(text)` on a base-10 string: white space around, an optional sign,
      then at least one decimal digit; anything else raises ValueError. */
  function ParseInt(text: string): Option<int> {
    var t := Strip(text);
    if |t| >= 2 && (t[0] == '-' || t[0] == '+') && AllDigits(t[1..]) then
      Some(if t[0] == '-' then -(DigitsValue(t[1..]) as int) else DigitsValue(t[1..]) as int)
    else if |t| >= 1 && AllDigits(t) then Some(DigitsValue(t) as int)
    else None
  }

  function DigitChar(d: nat): char
    requires d < 10
  {
    ('0' as int + d) as char
  }

  /** Python's `str(n)` for a natural number. */
  function NatToString(n: nat): (s: string)
    ensures |s| >= 1 && AllDigits(s)
  {
    if n < 10 then [DigitChar(n)] else NatToString(n / 10) + [DigitChar(n % 10)]
  }

  /** Python's `str(n)` for an integer. */
  function IntToString(n: int): string {
    if n < 0 then "-" + NatToString(-n) else NatToString(n)
  }

  lemma {:induction false} NatToStringValue(n: nat)
    ensures DigitsValue(NatToString(n)) == n
  {
    if n >= 10 {
      NatToStringValue(n / 10);
      var s := NatToString(n);
      assert s[..|s| - 1] == NatToString(n / 10);
    }
  }

  lemma StripNoSpaceAround(s: string)
    requires s != [] && !IsSpace(s[0]) && !IsSpace(s[|s| - 1])
    ensures Strip(s) == s
  {
  }

  /** `int` reads back what `str` writes. */
  lemma ParseIntToString(n: int)
    ensures ParseInt(IntToString(n)) == Some(n)
  {
    var s := IntToString(n);
    if n < 0 {
      NatToStringValue(-n);
      var d := NatToString(-n);
      assert s[1..] == d;
      assert !IsSpace(d[|d| - 1]);
    } else {
      NatToStringValue(n);
    }
    StripNoSpaceAround(s);
  }

  function Pow10(n: nat): (p: nat)
    ensures p >= 1
  {
    if n == 0 then 1 else 10 * Pow10(n - 1)
  }

  /** The value of an unsigned decimal numeral: digits with at most one `.` and
      at least one digit (`"5"`, `"5."`, `".5"`, `"0.25"`). */
  function DecimalValue(body: string): Option<real> {
    var pieces := Split(body, '.');
    if |pieces| == 1 && |body| >= 1 && AllDigits(body) then Some(DigitsValue(body) as real)
    else if |pieces| == 2 && AllDigits(pieces[0]) && AllDigits(pieces[1]) && |pieces[0]| + |pieces[1]| >= 1 then
      Some(DigitsValue(pieces[0]) as real + DigitsValue(pieces[1]) as real / Pow10(|pieces[1]|) as real)
    else None
  }

  /** Python's `float(text)` on a plain decimal numeral with an optional sign. */
  function ParseFloat(text: string): Option<real> {
    var t := Strip(text);
    var signed := |t| >= 1 && (t[0] == '-' || t[0] == '+');
    var body := if signed then t[1..] else t;
    match DecimalValue(body)
    case None => None
    case Some(v) => Some(if signed && t[0] == '-' then -v else v)
  }

  /** Every integer numeral is also a float numeral with the same value. */
  lemma ParseFloatOfInt(n: int)
    ensures ParseFloat(IntToString(n)) == Some(n as real)
  {
    var s := IntToString(n);
    ParseIntToString(n);
    var d := NatToString(if n < 0 then -n else n);
    NatToStringValue(if n < 0 then -n else n);
    assert '.' !in d by {
      forall i | 0 <= i < |d| ensures d[i] != '.' {
        assert IsDigit(d[i]);
      }
    }
    SplitNoSeparator(d, '.');
    if n < 0 {
      assert s[1..] == d;
      assert !IsSpace(d[|d| - 1]);
    }
    StripNoSpaceAround(s);
  }

  /** Python's `int(x)` for a float `x`: rounds toward zero. */
  function Trunc(x: real): (r: int)
    ensures x >= 0.0 ==> r as real <= x < r as real + 1.0
    ensures x < 0.0 ==> r as real - 1.0 < x <= r as real
  {
    if x >= 0.0 then x.Floor else -((-x).Floor)
  }
}
