/** `int.TryParse` over a string, with its 32-bit range, and the decimal
    rendering `int.ToString()` that it inverts. */
module Int32Text {
  import opened Wrappers

  const MinInt32: int := -0x8000_0000
  const MaxInt32: int := 0x7FFF_FFFF

  /** The C# `int` type. */
  type Int32 = x: int | MinInt32 <= x <= MaxInt32

  /** The white space `int.TryParse` skips around a number: U+0009..U+000D and U+0020. */
  predicate IsNumberWhite(c: char) {
    c == ' ' || ('\t' <= c <= '\r')
  }

  predicate IsDigit(c: char) {
    '0' <= c <= '9'
  }

  predicate AllDigits(s: string) {
    forall i :: 0 <= i < |s| ==> IsDigit(s[i])
  }

  /** The value of a string of decimal digits, most significant first. */
  function DigitsValue(ds: string): nat
    requires AllDigits(ds)
    decreases |ds|
  {
    if ds == [] then 0
    else DigitsValue(ds[..|ds| - 1]) * 10 + (ds[|ds| - 1] as int - '0' as int)
  }

  function StripNumberWhite(s: string): string
    decreases |s|
  {
    if s != [] && IsNumberWhite(s[0]) then StripNumberWhite(s[1..])
    else if s != [] && IsNumberWhite(s[|s| - 1]) then StripNumberWhite(s[..|s| - 1])
    else s
  }

  /** `int.TryParse(s, out v)` with the integer number style: optional white space
      around, an optional leading sign, one or more decimal digits, and a value
      that fits in 32 bits. `None` is the `false` return (a null string included). */
  function TryParseInt32(s: Option<string>): Option<Int32>
  {
    if s.None? then None
    else
      var t := StripNumberWhite(s.value);
      var signed := t != [] && (t[0] == '-' || t[0] == '+');
      var digits := if signed then t[1..] else t;
      if digits == [] || !AllDigits(digits) then None
      else
        var v: int := if signed && t[0] == '-' then -(DigitsValue(digits) as int) else DigitsValue(digits);
        if MinInt32 <= v <= MaxInt32 then Some(v) else None
  }

  function DigitChar(d: nat): (c: char)
    requires d < 10
  {
    ('0' as int + d) as char
  }

  /** The shortest decimal rendering of a natural number. */
  function DecimalDigits(n: nat): (ds: string)
    ensures ds != [] && AllDigits(ds)
    ensures IsDigit(ds[0]) && IsDigit(ds[|ds| - 1])
    decreases n
  {
    if n < 10 then [DigitChar(n)] else DecimalDigits(n / 10) + [DigitChar(n % 10)]
  }

  /** `n.ToString()` in the invariant culture. */
  function FormatInt32(n: Int32): string
  {
    if n < 0 then "-" + DecimalDigits(-(n as int)) else DecimalDigits(n)
  }

  lemma {:induction false} DigitsValueOfDecimalDigits(n: nat)
    ensures DigitsValue(DecimalDigits(n)) == n
    decreases n
  {
    if n >= 10 {
      var ds := DecimalDigits(n);
      assert ds[..|ds| - 1] == DecimalDigits(n / 10);
      DigitsValueOfDecimalDigits(n / 10);
    }
  }

  /** `int.TryParse` reads back every value that `ToString` writes. */
  lemma ParseFormatRoundTrip(n: Int32)
    ensures TryParseInt32(Some(FormatInt32(n))) == Some(n)
  {
    var s := FormatInt32(n);
    assert s != [] && !IsNumberWhite(s[0]) && !IsNumberWhite(s[|s| - 1]);
    assert StripNumberWhite(s) == s;
    if n < 0 {
      var m: nat := -(n as int);
      assert s[0] == '-' && s[1..] == DecimalDigits(m);
      DigitsValueOfDecimalDigits(m);
    } else {
      assert IsDigit(s[0]);
      DigitsValueOfDecimalDigits(n);
    }
  }
}
