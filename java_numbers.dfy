/**
 * The parts of java.lang's integer handling that the byte argument relies on:
 * the `byte` range, 32-bit two's-complement truncation, `Byte.parseByte` and
 * `Byte.toString`. Decimal digits are the ASCII digits only.
 */
module JavaNumbers {
  import opened Results

  const ByteMinValue: int := -128
  const ByteMaxValue: int := 127

  /** Java's `byte`. */
  type Byte = b: int | -128 <= b <= 127

  const Int32Min: int := -0x8000_0000
  const Int32Max: int := 0x7FFF_FFFF

  /** Java's `int`. */
  type Int32 = i: int | -0x8000_0000 <= i <= 0x7FFF_FFFF

  /** Truncation of an exact integer to a Java `int` (two's-complement wrap-around). */
  function ToInt32(x: int): (r: Int32)
    ensures (r - x) % 0x1_0000_0000 == 0
    ensures Int32Min <= x <= Int32Max ==> r == x
  {
    var m := x % 0x1_0000_0000;
    if m >= 0x8000_0000 then m - 0x1_0000_0000 else m
  }

  /** Truncation only sees an integer modulo 2^32. */
  lemma ToInt32Shift(x: int, k: int)
    ensures ToInt32(x + 0x1_0000_0000 * k) == ToInt32(x)
  {
    assert (x + 0x1_0000_0000 * k) % 0x1_0000_0000 == x % 0x1_0000_0000;
  }

  /**
   * Truncating an intermediate result before scaling and adding to it gives
   * the same `int` as truncating only the exact final value.
   */
  lemma WrapThenScale(m: int, x: int, c: int)
    ensures ToInt32(m * ToInt32(x) + c) == ToInt32(m * x + c)
  {
    var k := (ToInt32(x) - x) / 0x1_0000_0000;
    assert ToInt32(x) == x + 0x1_0000_0000 * k;
    calc {
      m * ToInt32(x) + c;
      m * (x + 0x1_0000_0000 * k) + c;
      { assert m * (x + 0x1_0000_0000 * k) == m * x + 0x1_0000_0000 * (m * k); }
      m * x + c + 0x1_0000_0000 * (m * k);
    }
    ToInt32Shift(m * x + c, m * k);
  }

  predicate IsAsciiDigit(c: char) {
    '0' <= c <= '9'
  }

  predicate AllAsciiDigits(s: string) {
    forall i :: 0 <= i < |s| ==> IsAsciiDigit(s[i])
  }

  function DigitValue(c: char): (d: nat)
    requires IsAsciiDigit(c)
    ensures d < 10
  {
    c as int - '0' as int
  }

  function DigitChar(d: nat): (c: char)
    requires d < 10
    ensures IsAsciiDigit(c) && DigitValue(c) == d
  {
    ('0' as int + d) as char
  }

  /** The value of a run of decimal digits, most significant digit first. */
  function DigitsValue(s: string): nat
    requires AllAsciiDigits(s)
  {
    if s == [] then 0 else DigitsValue(s[..|s| - 1]) * 10 + DigitValue(s[|s| - 1])
  }

  /** The text `Integer.parseInt` accepts: an optional '-' or '+', then one or more ASCII digits. */
  predicate IsDecimalLiteral(s: string) {
    var digits := if |s| > 0 && (s[0] == '-' || s[0] == '+') then s[1..] else s;
    |digits| > 0 && AllAsciiDigits(digits)
  }

  /**
   * `Integer.parseInt(s, 10)`: a value exactly for the decimal literals, and
   * a negative one only after a '-'. The 32-bit overflow check is not made
   * here: `ParseByte` rejects every such value anyway.
   */
  function ParseDecimal(s: string): (r: Option<int>)
    ensures r.Some? <==> IsDecimalLiteral(s)
    ensures r.Some? && r.value < 0 ==> s[0] == '-'
    ensures r.Some? && s[0] == '-' ==> r.value <= 0
    ensures r.Some? ==> r.value == (if s[0] == '-' then -1 else 1)
                                   * DigitsValue(if s[0] == '-' || s[0] == '+' then s[1..] else s)
  {
    if |s| == 0 then None
    else if s[0] == '-' || s[0] == '+' then
      if |s| > 1 && AllAsciiDigits(s[1..]) then
        Some(if s[0] == '-' then -(DigitsValue(s[1..]) as int) else DigitsValue(s[1..]) as int)
      else None
    else if AllAsciiDigits(s) then Some(DigitsValue(s))
    else None
  }

  /**
   * `Byte.parseByte(s)`: the decimal value of `s` when it is one and lies in
   * the byte range; `None` where the source throws NumberFormatException.
   */
  function ParseByte(s: string): (r: Option<Byte>)
    ensures r.Some? <==> ParseDecimal(s).Some? && ByteMinValue <= ParseDecimal(s).value <= ByteMaxValue
    ensures r.Some? ==> r.value == ParseDecimal(s).value
  {
    match ParseDecimal(s)
    case None => None
    case Some(v) => if ByteMinValue <= v <= ByteMaxValue then Some(v) else None
  }

  /**
   * The canonical decimal form of a natural number: digits only, no leading
   * zero except for 0 itself, and it reads back as `n`.
   */
  function NatToDecimal(n: nat): (s: string)
    ensures |s| > 0 && AllAsciiDigits(s)
    ensures s[0] == '0' ==> n == 0
    ensures DigitsValue(s) == n
    decreases n
  {
    if n < 10 then
      [DigitChar(n)]
    else
      var prefix := NatToDecimal(n / 10);
      var s := prefix + [DigitChar(n % 10)];
      assert s[..|s| - 1] == prefix;
      s
  }

  /**
   * `Byte.toString(n)`, which is `Integer.toString(n)`: a '-' exactly for a
   * negative byte, then the digits of its magnitude with no leading zero.
   */
  function ByteToString(n: Byte): (r: string)
    ensures |r| > 0 && (r[0] == '-' <==> n < 0)
    ensures var digits := if n < 0 then r[1..] else r;
            |digits| > 0 && AllAsciiDigits(digits) && (digits[0] == '0' ==> n == 0)
  {
    if n < 0 then "-" + NatToDecimal(-(n as int)) else NatToDecimal(n)
  }

  /** Reading back the string `Byte.toString` produces yields the same byte. */
  lemma ByteToStringRoundTrip(n: Byte)
    ensures ParseByte(ByteToString(n)) == Some(n)
  {
  }

  /** `Byte.parseByte("200")` fails: the value is out of the byte range. */
  lemma ParseByteRejectsOutOfRange()
    ensures ParseByte("200") == None
    ensures ParseByte("-129") == None
  {
    assert DigitsValue("200") == 200 by {
      assert "200"[..2] == "20" && "20"[..1] == "2" && "2"[..0] == "";
    }
    assert ("-129")[1..] == "129";
    assert DigitsValue("129") == 129 by {
      assert "129"[..2] == "12" && "12"[..1] == "1" && "1"[..0] == "";
    }
  }

  /** Signs and leading zeros are accepted; nothing else but digits is. */
  lemma ParseByteExamples()
    ensures ParseByte("42") == Some(42)
    ensures ParseByte("+007") == Some(7)
    ensures ParseByte("-128") == Some(-128)
    ensures ParseByte("") == None && ParseByte("-") == None && ParseByte("4x") == None
  {
    assert DigitsValue("42") == 42 by {
      assert "42"[..1] == "4" && "4"[..0] == "";
    }
    assert ("+007")[1..] == "007";
    assert DigitsValue("007") == 7 by {
      assert "007"[..2] == "00" && "00"[..1] == "0" && "0"[..0] == "";
    }
    assert ("-128")[1..] == "128";
    assert DigitsValue("128") == 128 by {
      assert "128"[..2] == "12" && "12"[..1] == "1" && "1"[..0] == "";
    }
    assert !IsAsciiDigit("4x"[1]);
  }
}
