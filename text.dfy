/**
 * Bytes, 64-bit integers and their decimal text.
 *
 * ArcScript source text and string values are UTF-8 byte strings; the model
 * keeps them as sequences of bytes, so a string's length is its byte count.
 * Integers are Rust `i64`; `ToDecimal` and `ParseI64` are `i64::to_string`
 * and `str::parse::<i64>`.
 */
module Text {
  import opened Wrappers

  newtype byte = b: int | 0 <= b < 256

  type Bytes = seq<byte>

  const I64_MIN: int := -0x8000_0000_0000_0000
  const I64_MAX: int := 0x7fff_ffff_ffff_ffff

  predicate InI64(n: int) {
    I64_MIN <= n <= I64_MAX
  }

  type I64 = n: int | InI64(n)

  /**
   * The bytes of an ASCII string literal: each character's code, which is
   * below 128 for every literal the model writes.
   */
  function Ascii(s: string): (r: Bytes)
    ensures |r| == |s|
    ensures forall i | 0 <= i < |s| && s[i] < 128 as char :: r[i] as int == s[i] as int
  {
    if s == [] then [] else [(s[0] as int % 256) as byte] + Ascii(s[1..])
  }

  predicate IsDigit(b: byte) {
    '0' as byte <= b <= '9' as byte
  }

  predicate AllDigits(s: Bytes) {
    forall i | 0 <= i < |s| :: IsDigit(s[i])
  }

  function DigitByte(d: nat): (b: byte)
    requires d < 10
    ensures IsDigit(b)
  {
    ('0' as int + d) as byte
  }

  /** The value of a run of decimal digits (most significant first). */
  function DecimalValue(s: Bytes): nat
    requires AllDigits(s)
  {
    if s == [] then 0
    else DecimalValue(s[..|s| - 1]) * 10 + (s[|s| - 1] as int - '0' as int)
  }

  /** Decimal digits of a natural number, without leading zeros. */
  function NatToDecimal(n: nat): (r: Bytes)
    ensures r != [] && AllDigits(r)
    ensures n >= 10 ==> r[0] != '0' as byte
  {
    if n < 10 then [DigitByte(n)] else NatToDecimal(n / 10) + [DigitByte(n % 10)]
  }

  /** `to_string` of an integer: an optional `-` and the digits of its magnitude. */
  function ToDecimal(n: int): Bytes {
    if n < 0 then ['-' as byte] + NatToDecimal(-n) else NatToDecimal(n)
  }

  /**
   * `str::parse::<i64>`: an optional `+` or `-`, then one or more ASCII
   * digits and nothing else, whose value fits in an `i64`.
   */
  function ParseI64(s: Bytes): (r: Option<I64>)
    ensures r.Some? ==> s != []
  {
    if s == [] then None
    else if s[0] == '-' as byte || s[0] == '+' as byte then
      var digits := s[1..];
      if digits == [] || !AllDigits(digits) then None
      else
        var v: int := if s[0] == '-' as byte then 0 - DecimalValue(digits) as int else DecimalValue(digits);
        if InI64(v) then Some(v) else None
    else if !AllDigits(s) then None
    else
      var v := DecimalValue(s);
      if InI64(v) then Some(v) else None
  }

  lemma {:induction false} DecimalRoundTrip(n: nat)
    ensures DecimalValue(NatToDecimal(n)) == n
  {
    if n >= 10 {
      var ds := NatToDecimal(n);
      assert ds[..|ds| - 1] == NatToDecimal(n / 10);
      DecimalRoundTrip(n / 10);
    }
  }

  /** Printing an `i64` and parsing the text back gives the same number. */
  lemma ParseI64RoundTrip(n: I64)
    ensures ParseI64(ToDecimal(n)) == Some(n)
  {
    if n < 0 {
      var s := ToDecimal(n);
      assert s[1..] == NatToDecimal(-(n as int));
      DecimalRoundTrip(-(n as int));
    } else {
      DecimalRoundTrip(n);
      var s := NatToDecimal(n);
      assert IsDigit(s[0]);
    }
  }
}
