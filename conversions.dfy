/**
  Engineering-unit conversions layered over the masked read and write:
  the charge-current code of register 0x04 (bits 6:0) and the battery
  undervoltage-lockout table of register 0x06 (bits 5:3). Milliamps and
  decivolts are integers; the C integer rules the driver relies on (promotion
  to `int`, division truncating toward zero, conversion to `uint8_t` modulo
  256) are written out.
 */
module Conversions {
  import opened Header
  import opened Fields

  datatype Option<T> = None | Some(value: T)

  /** C's `/` on `int` for a positive divisor: the quotient truncated toward zero. */
  function TruncDiv(a: int, b: int): (q: int)
    requires b > 0
    ensures a >= 0 ==> q * b <= a < q * b + b
    ensures a < 0 ==> q * b - b < a <= q * b
  {
    if a >= 0 then a / b else -((-a) / b)
  }

  /** The byte whose unsigned value is `n`. */
  function ByteOf(n: nat): (b: bv8)
    requires n < 256
    ensures b as int == n
  {
    if n == 0 then 0 else ByteOf(n - 1) + 1
  }

  /** Conversion of an `int` to `uint8_t`: the value modulo 256. */
  function ToUint8(x: int): (b: bv8)
    ensures b as int == x % 256
  {
    ByteOf(x % 256)
  }

  /** `get_ichg`: the charge current in mA that the masked ICHG field decodes to,
      1 mA steps from 5 mA for codes up to 31, 10 mA steps above; 0 on the sentinel. */
  function DecodeIchg(field: bv8): (milliamps: Uint16)
    ensures milliamps == 0 <==> field == I2cError
    ensures field != I2cError && field as int < 128 ==> 5 <= milliamps <= 1000
  {
    if field == I2cError then 0
    else if field as int > 31 then 40 + (field as int - 31) * 10
    else field as int + 5
  }

  /** The number `set_ichg` computes for a request, before the conversion to a byte. */
  function IchgCodeNumber(value: Uint16): (n: int)
    ensures 5 <= value <= 1000 ==> 0 <= n < 128
    ensures value < 5 ==> n < 0
  {
    if value > 35 then 32 + TruncDiv(value - 50, 10) else value - 5
  }

  /** `set_ichg` as written: `None` when the request is refused before any bus
      access, otherwise the code handed to the masked write of field 6:0. */
  function IchgCodeAsWritten(value: Uint16): (r: Option<bv8>)
    ensures r.None? <==> value > 1000
  {
    if value <= 1000 then Some(ToUint8(IchgCodeNumber(value))) else None
  }

  /** `set_ichg` with the missing lower bound: a request below the 5 mA the field
      can express is refused like one above 1000 mA. */
  function IchgCode(value: Uint16): (r: Option<bv8>)
    ensures r.None? <==> value < 5 || value > 1000
    ensures r.Some? ==> r.value & Bitmask6_0 == r.value
    ensures r.Some? ==> r == IchgCodeAsWritten(value)
  {
    if value < 5 || value > 1000 then None
    else
      IchgCodeValue(value);
      LowSevenBits(IchgCodeAsWritten(value).value);
      IchgCodeAsWritten(value)
  }

  /** For an accepted request the code's value is the number itself, 0..127,
      with no wrap-around. */
  lemma IchgCodeValue(value: Uint16)
    requires 5 <= value <= 1000
    ensures 0 <= IchgCodeNumber(value) < 128
    ensures IchgCodeAsWritten(value).value as int == IchgCodeNumber(value)
  {
    var n := IchgCodeNumber(value);
    if value > 35 {
      var q := TruncDiv(value - 50, 10);
      assert -1 <= q <= 95;
    }
    assert 0 <= n < 128;
    assert n % 256 == n;
  }

  /** The low seven bits of a byte are its value modulo 128. */
  lemma LowSevenBits(b: bv8)
    ensures (b & Bitmask6_0) as int == b as int % 128
    ensures b as int < 128 ==> b & Bitmask6_0 == b
  {
  }

  /** What the field decodes to: 5..36 mA for codes 0..31, then multiples of 10 from
      50 to 1000 mA for codes 32..127; never 0, so 0 means the sentinel. */
  lemma DecodeIchgRange(b: bv8)
    ensures var field := b & Bitmask6_0;
      && (field as int <= 31 ==> 5 <= DecodeIchg(field) <= 36 && DecodeIchg(field) == field as int + 5)
      && (field as int > 31 ==> 50 <= DecodeIchg(field) <= 1000 && DecodeIchg(field) % 10 == 0)
    ensures DecodeIchg(I2cError) == 0
  {
    LowSevenBits(b);
  }

  /** Every current the field can express exactly is recovered after encoding and
      masking: 5..36 mA in 1 mA steps and 50..1000 mA in 10 mA steps. */
  lemma IchgRoundTrip(value: Uint16)
    requires 5 <= value <= 36 || (50 <= value <= 1000 && value % 10 == 0)
    ensures IchgCode(value).Some?
    ensures DecodeIchg(IchgCode(value).value & Bitmask6_0) == value
  {
    IchgCodeValue(value);
    LowSevenBits(IchgCode(value).value);
    var n := IchgCodeNumber(value);
    assert value > 35 ==> n == 31 || (value >= 50 && n == 32 + (value - 50) / 10);
  }

  /** Every accepted request is set to within 9 mA: requests between the two
      ranges, and in-range values off the 10 mA grid, go to a neighbouring step. */
  lemma IchgNearest(value: Uint16)
    requires IchgCode(value).Some?
    ensures -9 <= DecodeIchg(IchgCode(value).value & Bitmask6_0) - value <= 9
  {
    IchgCodeValue(value);
    LowSevenBits(IchgCode(value).value);
  }

  /** As written, `set_ichg` accepts 0..4 mA and wraps `value - 5` to codes
      251..255, whose low seven bits command 960..1000 mA. */
  lemma IchgBelowFiveAsWritten(value: Uint16)
    requires value < 5
    ensures IchgCodeAsWritten(value).Some?
    ensures IchgCodeAsWritten(value).value as int == value + 251
    ensures DecodeIchg(IchgCodeAsWritten(value).value & Bitmask6_0) == 960 + 10 * value
  {
    LowSevenBits(IchgCodeAsWritten(value).value);
  }

  /** `get_buvlo` in decivolts: the threshold of a masked BUVLO field; 0 on the sentinel
      or a value that is no BUVLO code. */
  function BuvloDecivolts(field: bv8): (decivolts: nat)
    ensures field == I2cError ==> decivolts == 0
    ensures decivolts == 0 || (20 <= decivolts <= 30 && decivolts % 2 == 0)
  {
    if field == I2cError then 0
    else if field == Buvlo30A || field == Buvlo30B || field == Buvlo30C then 30
    else if field == Buvlo28 then 28
    else if field == Buvlo26 then 26
    else if field == Buvlo24 then 24
    else if field == Buvlo22 then 22
    else if field == Buvlo20 then 20
    else 0
  }

  /** The table is total on the field: any masked byte maps to an even threshold
      of 2.0..3.0 V, and the threshold never rises with the code. */
  lemma BuvloTableTotal(b: bv8, c: bv8)
    ensures var dv := BuvloDecivolts(b & Bitmask5_3); 20 <= dv <= 30 && dv % 2 == 0
    ensures b & Bitmask5_3 <= c & Bitmask5_3 ==>
      BuvloDecivolts(c & Bitmask5_3) <= BuvloDecivolts(b & Bitmask5_3)
  {
    BuvloCodesEnumerated(b);
    BuvloCodesEnumerated(c);
  }

  /** The fallback `return 0` is reached exactly when the masked read failed. */
  lemma BuvloZeroOnlyOnSentinel(b: bv8, ok: bool)
    ensures BuvloDecivolts(if ok then b & Bitmask5_3 else I2cError) == 0 <==> !ok
  {
    BuvloTableTotal(b, b);
  }
}
