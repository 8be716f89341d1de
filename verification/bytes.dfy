/** Bytes, ASCII literals and the fixed-width integer bounds used by the
    client crate. */
module Bytes {

  type Byte = x: int | 0 <= x < 256

  const U8_MAX: int := 0xFF
  const U16_MAX: int := 0xFFFF
  const U32_MAX: int := 0xFFFF_FFFF
  const U64_MAX: int := 0xFFFF_FFFF_FFFF_FFFF
  const I8_MIN: int := -0x80
  const I8_MAX: int := 0x7F
  const I16_MIN: int := -0x8000
  const I16_MAX: int := 0x7FFF

  /** Rust's `u16`, `i8` and `i16`. */
  type Uint16 = x: int | 0 <= x <= 0xFFFF
  type Int8 = x: int | -0x80 <= x <= 0x7F
  type Int16 = x: int | -0x8000 <= x <= 0x7FFF

  const HASH: Byte := 35       // '#'
  const PLUS: Byte := 43       // '+'
  const COMMA: Byte := 44      // ','
  const MINUS: Byte := 45      // '-'
  const ZERO: Byte := 48       // '0'
  const CR: Byte := 13         // '\r'
  const LF: Byte := 10         // '\n'

  predicate IsAsciiText(s: string) {
    forall i | 0 <= i < |s| :: s[i] as int < 256
  }

  /** The bytes of an ASCII string literal, as Rust's `b"..."`. */
  function Ascii(s: string): (r: seq<Byte>)
    requires IsAsciiText(s)
    ensures |r| == |s|
    ensures forall i | 0 <= i < |s| :: r[i] == s[i] as int
  {
    if |s| == 0 then [] else [s[0] as int] + Ascii(s[1..])
  }

  /** The byte of one ASCII character, as Rust's `b'c'`. */
  function Char(c: char): (b: Byte)
    requires c as int < 256
    ensures b == c as int
  {
    c as int
  }

  /** `<[u8]>::starts_with` */
  predicate StartsWith(s: seq<Byte>, prefix: seq<Byte>) {
    |prefix| <= |s| && s[..|prefix|] == prefix
  }

  predicate IsDigit(b: Byte) { 48 <= b <= 57 }

  predicate IsAlphanumeric(b: Byte) {
    IsDigit(b) || 65 <= b <= 90 || 97 <= b <= 122
  }

  /** `u16::to_be_bytes` */
  function BigEndian16(v: int): (r: seq<Byte>)
    requires 0 <= v <= U16_MAX
    ensures |r| == 2 && (r[0] as int) * 256 + r[1] == v
  {
    [v / 256, v % 256]
  }

  /** `u16::from_be_bytes` */
  function FromBigEndian16(hi: Byte, lo: Byte): (v: int)
    ensures 0 <= v <= U16_MAX
    ensures BigEndian16(v) == [hi, lo]
  {
    (hi as int) * 256 + lo
  }

  /** Rust's `as u8` on an integer: keep the low eight bits (two's complement
      for negative values). */
  function AsU8(v: int): (b: Byte)
    ensures (b - v) % 256 == 0
    ensures 0 <= v <= U8_MAX ==> b == v
  {
    v % 256
  }
}
