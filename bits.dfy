// Fixed-width machine integers used throughout the emulator core.
// The C++ sources use uint8_t, uint16_t and uint32_t. Here they are integer
// ranges, and every place where C++ wraps around (`++`, `--`, `+=` on a
// narrow type, a cast to a narrower type) is written out with `%`.

module Bits {

  type u8 = x: int | 0 <= x < 0x100
  type u16 = x: int | 0 <= x < 0x1_0000
  type u32 = x: int | 0 <= x < 0x1_0000_0000

  /** Wrap-around to 8 bits, as a cast to uint8_t does (Dafny's `%` never goes negative). */
  function Wrap8(x: int): u8 { x % 0x100 }

  /** Wrap-around to 16 bits, as a cast to uint16_t does. */
  function Wrap16(x: int): u16 { x % 0x1_0000 }

  /** Wrap-around to 32 bits, as uint32_t addition does. */
  function Wrap32(x: int): u32 { x % 0x1_0000_0000 }

  /** The byte a bit pattern stands for. */
  function ByteOf(b: bv8): u8 { b as int }

  /** The little-endian word `lo | hi << 8`, as every 16-bit operand fetch builds it. */
  function Word(lo: u8, hi: u8): u16
  {
    hi * 0x100 + lo
  }

  /** `w & 0xFF` */
  function LowByte(w: u16): u8 { w % 0x100 }

  /** `(w >> 8) & 0xFF` */
  function HighByte(w: u16): u8 { w / 0x100 }

  /** The value of a byte read as a two's-complement `int8_t`. */
  function Signed(b: u8): (v: int)
    ensures -128 <= v < 128
    ensures Wrap8(v) == b
  {
    if b < 0x80 then b else b - 0x100
  }

  /** `a & b` on bytes. */
  function And8(a: u8, b: u8): u8
  {
    ((a as bv8) & (b as bv8)) as int
  }

  /** `a | b` on bytes. */
  function Or8(a: u8, b: u8): u8
  {
    ((a as bv8) | (b as bv8)) as int
  }

  /** `a ^ b` on bytes. */
  function Xor8(a: u8, b: u8): u8
  {
    ((a as bv8) ^ (b as bv8)) as int
  }

  /** `(uint8_t)~a`: every bit flipped. */
  function Not8(a: u8): (r: u8)
    ensures r + a == 0xFF
  {
    0xFF - a
  }

  /** 2 to the power `k`, for the bit positions of a byte. */
  function Pow2(k: nat): (p: nat)
    requires k < 8
    ensures p > 0
  {
    match k
    case 0 => 1 case 1 => 2 case 2 => 4 case 3 => 8
    case 4 => 16 case 5 => 32 case 6 => 64 case _ => 128
  }

  /** `(b >> k) & 1` */
  function BitOf(b: u8, k: nat): (r: int)
    requires k < 8
    ensures r == 0 || r == 1
  {
    b / Pow2(k) % 2
  }

  /** Joining two bytes into a word and splitting it again gives the bytes back. */
  lemma BytesOfWord(lo: u8, hi: u8)
    ensures LowByte(Word(lo, hi)) == lo && HighByte(Word(lo, hi)) == hi
  {
  }

  /** Splitting a word into its bytes and joining them again gives the word back. */
  lemma WordOfBytes(w: u16)
    ensures Word(LowByte(w), HighByte(w)) == w
  {
  }
}
