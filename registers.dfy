// The register file of core/src/cpu.h: four Register16 unions (AF, BC, DE,
// HL), the stack pointer and the program counter, and the flag bits that live
// in the low byte of AF.

module Registers {
  import opened Bits

  /** `cpu::Register16`: one 16-bit storage cell seen either whole (`full`)
      or as two bytes. The union puts `low` first, so on the little-endian
      hosts it assumes, `full == high * 256 + low`. */
  datatype Register16 = Register16(high: u8, low: u8)
  {
    /** The `full` view. */
    function Full(): u16 { Word(low, high) }
  }

  /** The register after an assignment to its `full` view. */
  function FromFull(v: u16): Register16
  {
    Register16(HighByte(v), LowByte(v))
  }

  /** `flag_types`: the four flags and the bit each occupies in F (the low byte of AF). */
  datatype Flag = FlagZ | FlagN | FlagH | FlagC

  /** The enumerator's value: FLAG_Z = 0x80, FLAG_N = 0x40, FLAG_H = 0x20, FLAG_C = 0x10. */
  function Mask(f: Flag): u8
  {
    match f
    case FlagZ => 0x80
    case FlagN => 0x40
    case FlagH => 0x20
    case FlagC => 0x10
  }

  type nibble = x: int | 0 <= x < 0x10

  /** The F byte read flag by flag; `rest` is its low nibble, which no flag covers. */
  datatype FlagBits = FlagBits(z: bool, n: bool, h: bool, c: bool, rest: nibble)

  /** The flags of an F byte, peeled off from the top bit down. */
  function Unpack(x: u8): FlagBits
  {
    var z := x >= 0x80;
    var x1 := if z then x - 0x80 else x;
    var n := x1 >= 0x40;
    var x2 := if n then x1 - 0x40 else x1;
    var h := x2 >= 0x20;
    var x3 := if h then x2 - 0x20 else x2;
    var c := x3 >= 0x10;
    FlagBits(z, n, h, c, if c then x3 - 0x10 else x3)
  }

  /** The F byte with the given flags. */
  function Pack(u: FlagBits): u8
  {
    (if u.z then 0x80 else 0) + (if u.n then 0x40 else 0)
      + (if u.h then 0x20 else 0) + (if u.c then 0x10 else 0) + u.rest
  }

  /** Packing then unpacking gives the flags back. */
  lemma UnpackPack(u: FlagBits)
    ensures Unpack(Pack(u)) == u
  {
  }

  /** Every F byte is the packing of its flags, so keeping F flag by flag loses nothing. */
  lemma PackUnpack(x: u8)
    ensures Pack(Unpack(x)) == x
  {
  }

  /** The value of one flag. */
  function Get(u: FlagBits, f: Flag): bool
  {
    match f
    case FlagZ => u.z
    case FlagN => u.n
    case FlagH => u.h
    case FlagC => u.c
  }

  /** `u` with one flag replaced. */
  function Put(u: FlagBits, f: Flag, value: bool): FlagBits
  {
    match f
    case FlagZ => u.(z := value)
    case FlagN => u.(n := value)
    case FlagH => u.(h := value)
    case FlagC => u.(c := value)
  }

  /** The AF union. A is the high byte; F, the low byte, is kept flag by
      flag, and `Low` and `Full` are its byte and word views. */
  datatype AfRegister = AfRegister(high: u8, flags: FlagBits)
  {
    /** The `low` view: the F byte. */
    function Low(): u8 { Pack(flags) }

    /** The `full` view. */
    function Full(): u16 { Word(Low(), high) }
  }

  /** AF after an assignment to its `full` view. */
  function AfFromFull(v: u16): AfRegister
  {
    AfRegister(HighByte(v), Unpack(LowByte(v)))
  }

  /** `AF.low = 0`: every flag cleared. */
  function ClearLow(af: AfRegister): AfRegister
  {
    af.(flags := FlagBits(false, false, false, false, 0))
  }

  /** `AF.low &= FLAG_C`: every bit of F but the carry cleared. */
  function KeepCarryOnly(af: AfRegister): AfRegister
  {
    af.(flags := FlagBits(false, false, false, af.flags.c, 0))
  }

  /** `get_flag(f)`: whether flag `f` of F is set. */
  function GetFlag(af: AfRegister, f: Flag): bool
  {
    Get(af.flags, f)
  }

  /** `cpu::set_flag` on the AF register: the chosen flag of F replaced.
      `SetFlagIsBitOperation` shows this is what `AF.full |= flag` and
      `AF.full &= ~flag` compute. */
  function SetFlag(af: AfRegister, f: Flag, value: bool): AfRegister
  {
    af.(flags := Put(af.flags, f, value))
  }

  /** `x | m` for a mask `m` with a single bit set: adds the bit if it is clear. */
  function OrBit(x: u16, m: u8): u16
    requires m == 0x80 || m == 0x40 || m == 0x20 || m == 0x10
  {
    if x / m % 2 == 1 then x else x + m
  }

  /** `x & ~m` for a mask `m` with a single bit set: removes the bit if it is set. */
  function AndNotBit(x: u16, m: u8): u16
    requires m == 0x80 || m == 0x40 || m == 0x20 || m == 0x10
  {
    if x / m % 2 == 1 then x - m else x
  }

  /** `AF.full` after `set_flag` as the source writes it: `AF.full |= flag`
      or `AF.full &= ~flag`. */
  function SetFlagBitwise(af: AfRegister, f: Flag, value: bool): u16
  {
    var m := Mask(f);
    if value then OrBit(af.Full(), m) else AndNotBit(af.Full(), m)
  }

  /** Setting or clearing the flag's bit of AF.full is replacing that flag of
      F: A, the other flags and the low nibble of F are kept. */
  lemma SetFlagIsBitOperation(af: AfRegister, f: Flag, value: bool)
    ensures SetFlagBitwise(af, f, value) == SetFlag(af, f, value).Full()
  {
    var u := af.flags;
    FlagBitOfFull(af, f);
    PackPut(u, f, value);
  }

  /** The flag's bit of AF.full, `(AF.low & f) != 0` in the source, is set
      exactly when `get_flag` reports the flag. */
  lemma FlagBitOfFull(af: AfRegister, f: Flag)
    ensures af.Full() / Mask(f) % 2 == 1 <==> GetFlag(af, f)
  {
    BitOfLowByte(af.high, af.Low(), Mask(f));
    BitOfPack(af.flags, f);
  }

  /** `AF.low & FLAG_C` keeps exactly the carry bit of the F byte. */
  lemma KeepCarryOnlyIsMask(af: AfRegister)
    ensures KeepCarryOnly(af).high == af.high
    ensures KeepCarryOnly(af).Low() == Mask(FlagC) * (af.Low() / Mask(FlagC) % 2)
  {
    BitOfPack(af.flags, FlagC);
  }

  /** Replacing one flag moves the packed byte by that flag's mask, or not at all. */
  lemma PackPut(u: FlagBits, f: Flag, value: bool)
    ensures Pack(Put(u, f, value)) == Pack(u) + (if value == Get(u, f) then 0 else if value then Mask(f) else -(Mask(f) as int))
  {
  }

  /** A word built from two bytes splits back into them. */
  lemma WordBytes(high: u8, low: u8)
    ensures (high * 0x100 + low) / 0x100 == high && (high * 0x100 + low) % 0x100 == low
  {
  }

  /** Bit `m` (a flag mask) of a word is the same bit of its low byte. */
  lemma BitOfLowByte(high: u8, low: u8, m: u8)
    requires m == 0x80 || m == 0x40 || m == 0x20 || m == 0x10
    ensures (high * 0x100 + low) / m % 2 == low / m % 2
  {
    var w := high * 0x100 + low;
    if m == 0x80 {
      assert w / 0x80 == high * 2 + low / 0x80;
    } else if m == 0x40 {
      assert w / 0x40 == (high * 2) * 2 + low / 0x40;
    } else if m == 0x20 {
      assert w / 0x20 == (high * 4) * 2 + low / 0x20;
    } else {
      assert w / 0x10 == (high * 8) * 2 + low / 0x10;
    }
  }

  /** The flag's bit in a packed F byte is set exactly when the flag is. */
  lemma BitOfPack(u: FlagBits, f: Flag)
    ensures Pack(u) / Mask(f) % 2 == 1 <==> Get(u, f)
  {
    var hi := (if u.z then 8 else 0) + (if u.n then 4 else 0) + (if u.h then 2 else 0) + (if u.c then 1 else 0);
    assert Pack(u) == hi * 16 + u.rest;
    match f
    case FlagZ => assert Pack(u) / 0x80 == hi / 8;
    case FlagN => assert Pack(u) / 0x40 == hi / 4;
    case FlagH => assert Pack(u) / 0x20 == hi / 2;
    case FlagC => assert Pack(u) / 0x10 == hi;
  }

  /** The two views of a register never disagree: assigning `full` and
      reading it back, or reading `full` and assigning it, changes nothing. */
  lemma RegisterViews(r: Register16, af: AfRegister, v: u16)
    ensures FromFull(r.Full()) == r && FromFull(v).Full() == v
    ensures r.Full() == r.high * 0x100 + r.low
    ensures AfFromFull(af.Full()) == af && AfFromFull(v).Full() == v
  {
    WordBytes(r.high, r.low);
    WordBytes(af.high, af.Low());
    UnpackPack(af.flags);
    PackUnpack(LowByte(v));
  }

  /** The flag masks are four different bits, all inside F. */
  lemma MasksAreDistinctBits(f: Flag, g: Flag)
    ensures Mask(f) == 0x80 || Mask(f) == 0x40 || Mask(f) == 0x20 || Mask(f) == 0x10
    ensures f != g ==> Mask(f) != Mask(g)
  {
  }

  // ---------------------------------------------------------------------
  // The register file

  /** The eight-bit registers a handler template can name: A is AF.high,
      B and C are BC.high and BC.low, and so on. */
  datatype R8 = A | B | C | D | E | H | L

  /** The sixteen-bit registers a handler template can name. */
  datatype R16 = BC | DE | HL | SP

  /** The register fields of `gb::cpu`. */
  datatype Regs = Regs(af: AfRegister, bc: Register16, de: Register16, hl: Register16, sp: u16, pc: u16)

  /** `get_r8<reg>()` */
  function GetR8(s: Regs, r: R8): u8
  {
    match r
    case A => s.af.high
    case B => s.bc.high
    case C => s.bc.low
    case D => s.de.high
    case E => s.de.low
    case H => s.hl.high
    case L => s.hl.low
  }

  /** An assignment through `get_r8<reg>()`. */
  function SetR8(s: Regs, r: R8, v: u8): Regs
  {
    match r
    case A => s.(af := s.af.(high := v))
    case B => s.(bc := s.bc.(high := v))
    case C => s.(bc := s.bc.(low := v))
    case D => s.(de := s.de.(high := v))
    case E => s.(de := s.de.(low := v))
    case H => s.(hl := s.hl.(high := v))
    case L => s.(hl := s.hl.(low := v))
  }

  /** `get_r16<reg>().full` */
  function GetR16(s: Regs, rr: R16): u16
  {
    match rr
    case BC => s.bc.Full()
    case DE => s.de.Full()
    case HL => s.hl.Full()
    case SP => s.sp
  }

  /** An assignment to `get_r16<reg>().full`. */
  function SetR16(s: Regs, rr: R16, v: u16): Regs
  {
    match rr
    case BC => s.(bc := FromFull(v))
    case DE => s.(de := FromFull(v))
    case HL => s.(hl := FromFull(v))
    case SP => s.(sp := v)
  }

  /** `set_flag` applied to the register file. */
  function SetFlagOf(s: Regs, f: Flag, value: bool): Regs
  {
    s.(af := SetFlag(s.af, f, value))
  }

  /** `get_flag` read from the register file. */
  function FlagOf(s: Regs, f: Flag): bool
  {
    GetFlag(s.af, f)
  }

  /** `power_up_sequence`: the register values after construction. */
  function PowerUp(): Regs
  {
    Regs(AfFromFull(0x01B0), FromFull(0x0013), FromFull(0x00D8), FromFull(0x014D), 0xFFFE, 0x0000)
  }

  /** After power-up A is 0x01 and Z, H and C are set, N is clear. */
  lemma PowerUpValues()
    ensures PowerUp().sp == 0xFFFE && PowerUp().pc == 0
    ensures PowerUp().af.high == 0x01 && PowerUp().af.flags == FlagBits(true, false, true, true, 0)
    ensures PowerUp().af.Full() == 0x01B0 && PowerUp().bc.Full() == 0x0013
    ensures PowerUp().de.Full() == 0x00D8 && PowerUp().hl.Full() == 0x014D
  {
    assert Unpack(0xB0) == FlagBits(true, false, true, true, 0);
  }

  /** An eight-bit register reads back what was stored in it and the other
      eight-bit registers keep their values. */
  lemma R8ReadAfterWrite(s: Regs, r: R8, q: R8, v: u8)
    ensures GetR8(SetR8(s, r, v), r) == v
    ensures q != r ==> GetR8(SetR8(s, r, v), q) == GetR8(s, q)
  {
  }

  /** A sixteen-bit register pair reads back what was stored in it, and its
      halves see the high and the low byte of the value. */
  lemma R16ReadAfterWrite(s: Regs, rr: R16, v: u16)
    ensures GetR16(SetR16(s, rr, v), rr) == v
    ensures rr == BC ==> GetR8(SetR16(s, rr, v), B) == v / 0x100 && GetR8(SetR16(s, rr, v), C) == v % 0x100
    ensures rr == DE ==> GetR8(SetR16(s, rr, v), D) == v / 0x100 && GetR8(SetR16(s, rr, v), E) == v % 0x100
    ensures rr == HL ==> GetR8(SetR16(s, rr, v), H) == v / 0x100 && GetR8(SetR16(s, rr, v), L) == v % 0x100
    ensures SetR16(s, rr, v).af == s.af && SetR16(s, rr, v).pc == s.pc
  {
  }

  /** `set_flag` never alters A or any register other than F, and reads back. */
  lemma SetFlagKeepsRegisters(s: Regs, f: Flag, g: Flag, value: bool, r: R8)
    ensures FlagOf(SetFlagOf(s, f, value), f) == value
    ensures g != f ==> FlagOf(SetFlagOf(s, f, value), g) == FlagOf(s, g)
    ensures GetR8(SetFlagOf(s, f, value), r) == GetR8(s, r)
    ensures SetFlagOf(s, f, value).af.flags.rest == s.af.flags.rest
  {
  }
}
