// The instruction handlers of core/src/cpu.cpp as functions from the
// register file and the bus contents to the new register file, the new bus
// contents and the machine-cycle count the handler returns. Each function
// follows its C++ handler statement by statement (`s1`, `s2`, ... are the
// register file after each statement), so that the quirks of the code are
// kept: an operand fetched twice, a half-carry computed from the updated
// register, a carry-in read after the flags were cleared.

module Instructions {
  import opened Bits
  import opened Memory
  import opened Registers

  /** What a handler leaves behind. */
  datatype Outcome = Outcome(regs: Regs, mem: Image, cycles: nat)

  /** The branch conditions of the conditional jumps, calls and relative jumps. */
  datatype Cond = CondNZ | CondZ | CondNC | CondC

  /** Whether the branch is taken. */
  function Holds(s: Regs, cc: Cond): bool
  {
    match cc
    case CondNZ => !FlagOf(s, FlagZ)
    case CondZ => FlagOf(s, FlagZ)
    case CondNC => !FlagOf(s, FlagC)
    case CondC => FlagOf(s, FlagC)
  }

  /** A bool promoted to an integer operand. */
  function B2I(b: bool): int { if b then 1 else 0 }

  /** `PC.full++` */
  function IncPc(s: Regs): Regs { s.(pc := Wrap16(s.pc + 1)) }

  /** `mem.read(PC.full) | mem.read(PC.full + 1) << 8`: the address argument of
      `read` is a uint16_t, so PC + 1 wraps. */
  function Operand16(s: Regs, m: Image): u16
  {
    Word(ReadByte(m, s.pc), ReadByte(m, Wrap16(s.pc + 1)))
  }

  // ---------------------------------------------------------------------
  // Miscellaneous

  /** `invalid_opcode`: the default for every table slot. */
  function InvalidOpcode(s: Regs, m: Image): Outcome { Outcome(s, m, 0) }

  /** `nop` */
  function Nop(s: Regs, m: Image): Outcome { Outcome(s, m, 1) }

  // ---------------------------------------------------------------------
  // 8-bit additions

  /** `adc_a_r8<reg>`. H is computed after F was cleared, so the carry-in it
      reads is always 0. */
  function AdcAR8(s: Regs, m: Image, r: R8): Outcome
  {
    var orig := s.af.high;
    var toAdd := GetR8(s, r);
    var result := orig + toAdd + B2I(FlagOf(s, FlagC));
    var s1 := s.(af := ClearLow(s.af.(high := Wrap8(result))));
    var s2 := SetFlagOf(s1, FlagZ, s1.af.high == 0);
    var s3 := SetFlagOf(s2, FlagN, false);
    var s4 := SetFlagOf(s3, FlagH, orig % 0x10 + toAdd % 0x10 + B2I(FlagOf(s3, FlagC)) > 0x0F);
    var s5 := SetFlagOf(s4, FlagC, result > 0xFF);
    Outcome(s5, m, 1)
  }

  /** `adc_a_hl_mem`. H is computed from the new A. */
  function AdcAHlMem(s: Regs, m: Image): Outcome
  {
    var result := s.af.high + ReadByte(m, s.hl.Full()) + B2I(FlagOf(s, FlagC));
    var s1 := s.(af := ClearLow(s.af.(high := Wrap8(result))));
    var s2 := SetFlagOf(s1, FlagZ, s1.af.high == 0);
    var s3 := SetFlagOf(s2, FlagN, false);
    var s4 := SetFlagOf(s3, FlagH, s3.af.high % 0x10 + ReadByte(m, s3.hl.Full()) % 0x10 + B2I(FlagOf(s3, FlagC)) > 0x0F);
    var s5 := SetFlagOf(s4, FlagC, result > 0xFF);
    Outcome(s5, m, 2)
  }

  /** `adc_a_n`. The H computation fetches the byte after the operand and
      advances PC a second time. */
  function AdcAN(s: Regs, m: Image): Outcome
  {
    var result := s.af.high + ReadByte(m, s.pc) + B2I(FlagOf(s, FlagC));
    var s0 := IncPc(s);
    var s1 := s0.(af := ClearLow(s0.af.(high := Wrap8(result))));
    var s2 := SetFlagOf(s1, FlagZ, s1.af.high == 0);
    var s3 := SetFlagOf(s2, FlagN, false);
    var h := s3.af.high % 0x10 + ReadByte(m, s3.pc) % 0x10 + B2I(FlagOf(s3, FlagC)) > 0x0F;
    var s4 := SetFlagOf(IncPc(s3), FlagH, h);
    var s5 := SetFlagOf(s4, FlagC, result > 0xFF);
    Outcome(s5, m, 2)
  }

  /** `add_a_r8<reg>` */
  function AddAR8(s: Regs, m: Image, r: R8): Outcome
  {
    var orig := s.af.high;
    var toAdd := GetR8(s, r);
    var result := orig + toAdd;
    var s1 := s.(af := ClearLow(s.af.(high := Wrap8(result))));
    var s2 := SetFlagOf(s1, FlagZ, s1.af.high == 0);
    var s3 := SetFlagOf(s2, FlagN, false);
    var s4 := SetFlagOf(s3, FlagH, orig % 0x10 + toAdd % 0x10 > 0x0F);
    var s5 := SetFlagOf(s4, FlagC, result > 0xFF);
    Outcome(s5, m, 1)
  }

  /** `add_a_hl_mem`. H is computed from the new A. */
  function AddAHlMem(s: Regs, m: Image): Outcome
  {
    var result := s.af.high + ReadByte(m, s.hl.Full());
    var s1 := s.(af := ClearLow(s.af.(high := Wrap8(result))));
    var s2 := SetFlagOf(s1, FlagZ, s1.af.high == 0);
    var s3 := SetFlagOf(s2, FlagN, false);
    var s4 := SetFlagOf(s3, FlagH, s3.af.high % 0x10 + ReadByte(m, s3.hl.Full()) % 0x10 > 0x0F);
    var s5 := SetFlagOf(s4, FlagC, result > 0xFF);
    Outcome(s5, m, 2)
  }

  /** `add_a_n`. Like `adc_a_n`, it fetches a second byte for H. */
  function AddAN(s: Regs, m: Image): Outcome
  {
    var result := s.af.high + ReadByte(m, s.pc);
    var s0 := IncPc(s);
    var s1 := s0.(af := ClearLow(s0.af.(high := Wrap8(result))));
    var s2 := SetFlagOf(s1, FlagZ, s1.af.high == 0);
    var s3 := SetFlagOf(s2, FlagN, false);
    var h := s3.af.high % 0x10 + ReadByte(m, s3.pc) % 0x10 > 0x0F;
    var s4 := SetFlagOf(IncPc(s3), FlagH, h);
    var s5 := SetFlagOf(s4, FlagC, result > 0xFF);
    Outcome(s5, m, 2)
  }

  // ---------------------------------------------------------------------
  // 16-bit additions

  /** `add_hl_r16<reg>`. `r` is a reference, so for ADD HL,HL the H test
      sees the new HL twice; Z is left alone. */
  function AddHlR16(s: Regs, m: Image, rr: R16): Outcome
  {
    var result := s.hl.Full() + GetR16(s, rr);
    var s1 := s.(hl := FromFull(Wrap16(result)));
    var s2 := SetFlagOf(s1, FlagN, false);
    var s3 := SetFlagOf(s2, FlagH, s2.hl.Full() % 0x1000 + GetR16(s2, rr) % 0x1000 > 0x0FFF);
    var s4 := SetFlagOf(s3, FlagC, result > 0xFFFF);
    Outcome(s4, m, 2)
  }

  /** `add_sp_e`. The operand is a signed byte; H and C are computed from the
      new SP, with `e & 0x0FFF` on the promoted int and `uint32_t(e)` wrapping
      a negative offset to 2^32 + e. */
  function AddSpE(s: Regs, m: Image): Outcome
  {
    var e := Signed(ReadByte(m, s.pc));
    var s0 := IncPc(s);
    var s1 := s0.(sp := Wrap16(s0.sp + e));
    var s2 := SetFlagOf(s1, FlagZ, false);
    var s3 := SetFlagOf(s2, FlagN, false);
    var s4 := SetFlagOf(s3, FlagH, s3.sp % 0x1000 + e % 0x1000 > 0x0FFF);
    var s5 := SetFlagOf(s4, FlagC, (s4.sp + e % 0x1_0000_0000) % 0x1_0000_0000 > 0xFFFF);
    Outcome(s5, m, 4)
  }

  // ---------------------------------------------------------------------
  // Logic

  /** The common tail of the AND handlers: F cleared, then Z, N=0, H=1, C=0. */
  function AndFlags(s: Regs, result: u8): Regs
  {
    var s1 := s.(af := ClearLow(s.af.(high := result)));
    var s2 := SetFlagOf(s1, FlagZ, s1.af.high == 0);
    var s3 := SetFlagOf(s2, FlagN, false);
    var s4 := SetFlagOf(s3, FlagH, true);
    SetFlagOf(s4, FlagC, false)
  }

  /** `and_a_r8<reg>` */
  function AndAR8(s: Regs, m: Image, r: R8): Outcome
  {
    Outcome(AndFlags(s, And8(s.af.high, GetR8(s, r))), m, 1)
  }

  /** `and_a_hl_mem` */
  function AndAHlMem(s: Regs, m: Image): Outcome
  {
    Outcome(AndFlags(s, And8(s.af.high, ReadByte(m, s.hl.Full()))), m, 2)
  }

  /** `and_a_n` */
  function AndAN(s: Regs, m: Image): Outcome
  {
    Outcome(AndFlags(IncPc(s), And8(s.af.high, ReadByte(m, s.pc))), m, 2)
  }

  /** `or_a_r8<reg>`: F cleared, then Z. */
  function OrAR8(s: Regs, m: Image, r: R8): Outcome
  {
    var s1 := s.(af := ClearLow(s.af.(high := Or8(s.af.high, GetR8(s, r)))));
    Outcome(SetFlagOf(s1, FlagZ, s1.af.high == 0), m, 1)
  }

  /** `xor_a_r8<reg>`: F cleared, then Z. */
  function XorAR8(s: Regs, m: Image, r: R8): Outcome
  {
    var s1 := s.(af := ClearLow(s.af.(high := Xor8(s.af.high, GetR8(s, r)))));
    Outcome(SetFlagOf(s1, FlagZ, s1.af.high == 0), m, 1)
  }

  // ---------------------------------------------------------------------
  // Compare and flag operations

  /** The common body of the CP handlers: A - v is computed and dropped. */
  function CompareFlags(s: Regs, v: u8): Regs
  {
    var a := s.af.high;
    var result := Wrap8(a - v);
    var s1 := SetFlagOf(s, FlagZ, result == 0);
    var s2 := SetFlagOf(s1, FlagN, true);
    var s3 := SetFlagOf(s2, FlagH, a % 0x10 < v % 0x10);
    SetFlagOf(s3, FlagC, a < v)
  }

  /** `cp_a_r8<reg>` */
  function CpAR8(s: Regs, m: Image, r: R8): Outcome
  {
    Outcome(CompareFlags(s, GetR8(s, r)), m, 1)
  }

  /** `cp_a_hl_mem` */
  function CpAHlMem(s: Regs, m: Image): Outcome
  {
    Outcome(CompareFlags(s, ReadByte(m, s.hl.Full())), m, 2)
  }

  /** `cp_a_n` */
  function CpAN(s: Regs, m: Image): Outcome
  {
    Outcome(CompareFlags(IncPc(s), ReadByte(m, s.pc)), m, 2)
  }

  /** `cpl`: A complemented, N and H set. */
  function Cpl(s: Regs, m: Image): Outcome
  {
    var s1 := s.(af := s.af.(high := Not8(s.af.high)));
    Outcome(SetFlagOf(SetFlagOf(s1, FlagN, true), FlagH, true), m, 1)
  }

  /** `ccf`: N and H cleared, C complemented. */
  function Ccf(s: Regs, m: Image): Outcome
  {
    var s1 := SetFlagOf(s, FlagN, false);
    var s2 := SetFlagOf(s1, FlagH, false);
    Outcome(SetFlagOf(s2, FlagC, !FlagOf(s2, FlagC)), m, 1)
  }

  /** `daa`: the decimal adjustment of A after a BCD addition or subtraction. */
  function Daa(s: Regs, m: Image): Outcome
  {
    var a := s.af.high;
    var carry := FlagOf(s, FlagC);
    var half := FlagOf(s, FlagH);
    var (a', carry') :=
      if FlagOf(s, FlagN) then
        var adjustment := (if half then 0x06 else 0) + (if carry then 0x60 else 0);
        (Wrap8(a - adjustment), carry)
      else
        var low := if half || a % 0x10 > 0x9 then 0x06 else 0;
        var high := carry || a > 0x99;
        (Wrap8(a + low + (if high then 0x60 else 0)), carry || high);
    var s1 := s.(af := s.af.(high := a'));
    var s2 := SetFlagOf(s1, FlagZ, a' == 0);
    var s3 := SetFlagOf(s2, FlagH, false);
    Outcome(SetFlagOf(s3, FlagC, carry'), m, 1)
  }

  // ---------------------------------------------------------------------
  // Increment and decrement

  /** `inc_r8<reg>`: H from the old low nibble; `AF.low &= FLAG_C` keeps only C. */
  function IncR8(s: Regs, m: Image, r: R8): Outcome
  {
    var halfCarry := GetR8(s, r) % 0x10 == 0x0F;
    var s1 := SetR8(s, r, Wrap8(GetR8(s, r) + 1));
    var s2 := s1.(af := KeepCarryOnly(s1.af));
    var s3 := SetFlagOf(s2, FlagZ, GetR8(s2, r) == 0);
    Outcome(SetFlagOf(s3, FlagH, halfCarry), m, 1)
  }

  /** `dec_r8<reg>`: H from the new low nibble; C and the low nibble of F kept. */
  function DecR8(s: Regs, m: Image, r: R8): Outcome
  {
    var s1 := SetR8(s, r, Wrap8(GetR8(s, r) - 1));
    var v := GetR8(s1, r);
    var s2 := SetFlagOf(s1, FlagZ, v == 0);
    var s3 := SetFlagOf(s2, FlagN, true);
    Outcome(SetFlagOf(s3, FlagH, v % 0x10 == 0), m, 1)
  }

  /** `inc_r16<reg>` */
  function IncR16(s: Regs, m: Image, rr: R16): Outcome
  {
    Outcome(SetR16(s, rr, Wrap16(GetR16(s, rr) + 1)), m, 2)
  }

  /** `dec_r16<reg>` */
  function DecR16(s: Regs, m: Image, rr: R16): Outcome
  {
    Outcome(SetR16(s, rr, Wrap16(GetR16(s, rr) - 1)), m, 2)
  }

  /** `inc_hl_mem`: the byte at HL incremented through the bus. */
  function IncHlMem(s: Regs, m: Image): Outcome
  {
    var value := ReadByte(m, s.hl.Full());
    var halfCarry := value % 0x10 == 0x0F;
    var value' := Wrap8(value + 1);
    var m' := WriteByte(m, s.hl.Full(), value');
    var s1 := SetFlagOf(s, FlagZ, value' == 0);
    var s2 := SetFlagOf(s1, FlagN, false);
    Outcome(SetFlagOf(s2, FlagH, halfCarry), m', 4)
  }

  /** `dec_hl_mem`: Z and H are tested on `mem_value - 1` as an int, so
      0 - 1 = -1 is neither zero nor a multiple of 16. */
  function DecHlMem(s: Regs, m: Image): Outcome
  {
    var value := ReadByte(m, s.hl.Full());
    var m' := WriteByte(m, s.hl.Full(), Wrap8(value - 1));
    var s1 := SetFlagOf(s, FlagZ, value - 1 == 0);
    var s2 := SetFlagOf(s1, FlagN, true);
    Outcome(SetFlagOf(s2, FlagH, (value - 1) % 0x10 == 0), m', 3)
  }

  // ---------------------------------------------------------------------
  // Loads

  /** `ld_r16_nn<reg>`: SP assembles the word itself; the pairs load low then high. */
  function LdR16NN(s: Regs, m: Image, rr: R16): Outcome
  {
    if rr == SP then
      var s1 := s.(sp := Operand16(s, m));
      Outcome(s1.(pc := Wrap16(s1.pc + 2)), m, 3)
    else
      var low := ReadByte(m, s.pc);
      var s1 := IncPc(s);
      var high := ReadByte(m, s1.pc);
      var s2 := IncPc(s1);
      Outcome(SetR16(s2, rr, Word(low, high)), m, 3)
  }

  /** `ld_r8_nn<reg>` */
  function LdR8N(s: Regs, m: Image, r: R8): Outcome
  {
    Outcome(SetR8(IncPc(s), r, ReadByte(m, s.pc)), m, 2)
  }

  /** `ld_r8_r8<reg_1, reg_2>` */
  function LdR8R8(s: Regs, m: Image, dst: R8, src: R8): Outcome
  {
    Outcome(SetR8(s, dst, GetR8(s, src)), m, 1)
  }

  /** `ld_nn_a` (opcode LD (a16),A) */
  function LdNNA(s: Regs, m: Image): Outcome
  {
    var address := Operand16(s, m);
    var s1 := s.(pc := Wrap16(s.pc + 2));
    Outcome(s1, WriteByte(m, address, s1.af.high), 4)
  }

  /** `ld_hld_a`: store A at HL, then decrement HL. */
  function LdHldA(s: Regs, m: Image): Outcome
  {
    var m' := WriteByte(m, s.hl.Full(), s.af.high);
    Outcome(s.(hl := FromFull(Wrap16(s.hl.Full() - 1))), m', 2)
  }

  /** `ld_a_n` (registered first for LD A,n and then replaced by `ld_r8_nn<A>`) */
  function LdAN(s: Regs, m: Image): Outcome
  {
    Outcome(IncPc(s).(af := s.af.(high := ReadByte(m, s.pc))), m, 2)
  }

  /** `ld_a_nn` (opcode LD A,(a16)) */
  function LdANN(s: Regs, m: Image): Outcome
  {
    var address := Operand16(s, m);
    var s1 := s.(pc := Wrap16(s.pc + 2));
    Outcome(s1.(af := s1.af.(high := ReadByte(m, address))), m, 4)
  }

  // ---------------------------------------------------------------------
  // Jumps, calls and the stack

  /** `jp_nn`: PC := the little-endian operand. */
  function JpNN(s: Regs, m: Image): Outcome
  {
    Outcome(s.(pc := Operand16(s, m)), m, 4)
  }

  /** `jp_nz_nn`, `jp_z_nn`, `jp_nc_nn`, `jp_c_nn`: when not taken they return
      at once, without stepping over the operand. */
  function JpCc(s: Regs, m: Image, cc: Cond): Outcome
  {
    if Holds(s, cc) then JpNN(s, m) else Outcome(s, m, 3)
  }

  /** `jp_hl` */
  function JpHl(s: Regs, m: Image): Outcome
  {
    Outcome(s.(pc := s.hl.Full()), m, 1)
  }

  /** `jr_e`: PC moves by the signed operand, counted from after the operand. */
  function JrE(s: Regs, m: Image): Outcome
  {
    var offset := Signed(ReadByte(m, s.pc));
    var s1 := IncPc(s);
    Outcome(s1.(pc := Wrap16(s1.pc + offset)), m, 3)
  }

  /** `jr_nz_n`, `jr_z_n`, `jr_nc_n`, `jr_c_n`: not taken, they return 2
      without stepping over the operand. */
  function JrCc(s: Regs, m: Image, cc: Cond): Outcome
  {
    if Holds(s, cc) then JrE(s, m) else Outcome(s, m, 2)
  }

  /** `call_nn`: push the address after the operand (high byte at SP+1, low
      byte at SP) and jump. */
  function CallNN(s: Regs, m: Image): Outcome
  {
    var target := Operand16(s, m);
    var s1 := s.(pc := Wrap16(s.pc + 2));
    var s2 := s1.(sp := Wrap16(s1.sp - 2));
    var m1 := WriteByte(m, Wrap16(s2.sp + 1), HighByte(s2.pc));
    var m2 := WriteByte(m1, s2.sp, LowByte(s2.pc));
    Outcome(s2.(pc := target), m2, 6)
  }

  /** `call_nz_nn`, `call_z_nn`, `call_nc_nn`, `call_c_nn`: not taken, they
      return 3 without stepping over the operand. */
  function CallCc(s: Regs, m: Image, cc: Cond): Outcome
  {
    if Holds(s, cc) then CallNN(s, m) else Outcome(s, m, 3)
  }

  /** `ret`: pop PC (low byte first) and move SP up by 2. */
  function Ret(s: Regs, m: Image): Outcome
  {
    var s1 := s.(pc := Word(ReadByte(m, s.sp), ReadByte(m, Wrap16(s.sp + 1))));
    Outcome(s1.(sp := Wrap16(s1.sp + 2)), m, 4)
  }

  /** `push_bc`: B at SP-1, then C at SP-2. */
  function PushBc(s: Regs, m: Image): Outcome
  {
    var s1 := s.(sp := Wrap16(s.sp - 1));
    var m1 := WriteByte(m, s1.sp, s1.bc.high);
    var s2 := s1.(sp := Wrap16(s1.sp - 1));
    var m2 := WriteByte(m1, s2.sp, s2.bc.low);
    Outcome(s2, m2, 4)
  }

  /** `pop_bc`: C from SP, then B from SP+1. */
  function PopBc(s: Regs, m: Image): Outcome
  {
    var s1 := s.(bc := s.bc.(low := ReadByte(m, s.sp)));
    var s2 := s1.(sp := Wrap16(s1.sp + 1));
    var s3 := s2.(bc := s2.bc.(high := ReadByte(m, s2.sp)));
    Outcome(s3.(sp := Wrap16(s3.sp + 1)), m, 3)
  }
}
