// What the instruction handlers of core/src/cpu.cpp compute, stated in
// closed form against their statement-by-statement definitions in
// `Instructions`, and the places where the code and the expectations of
// tests/src/tests.cpp part ways (each stated as a lemma about the code).

module CpuProperties {
  import opened Bits
  import opened Memory
  import opened Registers
  import opened Opcodes
  import I = Instructions
  import opened Dispatch

  // ---------------------------------------------------------------------
  // execute

  /** An opcode no handler was registered for, and the 0xCB prefix, cost 0
      cycles and change nothing but PC, which steps past the opcode. */
  lemma UnregisteredOnlyAdvancesPc(s: Regs, m: Image)
    requires ReadByte(m, s.pc) == CB_PREFIX || Decode(ReadByte(m, s.pc)) == InvalidOpcode
    ensures Step(s, m) == I.Outcome(s.(pc := Wrap16(s.pc + 1)), m, 0)
  {
  }

  /** Every arithmetic handler costs at least one cycle. */
  lemma ArithmeticCostsCycles(h: Handler, s: Regs, m: Image)
    requires IsArithmetic(h)
    ensures RunArithmetic(h, s, m).cycles >= 1
  {
    match h
    case AdcAR8(r) =>
    case AdcAHlMem =>
    case AdcAN =>
    case AddAR8(r) =>
    case AddAHlMem =>
    case AddAN =>
    case AddHlR16(rr) =>
    case AddSpE =>
    case AndAR8(r) =>
    case AndAHlMem =>
    case AndAN =>
    case OrAR8(r) =>
    case XorAR8(r) =>
    case CpAR8(r) =>
    case CpAHlMem =>
    case CpAN =>
    case Cpl =>
    case Ccf =>
    case Daa =>
    case IncR8(r) =>
    case DecR8(r) =>
    case IncR16(rr) =>
    case DecR16(rr) =>
    case IncHlMem =>
    case DecHlMem =>
  }

  /** Every transfer handler but `invalid_opcode` costs at least one cycle. */
  lemma TransferCostsCycles(h: Handler, s: Regs, m: Image)
    requires !IsArithmetic(h) && h != InvalidOpcode
    ensures RunTransfer(h, s, m).cycles >= 1
  {
    match h
    case Nop =>
    case LdR16NN(rr) =>
    case LdR8N(r) =>
    case LdR8R8(dst, src) =>
    case LdNNA =>
    case LdHldA =>
    case LdAN =>
    case LdANN =>
    case JpNN =>
    case JpCc(cc) =>
    case JpHl =>
    case JrE =>
    case JrCc(cc) =>
    case CallNN =>
    case CallCc(cc) =>
    case Ret =>
    case PushBc =>
    case PopBc =>
  }

  /** 0 cycles from a handler means exactly that the slot held `invalid_opcode`. */
  lemma ZeroCyclesMeansUnregistered(h: Handler, s: Regs, m: Image)
    ensures Run(h, s, m).cycles == 0 <==> h == InvalidOpcode
  {
    if IsArithmetic(h) {
      ArithmeticCostsCycles(h, s, m);
    } else if h != InvalidOpcode {
      TransferCostsCycles(h, s, m);
    }
  }

  /** A slot holds the handler of the last block that names it, or
      `invalid_opcode` (j = 0) when no block does. */
  lemma {:induction false} LastNamed(g: nat, j: nat, op: u8, h: Handler)
    requires j <= g <= BLOCKS
    requires if j == 0 then h == InvalidOpcode else Block(j, op) == Some(h)
    requires forall k: nat {:trigger Block(k, op)} :: j < k <= g ==> Block(k, op).None?
    ensures TableAfter(g, op) == h
  {
    if g > j {
      LastNamed(g - 1, j, op, h);
    }
  }

  /** Where NOP sits in the table. */
  lemma DecodeNop(op: u8)
    requires op == NOP
    ensures Decode(op) == Nop
  {
    forall g | 1 < g <= BLOCKS ensures Block(g, op).None? { }
    LastNamed(BLOCKS, 1, op, Nop);
  }

  /** NOP steps PC past itself, costs 1 cycle and changes nothing else. */
  lemma NopOnlyAdvancesPc(s: Regs, m: Image)
    requires ReadByte(m, s.pc) == NOP
    ensures Step(s, m) == I.Outcome(s.(pc := Wrap16(s.pc + 1)), m, 1)
  {
    DecodeNop(ReadByte(m, s.pc));
  }

  /** DAA has a handler, but its slot is never filled. */
  lemma DaaIsUnregistered()
    ensures Decode(DAA) == InvalidOpcode
  {
    forall g | 1 <= g <= BLOCKS ensures Block(g, DAA).None? { }
    LastNamed(BLOCKS, 0, DAA, InvalidOpcode);
  }

  /** LD B,A, LD C,A and LD C,B are missing from the table. */
  lemma MissingLoadsIntoBC(op: u8)
    requires op in {LD_B_A, LD_C_A, LD_C_B}
    ensures Decode(op) == InvalidOpcode
  {
    forall g | 1 <= g <= BLOCKS ensures Block(g, op).None? { }
    LastNamed(BLOCKS, 0, op, InvalidOpcode);
  }

  /** LD D,A, LD D,B and LD D,C are missing from the table. */
  lemma MissingLoadsIntoD(op: u8)
    requires op in {LD_D_A, LD_D_B, LD_D_C}
    ensures Decode(op) == InvalidOpcode
  {
    forall g | 1 <= g <= BLOCKS ensures Block(g, op).None? { }
    LastNamed(BLOCKS, 0, op, InvalidOpcode);
  }

  /** LD A,n is registered twice; `ld_a_n` and the `ld_r8_nn<A>` that replaces
      it behave identically, so the order of registration does not matter. */
  lemma LdANOverrideIsHarmless(s: Regs, m: Image)
    ensures Run(LdAN, s, m) == Run(LdR8N(A), s, m)
  {
  }

  // ---------------------------------------------------------------------
  // Loads

  /** LD rr,nn stores the operand little-endian, steps PC over it and costs 3
      cycles; the SP variant, written differently, agrees with the pairs. */
  lemma LoadWordImmediate(s: Regs, m: Image, rr: R16)
    ensures var o := I.LdR16NN(s, m, rr);
      var nn := Word(ReadByte(m, s.pc), ReadByte(m, Wrap16(s.pc + 1)));
      o.regs == SetR16(s, rr, nn).(pc := Wrap16(s.pc + 2)) && o.mem == m && o.cycles == 3
  {
    var s2 := I.IncPc(I.IncPc(s));
    assert s2.pc == Wrap16(s.pc + 2);
    var nn := Word(ReadByte(m, s.pc), ReadByte(m, Wrap16(s.pc + 1)));
    assert I.LdR16NN(s, m, rr).regs == SetR16(s, rr, nn).(pc := s2.pc) by {
      match rr
      case BC =>
      case DE =>
      case HL =>
      case SP =>
    }
  }

  /** LD (HL-),A stores A at HL and leaves HL one lower. */
  lemma LoadHlDecrement(s: Regs, m: Image)
    ensures var o := I.LdHldA(s, m);
      o.mem == WriteByte(m, s.hl.Full(), s.af.high) && o.cycles == 2
      && o.regs.hl.Full() == Wrap16(s.hl.Full() - 1) && o.regs.af == s.af && o.regs.pc == s.pc
  {
    WordOfBytes(Wrap16(s.hl.Full() - 1));
  }

  // ---------------------------------------------------------------------
  // Increment and decrement

  /** INC r: r+1 mod 256, Z iff the result is 0, N cleared, H iff the old low
      nibble was 0xF, C kept, and the unused low nibble of F cleared. */
  lemma IncrementFlags(s: Regs, m: Image, r: R8)
    ensures var o := I.IncR8(s, m, r);
      var v := GetR8(s, r);
      var v' := GetR8(o.regs, r);
      v' == Wrap8(v + 1) && o.cycles == 1 && o.mem == m
      && o.regs.af.flags == FlagBits(v' == 0, false, v % 0x10 == 0x0F, FlagOf(s, FlagC), 0)
  {
    R8ReadAfterWrite(s, r, r, Wrap8(GetR8(s, r) + 1));
  }

  /** INC r leaves every other eight-bit register alone. */
  lemma IncrementFrame(s: Regs, m: Image, r: R8, q: R8)
    requires q != r && q != A
    ensures GetR8(I.IncR8(s, m, r).regs, q) == GetR8(s, q)
  {
    R8ReadAfterWrite(s, r, q, Wrap8(GetR8(s, r) + 1));
  }

  /** DEC r: r-1 mod 256, Z iff the result is 0, N set, H iff the new low
      nibble is 0; C and the low nibble of F kept. */
  lemma DecrementFlags(s: Regs, m: Image, r: R8)
    requires r != A
    ensures var o := I.DecR8(s, m, r);
      var v' := GetR8(o.regs, r);
      v' == Wrap8(GetR8(s, r) - 1) && o.cycles == 1 && o.mem == m && o.regs.af.high == s.af.high
      && o.regs.af.flags == FlagBits(v' == 0, true, v' % 0x10 == 0, FlagOf(s, FlagC), s.af.flags.rest)
  {
    R8ReadAfterWrite(s, r, r, Wrap8(GetR8(s, r) - 1));
    R8ReadAfterWrite(s, r, A, Wrap8(GetR8(s, r) - 1));
  }

  /** INC A and DEC A: the flags are those of the new A. */
  lemma IncDecA(s: Regs, m: Image)
    ensures var o := I.IncR8(s, m, A);
      o.regs.af.high == Wrap8(s.af.high + 1) && Get(o.regs.af.flags, FlagZ) == (o.regs.af.high == 0)
    ensures var o := I.DecR8(s, m, A);
      o.regs.af.high == Wrap8(s.af.high - 1) && Get(o.regs.af.flags, FlagZ) == (o.regs.af.high == 0)
      && Get(o.regs.af.flags, FlagH) == (o.regs.af.high % 0x10 == 0)
  {
  }

  /** INC (HL) increments the byte at HL when HL is in RAM; Z, N and H as
      INC r, C kept. */
  lemma IncrementMemory(s: Regs, m: Image)
    requires Writable(s.hl.Full())
    ensures var o := I.IncHlMem(s, m);
      var v := ReadByte(m, s.hl.Full());
      var v' := ReadByte(o.mem, s.hl.Full());
      v' == Wrap8(v + 1) && o.cycles == 4 && o.regs.af.high == s.af.high
      && o.regs.af.flags == s.af.flags.(z := v' == 0, n := false, h := v % 0x10 == 0x0F)
  {
    ReadAfterWrite(m, s.hl.Full(), Wrap8(ReadByte(m, s.hl.Full()) + 1));
  }

  /** DEC (HL) decrements the byte at HL, but tests Z and H on the int
      `value - 1`: a byte of 0 wraps to 0xFF with H clear, since -1 is not a
      multiple of 16. */
  lemma DecrementMemory(s: Regs, m: Image)
    requires Writable(s.hl.Full())
    ensures var o := I.DecHlMem(s, m);
      var v := ReadByte(m, s.hl.Full());
      ReadByte(o.mem, s.hl.Full()) == Wrap8(v - 1) && o.cycles == 3
      && Get(o.regs.af.flags, FlagZ) == (v == 1) && Get(o.regs.af.flags, FlagN)
      && Get(o.regs.af.flags, FlagH) == (v != 0 && (v - 1) % 0x10 == 0)
  {
    ReadAfterWrite(m, s.hl.Full(), Wrap8(ReadByte(m, s.hl.Full()) - 1));
  }

  // ---------------------------------------------------------------------
  // Logic and compare

  /** AND leaves F = Z|H with N and C clear; OR and XOR leave F = Z alone. */
  lemma LogicFlags(s: Regs, m: Image, r: R8)
    ensures var o := I.AndAR8(s, m, r);
      var a := And8(s.af.high, GetR8(s, r));
      o.regs.af == AfRegister(a, FlagBits(a == 0, false, true, false, 0)) && o.cycles == 1
    ensures var o := I.OrAR8(s, m, r);
      var a := Or8(s.af.high, GetR8(s, r));
      o.regs.af == AfRegister(a, FlagBits(a == 0, false, false, false, 0)) && o.cycles == 1
    ensures var o := I.XorAR8(s, m, r);
      var a := Xor8(s.af.high, GetR8(s, r));
      o.regs.af == AfRegister(a, FlagBits(a == 0, false, false, false, 0)) && o.cycles == 1
  {
  }

  /** XOR A,A clears A and leaves only Z set. */
  lemma XorSelfClears(s: Regs, m: Image)
    ensures I.XorAR8(s, m, A).regs.af == AfRegister(0, FlagBits(true, false, false, false, 0))
  {
    assert Xor8(s.af.high, s.af.high) == 0 by {
      assert (s.af.high as bv8) ^ (s.af.high as bv8) == 0;
    }
  }

  /** CP leaves A unchanged and sets N; Z iff A = v, H iff the low nibble of A
      is below that of v, C iff A < v. */
  lemma CompareFlagsClosedForm(s: Regs, v: u8)
    ensures var s' := I.CompareFlags(s, v);
      var a := s.af.high;
      s'.af == AfRegister(a, FlagBits(a == v, true, a % 0x10 < v % 0x10, a < v, s.af.flags.rest))
      && s'.bc == s.bc && s'.de == s.de && s'.hl == s.hl && s'.sp == s.sp && s'.pc == s.pc
  {
    assert (Wrap8(s.af.high - v) == 0) == (s.af.high == v);
  }

  /** CP r and CP (HL) are CompareFlags on the operand; CP n also steps PC. */
  lemma CompareHandlers(s: Regs, m: Image, r: R8)
    ensures I.CpAR8(s, m, r) == I.Outcome(I.CompareFlags(s, GetR8(s, r)), m, 1)
    ensures I.CpAN(s, m).regs.pc == Wrap16(s.pc + 1) && I.CpAN(s, m).cycles == 2
    ensures I.CpAN(s, m).regs.af.high == s.af.high
  {
    CompareFlagsClosedForm(I.IncPc(s), ReadByte(m, s.pc));
  }

  /** CCF clears N and H and flips C; CPL applied twice restores A. */
  lemma FlagOperations(s: Regs, m: Image)
    ensures var o := I.Ccf(s, m);
      o.regs.af == s.af.(flags := s.af.flags.(n := false, h := false, c := !s.af.flags.c)) && o.cycles == 1
    ensures var o := I.Cpl(I.Cpl(s, m).regs, m);
      o.regs.af.high == s.af.high && o.regs.af.flags == s.af.flags.(n := true, h := true)
  {
  }

  // ---------------------------------------------------------------------
  // Additions

  /** ADD A,r: A := A + r mod 256 with F rebuilt from scratch: Z from the
      new A, N clear, H iff the low nibbles carry, C iff the sum exceeds 0xFF. */
  lemma AddToA(s: Regs, m: Image, r: R8)
    ensures var o := I.AddAR8(s, m, r);
      var v := GetR8(s, r);
      var sum := s.af.high + v;
      o.regs == s.(af := AfRegister(Wrap8(sum), FlagBits(Wrap8(sum) == 0, false, s.af.high % 0x10 + v % 0x10 > 0x0F, sum > 0xFF, 0)))
      && o.mem == m && o.cycles == 1
  {
  }

  /** ADD A,(HL): A := A + (HL) mod 256, but H adds the low nibble of the
      byte to that of the NEW A. */
  lemma AddMemoryToA(s: Regs, m: Image)
    ensures var o := I.AddAHlMem(s, m);
      var v := ReadByte(m, s.hl.Full());
      var sum := s.af.high + v;
      o.regs == s.(af := AfRegister(Wrap8(sum), FlagBits(Wrap8(sum) == 0, false, Wrap8(sum) % 0x10 + v % 0x10 > 0x0F, sum > 0xFF, 0)))
      && o.mem == m && o.cycles == 2
  {
  }

  /** ADC A,(HL): A := A + (HL) + carry-in mod 256. C counts the carry-in,
      H does not (it is read after F was cleared) and adds the byte's low
      nibble to that of the new A. */
  lemma AdcMemoryToA(s: Regs, m: Image)
    ensures var o := I.AdcAHlMem(s, m);
      var v := ReadByte(m, s.hl.Full());
      var sum := s.af.high + v + I.B2I(FlagOf(s, FlagC));
      o.regs == s.(af := AfRegister(Wrap8(sum), FlagBits(Wrap8(sum) == 0, false, Wrap8(sum) % 0x10 + v % 0x10 > 0x0F, sum > 0xFF, 0)))
      && o.mem == m && o.cycles == 2
  {
  }

  /** ADD A,n adds the operand at PC, then steps PC a second time while
      computing H, which adds the low nibble of the byte AFTER the operand
      to that of the new A. */
  lemma ImmediateAddFetchesTwice(s: Regs, m: Image)
    ensures var o := I.AddAN(s, m);
      var sum := s.af.high + ReadByte(m, s.pc);
      var next := ReadByte(m, Wrap16(s.pc + 1));
      o.regs == s.(pc := Wrap16(s.pc + 2),
                   af := AfRegister(Wrap8(sum), FlagBits(Wrap8(sum) == 0, false, Wrap8(sum) % 0x10 + next % 0x10 > 0x0F, sum > 0xFF, 0)))
      && o.mem == m && o.cycles == 2
  {
    var s1 := I.IncPc(s);
    assert Wrap16(s1.pc + 1) == Wrap16(s.pc + 2);
  }

  /** ADC A,n fetches twice like ADD A,n; its carry-in reaches A and C but
      not H. */
  lemma ImmediateAdcFetchesTwice(s: Regs, m: Image)
    ensures var o := I.AdcAN(s, m);
      var sum := s.af.high + ReadByte(m, s.pc) + I.B2I(FlagOf(s, FlagC));
      var next := ReadByte(m, Wrap16(s.pc + 1));
      o.regs == s.(pc := Wrap16(s.pc + 2),
                   af := AfRegister(Wrap8(sum), FlagBits(Wrap8(sum) == 0, false, Wrap8(sum) % 0x10 + next % 0x10 > 0x0F, sum > 0xFF, 0)))
      && o.mem == m && o.cycles == 2
  {
    var s1 := I.IncPc(s);
    assert Wrap16(s1.pc + 1) == Wrap16(s.pc + 2);
  }

  /** ADD A,(HL) computes H from the new A: with A = 0x0F and (HL) = 0x01 the
      low nibbles carry, yet H ends up clear. */
  lemma HalfCarryFromNewValue(s: Regs, m: Image)
    requires s.af.high == 0x0F && ReadByte(m, s.hl.Full()) == 0x01
    ensures s.af.high % 0x10 + ReadByte(m, s.hl.Full()) % 0x10 > 0x0F
    ensures var o := I.AddAHlMem(s, m);
      o.regs.af.high == 0x10 && !Get(o.regs.af.flags, FlagH)
  {
    var o := I.AddAHlMem(s, m);
    assert o.regs.af.high == 0x10;
  }

  /** ADC A,r clears F before it reads the carry-in for H, so H never counts
      the carry: with A = 0x0F, r = 0 and C set, the nibbles carry but H is clear. */
  lemma AdcHalfCarryIgnoresCarryIn(s: Regs, m: Image, r: R8)
    ensures var o := I.AdcAR8(s, m, r);
      var v := GetR8(s, r);
      o.regs.af.high == Wrap8(s.af.high + v + I.B2I(FlagOf(s, FlagC)))
      && Get(o.regs.af.flags, FlagH) == (s.af.high % 0x10 + v % 0x10 > 0x0F)
      && Get(o.regs.af.flags, FlagC) == (s.af.high + v + I.B2I(FlagOf(s, FlagC)) > 0xFF)
      && Get(o.regs.af.flags, FlagZ) == (o.regs.af.high == 0) && !Get(o.regs.af.flags, FlagN)
  {
  }

  /** ADD HL,rr: HL := HL + rr mod 2^16, N cleared, C iff the sum exceeds
      0xFFFF, Z, A and the other registers kept. H adds the low 12 bits of
      the new HL to those of rr; for ADD HL,HL the operand is a reference to
      HL itself, so both terms are the new HL. */
  lemma AddToHl(s: Regs, m: Image, rr: R16)
    ensures var o := I.AddHlR16(s, m, rr);
      var sum := s.hl.Full() + GetR16(s, rr);
      var operand := if rr == HL then Wrap16(sum) else GetR16(s, rr);
      o.regs == s.(hl := FromFull(Wrap16(sum)),
                   af := s.af.(flags := s.af.flags.(n := false, h := Wrap16(sum) % 0x1000 + operand % 0x1000 > 0x0FFF, c := sum > 0xFFFF)))
      && o.regs.hl.Full() == Wrap16(sum) && o.mem == m && o.cycles == 2
  {
    var v := GetR16(s, rr);
    var sum := s.hl.Full() + v;
    var hl' := Wrap16(sum);
    WordOfBytes(hl');
    var s1 := s.(hl := FromFull(hl'));
    var s2 := SetFlagOf(s1, FlagN, false);
    assert s2.hl.Full() == hl';
    var operand := if rr == HL then hl' else v;
    assert GetR16(s2, rr) == operand by {
      match rr
      case BC => assert s2.bc == s.bc;
      case DE => assert s2.de == s.de;
      case HL =>
      case SP => assert s2.sp == s.sp;
    }
    var h := hl' % 0x1000 + operand % 0x1000 > 0x0FFF;
    var s3 := SetFlagOf(s2, FlagH, h);
    var s4 := SetFlagOf(s3, FlagC, sum > 0xFFFF);
    assert I.AddHlR16(s, m, rr).regs == s4 by {
      match rr
      case BC =>
      case DE =>
      case HL =>
      case SP =>
    }
    assert s4 == s.(hl := FromFull(hl'), af := s.af.(flags := s.af.flags.(n := false, h := h, c := sum > 0xFFFF)));
  }

  /** ADD HL,HL doubles HL, and H tests the doubled low 12 bits of the new HL. */
  lemma AddHlToItself(s: Regs, m: Image)
    ensures var o := I.AddHlR16(s, m, HL);
      var hl' := Wrap16(2 * s.hl.Full());
      o.regs.hl.Full() == hl' && Get(o.regs.af.flags, FlagH) == (2 * (hl' % 0x1000) > 0x0FFF)
      && Get(o.regs.af.flags, FlagC) == (2 * s.hl.Full() > 0xFFFF)
  {
    AddToHl(s, m, HL);
  }

  /** `e & 0x0FFF` and `uint32_t(e)` for a signed byte e, as the H and C
      tests of ADD SP,e use them. */
  lemma SignedOffsetCarries(sp: u16, e: int)
    requires -128 <= e < 128
    ensures (sp % 0x1000 + e % 0x1000 > 0x0FFF) == if e >= 0 then sp % 0x1000 + e > 0x0FFF else sp % 0x1000 + e >= 0
    ensures ((sp + e % 0x1_0000_0000) % 0x1_0000_0000 > 0xFFFF) == (sp + e > 0xFFFF || sp + e < 0)
  {
    if e < 0 {
      assert e % 0x1000 == 0x1000 + e;
      assert e % 0x1_0000_0000 == 0x1_0000_0000 + e;
    }
  }

  /** ADD SP,e: SP moves by the signed operand, Z and N cleared, PC past the
      operand. H and C look at the NEW SP: `e & 0x0FFF` is e mod 0x1000 and
      `uint32_t(e)` wraps a negative e, so H holds iff adding e once more to
      the low 12 bits of the new SP leaves [0, 0x1000) upwards (e >= 0) or
      stays in it (e < 0), and C iff adding e once more to the new SP leaves
      [0, 0x10000). */
  lemma AddToSp(s: Regs, m: Image)
    ensures var o := I.AddSpE(s, m);
      var e := Signed(ReadByte(m, s.pc));
      var sp' := Wrap16(s.sp + e);
      var h := if e >= 0 then sp' % 0x1000 + e > 0x0FFF else sp' % 0x1000 + e >= 0;
      var c := sp' + e > 0xFFFF || sp' + e < 0;
      o.regs == s.(pc := Wrap16(s.pc + 1), sp := sp', af := s.af.(flags := s.af.flags.(z := false, n := false, h := h, c := c)))
      && o.mem == m && o.cycles == 4
  {
    var e := Signed(ReadByte(m, s.pc));
    var sp' := Wrap16(s.sp + e);
    var h := if e >= 0 then sp' % 0x1000 + e > 0x0FFF else sp' % 0x1000 + e >= 0;
    var c := sp' + e > 0xFFFF || sp' + e < 0;
    SignedOffsetCarries(sp', e);
    var s3 := s.(pc := Wrap16(s.pc + 1), sp := sp', af := s.af.(flags := s.af.flags.(z := false, n := false)));
    assert I.AddSpE(s, m).regs == s3.(af := s3.af.(flags := s3.af.flags.(h := h, c := c)));
  }

  // ---------------------------------------------------------------------
  // Jumps

  /** A taken JR adds the signed operand to the PC after the operand and
      costs 3 cycles; a branch not taken costs 2 and leaves PC on the operand. */
  lemma RelativeJump(s: Regs, m: Image, cc: I.Cond)
    ensures var o := I.JrCc(s, m, cc);
      if I.Holds(s, cc) then
        o.regs == s.(pc := Wrap16(s.pc + 1 + Signed(ReadByte(m, s.pc)))) && o.cycles == 3
      else
        o.regs == s && o.cycles == 2
  {
    if I.Holds(s, cc) {
      var e := Signed(ReadByte(m, s.pc));
      assert Wrap16(Wrap16(s.pc + 1) + e) == Wrap16(s.pc + 1 + e);
    }
  }

  /** Where JP nn and JR NZ,e sit in the table. */
  lemma DecodeJumps(op: u8)
    requires op == JP_NN || op == JR_NZ_N
    ensures op == JP_NN ==> Decode(op) == JpNN
    ensures op == JR_NZ_N ==> Decode(op) == JrCc(I.CondNZ)
  {
    forall g | 12 < g <= BLOCKS ensures Block(g, op).None? { }
    if op == JP_NN {
      LastNamed(BLOCKS, 12, op, JpNN);
    } else {
      LastNamed(BLOCKS, 12, op, JrCc(I.CondNZ));
    }
  }

  /** Not-taken JR NZ,e steps PC only past its opcode, so PC is left on the
      operand: at 0xD000 it stops at 0xD001, where the test suite expects 0xD002. */
  lemma JrNotTakenStopsOnOperand(s: Regs, m: Image)
    requires ReadByte(m, s.pc) == JR_NZ_N && FlagOf(s, FlagZ)
    ensures Step(s, m) == I.Outcome(I.IncPc(s), m, 2)
    ensures s.pc == 0xD000 ==> Step(s, m).regs.pc == 0xD001
  {
    DecodeJumps(ReadByte(m, s.pc));
    assert Step(s, m) == I.JrCc(I.IncPc(s), m, I.CondNZ);
  }

  /** JP nn costs 4 cycles, where the test suite expects 3; PC becomes the operand. */
  lemma JpCostsFour(s: Regs, m: Image)
    requires ReadByte(m, s.pc) == JP_NN
    ensures Step(s, m).cycles == 4 && Step(s, m).regs.pc == I.Operand16(I.IncPc(s), m)
  {
    DecodeJumps(ReadByte(m, s.pc));
  }

  /** Conditional JP and CALL not taken return at once: 3 cycles, nothing changed. */
  lemma ConditionalNotTaken(s: Regs, m: Image, cc: I.Cond)
    requires !I.Holds(s, cc)
    ensures I.JpCc(s, m, cc) == I.Outcome(s, m, 3) && I.CallCc(s, m, cc) == I.Outcome(s, m, 3)
  {
  }

  // ---------------------------------------------------------------------
  // Calls and the stack

  /** CALL nn: SP down by 2, the return address (PC after the operand) stored
      low byte at SP and high byte at SP+1, PC := nn, 6 cycles. */
  lemma CallPushesReturnAddress(s: Regs, m: Image)
    requires Writable(Wrap16(s.sp - 2)) && Writable(Wrap16(s.sp - 1))
    ensures var o := I.CallNN(s, m);
      var ret := Wrap16(s.pc + 2);
      o.regs.sp == Wrap16(s.sp - 2) && o.regs.pc == I.Operand16(s, m) && o.cycles == 6
      && ReadByte(o.mem, Wrap16(s.sp - 2)) == LowByte(ret)
      && ReadByte(o.mem, Wrap16(s.sp - 1)) == HighByte(ret)
  {
    var sp' := Wrap16(s.sp - 2);
    var ret := Wrap16(s.pc + 2);
    assert Wrap16(sp' + 1) == Wrap16(s.sp - 1);
    var m1 := WriteByte(m, Wrap16(s.sp - 1), HighByte(ret));
    ReadAfterWrite(m, Wrap16(s.sp - 1), HighByte(ret));
    ReadAfterWrite(m1, sp', LowByte(ret));
    WriteFrame(m1, sp', LowByte(ret), Wrap16(s.sp - 1));
  }

  /** RET after CALL nn, with the stack in RAM, returns to the instruction
      after the CALL and restores SP. */
  lemma CallThenReturn(s: Regs, m: Image)
    requires Writable(Wrap16(s.sp - 2)) && Writable(Wrap16(s.sp - 1))
    ensures var c := I.CallNN(s, m);
      var r := I.Ret(c.regs, c.mem);
      r.regs == s.(pc := Wrap16(s.pc + 2)) && r.cycles == 4
  {
    CallPushesReturnAddress(s, m);
    var c := I.CallNN(s, m);
    assert Wrap16(c.regs.sp + 1) == Wrap16(s.sp - 1);
    assert Wrap16(c.regs.sp + 2) == s.sp;
    WordOfBytes(Wrap16(s.pc + 2));
  }

  /** PUSH BC puts B at SP-1 and C at SP-2, moves SP down by 2 and costs 4 cycles. */
  lemma PushStores(s: Regs, m: Image)
    requires Writable(Wrap16(s.sp - 2)) && Writable(Wrap16(s.sp - 1))
    ensures var p := I.PushBc(s, m);
      p.cycles == 4 && p.regs == s.(sp := Wrap16(s.sp - 2))
      && ReadByte(p.mem, Wrap16(s.sp - 1)) == s.bc.high && ReadByte(p.mem, Wrap16(s.sp - 2)) == s.bc.low
  {
    var sp1 := Wrap16(s.sp - 1);
    var sp2 := Wrap16(s.sp - 2);
    assert Wrap16(sp1 - 1) == sp2;
    var m1 := WriteByte(m, sp1, s.bc.high);
    ReadAfterWrite(m, sp1, s.bc.high);
    ReadAfterWrite(m1, sp2, s.bc.low);
    WriteFrame(m1, sp2, s.bc.low, sp1);
  }

  /** POP BC after PUSH BC, with the stack in RAM, restores BC and SP in 3 cycles. */
  lemma PushThenPop(s: Regs, m: Image)
    requires Writable(Wrap16(s.sp - 2)) && Writable(Wrap16(s.sp - 1))
    ensures var p := I.PushBc(s, m);
      var q := I.PopBc(p.regs, p.mem);
      q.regs == s && q.cycles == 3
  {
    PushStores(s, m);
    var sp2 := Wrap16(s.sp - 2);
    assert Wrap16(sp2 + 1) == Wrap16(s.sp - 1) && Wrap16(Wrap16(s.sp - 1) + 1) == s.sp;
  }
}
