// `gb::cpu` of core/src/cpu.h and core/src/cpu.cpp as a class: the register
// fields, the 256-slot dispatch table and the handler methods, each updating
// the fields statement by statement as the C++ does. Every handler is proved
// to leave the state its function in `Instructions` describes, and `Execute`
// to leave the state `Dispatch.Step` describes.

module Cpu {
  import opened Bits
  import opened Memory
  import opened Registers
  import opened Opcodes
  import I = Instructions
  import D = Dispatch

  class Cpu {
    var af: AfRegister
    var bc: Register16
    var de: Register16
    var hl: Register16
    var sp: u16
    var pc: u16
    const table: array<D.Handler>

    /** The register fields as a value. */
    function State(): Regs
      reads this
    {
      Regs(af, bc, de, hl, sp, pc)
    }

    /** The registers, the bus contents and a handler's cycle count, as the
        functions of `Instructions` describe them. */
    function Result(mem: MemoryMap, cycles: nat): I.Outcome
      reads this, mem.rom, mem.wram, mem.hram
      requires mem.Valid()
    {
      I.Outcome(State(), mem.Snapshot(), cycles)
    }

    /** The table holds what `init_instruction_table` put in it. */
    ghost predicate Valid()
      reads this, table
    {
      table.Length == 256 && forall op: u8 {:trigger table[op]} :: table[op] == D.Decode(op)
    }

    /** The table once the first `g` blocks of `init_instruction_table` have run. */
    ghost predicate Stage(g: nat)
      requires g <= D.BLOCKS
      reads this, table
    {
      table.Length == 256 && forall op: u8 {:trigger D.TableAfter(g, op)} :: table[op] == D.TableAfter(g, op)
    }

    /** The constructor: every register zero, then the table, then the
        power-up values. */
    constructor ()
      ensures Valid() && fresh(table)
      ensures State() == PowerUp()
    {
      af, bc, de, hl := AfFromFull(0), Register16(0, 0), Register16(0, 0), Register16(0, 0);
      sp, pc := 0, 0;
      table := new D.Handler[256];
      new;
      InitInstructionTable();
      PowerUpSequence();
    }

    /** `power_up_sequence` */
    method PowerUpSequence()
      modifies this
      ensures State() == PowerUp()
    {
      sp := 0xFFFE;
      pc := 0x0000;
      af := AfFromFull(0x01B0);
      bc := FromFull(0x0013);
      de := FromFull(0x00D8);
      hl := FromFull(0x014D);
    }

    /** `init_instruction_table`: fill every slot with `invalid_opcode`, then
        run the blocks of assignments in order. */
    method InitInstructionTable()
      requires table.Length == 256
      modifies table
      ensures Valid()
    {
      forall op | 0 <= op < 256 {
        table[op] := D.InvalidOpcode;
      }
      assert Stage(0);
      RegisterNop();
      RegisterAdc();
      RegisterAdd();
      RegisterAdd16();
      RegisterAndMemory();
      RegisterCompare();
      RegisterLoads();
      RegisterLoadImmediate();
      RegisterLoadsToAB();
      RegisterLoadsToCDE();
      RegisterLoadsToHL();
      RegisterJumps();
      RegisterCalls();
      RegisterIncrements();
      RegisterDecrements();
      RegisterAnd();
      RegisterOr();
      RegisterXor();
    }

    /** Lines 41-41 of `init_instruction_table`: NOP. */
    method RegisterNop()
      requires Stage(0)
      modifies table
      ensures Stage(1)
    {
      ghost var before := table[..];
      table[NOP] := D.Nop;
      D.NopSlots(before, table[..]);
    }

    /** Lines 43-52 of `init_instruction_table`: the ADC handlers. */
    method RegisterAdc()
      requires Stage(1)
      modifies table
      ensures Stage(2)
    {
      ghost var before := table[..];
      table[ADC_A_A] := D.AdcAR8(A);
      table[ADC_A_B] := D.AdcAR8(B);
      table[ADC_A_C] := D.AdcAR8(C);
      table[ADC_A_D] := D.AdcAR8(D);
      table[ADC_A_E] := D.AdcAR8(E);
      table[ADC_A_H] := D.AdcAR8(H);
      table[ADC_A_L] := D.AdcAR8(L);
      table[ADC_A_HL] := D.AdcAHlMem;
      table[ADC_A_N] := D.AdcAN;
      D.AdcSlots(before, table[..]);
    }

    /** Lines 54-63 of `init_instruction_table`: the ADD A handlers. */
    method RegisterAdd()
      requires Stage(2)
      modifies table
      ensures Stage(3)
    {
      ghost var before := table[..];
      table[ADD_A_A] := D.AddAR8(A);
      table[ADD_A_B] := D.AddAR8(B);
      table[ADD_A_C] := D.AddAR8(C);
      table[ADD_A_D] := D.AddAR8(D);
      table[ADD_A_E] := D.AddAR8(E);
      table[ADD_A_H] := D.AddAR8(H);
      table[ADD_A_L] := D.AddAR8(L);
      table[ADD_A_HL] := D.AddAHlMem;
      table[ADD_A_N] := D.AddAN;
      D.AddSlots(before, table[..]);
    }

    /** Lines 65-69 of `init_instruction_table`: ADD HL,rr and ADD SP,e. */
    method RegisterAdd16()
      requires Stage(3)
      modifies table
      ensures Stage(4)
    {
      ghost var before := table[..];
      table[ADD_HL_BC] := D.AddHlR16(BC);
      table[ADD_HL_DE] := D.AddHlR16(DE);
      table[ADD_HL_HL] := D.AddHlR16(HL);
      table[ADD_HL_SP] := D.AddHlR16(SP);
      table[ADD_SP_N] := D.AddSpE;
      D.Add16Slots(before, table[..]);
    }

    /** Lines 71-72 of `init_instruction_table`: AND (HL) and AND n. */
    method RegisterAndMemory()
      requires Stage(4)
      modifies table
      ensures Stage(5)
    {
      ghost var before := table[..];
      table[AND_HL] := D.AndAHlMem;
      table[AND_N] := D.AndAN;
      D.AndMemorySlots(before, table[..]);
    }

    /** Lines 74-83 of `init_instruction_table`: CP and CPL. */
    method RegisterCompare()
      requires Stage(5)
      modifies table
      ensures Stage(6)
    {
      ghost var before := table[..];
      table[CP_A] := D.CpAR8(A);
      table[CP_B] := D.CpAR8(B);
      table[CP_C] := D.CpAR8(C);
      table[CP_D] := D.CpAR8(D);
      table[CP_E] := D.CpAR8(E);
      table[CP_H] := D.CpAR8(H);
      table[CP_L] := D.CpAR8(L);
      table[CP_HL] := D.CpAHlMem;
      table[CP_N] := D.CpAN;
      table[CPL] := D.Cpl;
      D.CompareSlots(before, table[..]);
    }

    /** Lines 85-91 of `init_instruction_table`: the 16-bit and memory loads. */
    method RegisterLoads()
      requires Stage(6)
      modifies table
      ensures Stage(7)
    {
      ghost var before := table[..];
      table[LD_SP_NN] := D.LdR16NN(SP);
      table[LD_BC_NN] := D.LdR16NN(BC);
      table[LD_HL_NN] := D.LdR16NN(HL);
      table[LD_MM_A] := D.LdNNA;
      table[LD_HLD_A] := D.LdHldA;
      table[LD_A_N] := D.LdAN;
      table[LD_A_MM] := D.LdANN;
      D.LoadsSlots(before, table[..]);
    }

    /** Lines 93-99 of `init_instruction_table`: LD r,n, replacing LD A,n. */
    method RegisterLoadImmediate()
      requires Stage(7)
      modifies table
      ensures Stage(8)
    {
      ghost var before := table[..];
      table[LD_A_N] := D.LdR8N(A);
      table[LD_B_N] := D.LdR8N(B);
      table[LD_C_N] := D.LdR8N(C);
      table[LD_D_N] := D.LdR8N(D);
      table[LD_E_N] := D.LdR8N(E);
      table[LD_H_N] := D.LdR8N(H);
      table[LD_L_N] := D.LdR8N(L);
      D.LoadImmediateSlots(before, table[..]);
    }

    /** Lines 101-113 of `init_instruction_table`: LD A,r and LD B,r. */
    method RegisterLoadsToAB()
      requires Stage(8)
      modifies table
      ensures Stage(9)
    {
      ghost var before := table[..];
      table[LD_A_A] := D.LdR8R8(A, A);
      table[LD_A_B] := D.LdR8R8(A, B);
      table[LD_A_C] := D.LdR8R8(A, C);
      table[LD_A_D] := D.LdR8R8(A, D);
      table[LD_A_E] := D.LdR8R8(A, E);
      table[LD_A_H] := D.LdR8R8(A, H);
      table[LD_A_L] := D.LdR8R8(A, L);
      table[LD_B_B] := D.LdR8R8(B, B);
      table[LD_B_C] := D.LdR8R8(B, C);
      table[LD_B_D] := D.LdR8R8(B, D);
      table[LD_B_E] := D.LdR8R8(B, E);
      table[LD_B_H] := D.LdR8R8(B, H);
      table[LD_B_L] := D.LdR8R8(B, L);
      D.LoadsToABSlots(before, table[..]);
    }

    /** Lines 114-129 of `init_instruction_table`: LD C,r, LD D,r and LD E,r. */
    method RegisterLoadsToCDE()
      requires Stage(9)
      modifies table
      ensures Stage(10)
    {
      ghost var before := table[..];
      table[LD_C_C] := D.LdR8R8(C, C);
      table[LD_C_D] := D.LdR8R8(C, D);
      table[LD_C_E] := D.LdR8R8(C, E);
      table[LD_C_H] := D.LdR8R8(C, H);
      table[LD_C_L] := D.LdR8R8(C, L);
      table[LD_D_D] := D.LdR8R8(D, D);
      table[LD_D_E] := D.LdR8R8(D, E);
      table[LD_D_H] := D.LdR8R8(D, H);
      table[LD_D_L] := D.LdR8R8(D, L);
      table[LD_E_A] := D.LdR8R8(E, A);
      table[LD_E_B] := D.LdR8R8(E, B);
      table[LD_E_C] := D.LdR8R8(E, C);
      table[LD_E_D] := D.LdR8R8(E, D);
      table[LD_E_E] := D.LdR8R8(E, E);
      table[LD_E_H] := D.LdR8R8(E, H);
      table[LD_E_L] := D.LdR8R8(E, L);
      D.LoadsToCDESlots(before, table[..]);
    }

    /** Lines 130-143 of `init_instruction_table`: LD H,r and LD L,r. */
    method RegisterLoadsToHL()
      requires Stage(10)
      modifies table
      ensures Stage(11)
    {
      ghost var before := table[..];
      table[LD_H_A] := D.LdR8R8(H, A);
      table[LD_H_B] := D.LdR8R8(H, B);
      table[LD_H_C] := D.LdR8R8(H, C);
      table[LD_H_D] := D.LdR8R8(H, D);
      table[LD_H_E] := D.LdR8R8(H, E);
      table[LD_H_H] := D.LdR8R8(H, H);
      table[LD_H_L] := D.LdR8R8(H, L);
      table[LD_L_A] := D.LdR8R8(L, A);
      table[LD_L_B] := D.LdR8R8(L, B);
      table[LD_L_C] := D.LdR8R8(L, C);
      table[LD_L_D] := D.LdR8R8(L, D);
      table[LD_L_E] := D.LdR8R8(L, E);
      table[LD_L_H] := D.LdR8R8(L, H);
      table[LD_L_L] := D.LdR8R8(L, L);
      D.LoadsToHLSlots(before, table[..]);
    }

    /** Lines 145-155 of `init_instruction_table`: JP and JR. */
    method RegisterJumps()
      requires Stage(11)
      modifies table
      ensures Stage(12)
    {
      ghost var before := table[..];
      table[JP_NN] := D.JpNN;
      table[JP_NZ_NN] := D.JpCc(I.CondNZ);
      table[JP_Z_NN] := D.JpCc(I.CondZ);
      table[JP_NC_NN] := D.JpCc(I.CondNC);
      table[JP_C_NN] := D.JpCc(I.CondC);
      table[JP_HL] := D.JpHl;
      table[JR_N] := D.JrE;
      table[JR_NZ_N] := D.JrCc(I.CondNZ);
      table[JR_Z_N] := D.JrCc(I.CondZ);
      table[JR_NC_N] := D.JrCc(I.CondNC);
      table[JR_C_N] := D.JrCc(I.CondC);
      D.JumpsSlots(before, table[..]);
    }

    /** Lines 157-165 of `init_instruction_table`: CALL, CCF, RET, PUSH BC and POP BC. */
    method RegisterCalls()
      requires Stage(12)
      modifies table
      ensures Stage(13)
    {
      ghost var before := table[..];
      table[CALL_NN] := D.CallNN;
      table[CALL_NZ_NN] := D.CallCc(I.CondNZ);
      table[CALL_Z_NN] := D.CallCc(I.CondZ);
      table[CALL_NC_NN] := D.CallCc(I.CondNC);
      table[CALL_C_NN] := D.CallCc(I.CondC);
      table[CCF] := D.Ccf;
      table[RET] := D.Ret;
      table[PUSH_BC] := D.PushBc;
      table[POP_BC] := D.PopBc;
      D.CallsSlots(before, table[..]);
    }

    /** Lines 167-178 of `init_instruction_table`: INC. */
    method RegisterIncrements()
      requires Stage(13)
      modifies table
      ensures Stage(14)
    {
      ghost var before := table[..];
      table[INC_A] := D.IncR8(A);
      table[INC_B] := D.IncR8(B);
      table[INC_C] := D.IncR8(C);
      table[INC_D] := D.IncR8(D);
      table[INC_E] := D.IncR8(E);
      table[INC_H] := D.IncR8(H);
      table[INC_L] := D.IncR8(L);
      table[INC_BC] := D.IncR16(BC);
      table[INC_DE] := D.IncR16(DE);
      table[INC_HL] := D.IncR16(HL);
      table[INC_SP] := D.IncR16(SP);
      table[INC_HL_MEM] := D.IncHlMem;
      D.IncrementsSlots(before, table[..]);
    }

    /** Lines 180-191 of `init_instruction_table`: DEC. */
    method RegisterDecrements()
      requires Stage(14)
      modifies table
      ensures Stage(15)
    {
      ghost var before := table[..];
      table[DEC_A] := D.DecR8(A);
      table[DEC_B] := D.DecR8(B);
      table[DEC_C] := D.DecR8(C);
      table[DEC_D] := D.DecR8(D);
      table[DEC_E] := D.DecR8(E);
      table[DEC_H] := D.DecR8(H);
      table[DEC_L] := D.DecR8(L);
      table[DEC_BC] := D.DecR16(BC);
      table[DEC_DE] := D.DecR16(DE);
      table[DEC_HL] := D.DecR16(HL);
      table[DEC_SP] := D.DecR16(SP);
      table[DEC_HL_MEM] := D.DecHlMem;
      D.DecrementsSlots(before, table[..]);
    }

    /** Lines 193-199 of `init_instruction_table`: AND r. */
    method RegisterAnd()
      requires Stage(15)
      modifies table
      ensures Stage(16)
    {
      ghost var before := table[..];
      table[AND_A] := D.AndAR8(A);
      table[AND_B] := D.AndAR8(B);
      table[AND_C] := D.AndAR8(C);
      table[AND_D] := D.AndAR8(D);
      table[AND_E] := D.AndAR8(E);
      table[AND_H] := D.AndAR8(H);
      table[AND_L] := D.AndAR8(L);
      D.AndSlots(before, table[..]);
    }

    /** Lines 201-207 of `init_instruction_table`: OR r. */
    method RegisterOr()
      requires Stage(16)
      modifies table
      ensures Stage(17)
    {
      ghost var before := table[..];
      table[OR_A] := D.OrAR8(A);
      table[OR_B] := D.OrAR8(B);
      table[OR_C] := D.OrAR8(C);
      table[OR_D] := D.OrAR8(D);
      table[OR_E] := D.OrAR8(E);
      table[OR_H] := D.OrAR8(H);
      table[OR_L] := D.OrAR8(L);
      D.OrSlots(before, table[..]);
    }

    /** Lines 209-215 of `init_instruction_table`: XOR r. */
    method RegisterXor()
      requires Stage(17)
      modifies table
      ensures Stage(18)
    {
      ghost var before := table[..];
      table[XOR_A] := D.XorAR8(A);
      table[XOR_B] := D.XorAR8(B);
      table[XOR_C] := D.XorAR8(C);
      table[XOR_D] := D.XorAR8(D);
      table[XOR_E] := D.XorAR8(E);
      table[XOR_H] := D.XorAR8(H);
      table[XOR_L] := D.XorAR8(L);
      D.XorSlots(before, table[..]);
    }

    // -------------------------------------------------------------------
    // Register access

    /** `get_flag(f)` */
    function GetFlag(f: Flag): bool
      reads this
    {
      FlagOf(State(), f)
    }

    /** `set_flag(f, value)`: sets or clears bit f of AF.full and returns `value`. */
    method SetFlag(f: Flag, value: bool) returns (r: bool)
      modifies this
      ensures State() == SetFlagOf(old(State()), f, value)
      ensures r == value
    {
      af := Registers.SetFlag(af, f, value);
      return value;
    }

    /** `get_r8<reg>()` read */
    function GetR8(r: R8): u8
      reads this
    {
      Registers.GetR8(State(), r)
    }

    /** `get_r8<reg>() = v` */
    method SetR8(r: R8, v: u8)
      modifies this
      ensures State() == Registers.SetR8(old(State()), r, v)
    {
      match r
      case A => af := af.(high := v);
      case B => bc := bc.(high := v);
      case C => bc := bc.(low := v);
      case D => de := de.(high := v);
      case E => de := de.(low := v);
      case H => hl := hl.(high := v);
      case L => hl := hl.(low := v);
    }

    /** `get_r16<reg>().full` read */
    function GetR16(rr: R16): u16
      reads this
    {
      Registers.GetR16(State(), rr)
    }

    /** `get_r16<reg>().full = v` */
    method SetR16(rr: R16, v: u16)
      modifies this
      ensures State() == Registers.SetR16(old(State()), rr, v)
    {
      match rr
      case BC => bc := FromFull(v);
      case DE => de := FromFull(v);
      case HL => hl := FromFull(v);
      case SP => sp := v;
    }

    // -------------------------------------------------------------------
    // execute

    /** `execute`: fetch the opcode at PC, step PC past it and run the slot's
        handler; the 0xCB prefix runs nothing. Returns the machine cycles. */
    method Execute(mem: MemoryMap) returns (cycles: nat)
      requires Valid() && mem.Valid()
      modifies this, mem.wram, mem.hram
      ensures Valid()
      ensures Result(mem, cycles) == D.Step(old(State()), old(mem.Snapshot()))
    {
      ghost var s, m := State(), mem.Snapshot();
      var opcode := mem.Read(pc);
      pc := Wrap16(pc + 1);
      cycles := 0;
      assert State() == I.IncPc(s);
      if opcode == CB_PREFIX {
        // prefixed instructions are not implemented
      } else {
        assert table[opcode] == D.Decode(opcode);
        var handlerCycles := Call(table[opcode], mem);
        cycles := cycles + handlerCycles;
      }
    }

    /** `(this->*instruction_table[opcode])(mem)`: calling through a slot. */
    method Call(h: D.Handler, mem: MemoryMap) returns (cycles: nat)
      requires mem.Valid()
      modifies this, mem.wram, mem.hram
      ensures Result(mem, cycles) == D.Run(h, old(State()), old(mem.Snapshot()))
    {
      if D.IsArithmetic(h) {
        cycles := CallArithmetic(h, mem);
      } else {
        cycles := CallTransfer(h, mem);
      }
    }

    /** Calling through a slot that holds one of the arithmetic, logic,
        compare, increment or decrement handlers. */
    method CallArithmetic(h: D.Handler, mem: MemoryMap) returns (cycles: nat)
      requires mem.Valid() && D.IsArithmetic(h)
      modifies this, mem.wram, mem.hram
      ensures Result(mem, cycles) == D.RunArithmetic(h, old(State()), old(mem.Snapshot()))
    {
      match h
      case AdcAR8(r) => cycles := AdcAR8(mem, r);
      case AdcAHlMem => cycles := AdcAHlMem(mem);
      case AdcAN => cycles := AdcAN(mem);
      case AddAR8(r) => cycles := AddAR8(mem, r);
      case AddAHlMem => cycles := AddAHlMem(mem);
      case AddAN => cycles := AddAN(mem);
      case AddHlR16(rr) => cycles := AddHlR16(mem, rr);
      case AddSpE => cycles := AddSpE(mem);
      case AndAR8(r) => cycles := AndAR8(mem, r);
      case AndAHlMem => cycles := AndAHlMem(mem);
      case AndAN => cycles := AndAN(mem);
      case OrAR8(r) => cycles := OrAR8(mem, r);
      case XorAR8(r) => cycles := XorAR8(mem, r);
      case CpAR8(r) => cycles := CpAR8(mem, r);
      case CpAHlMem => cycles := CpAHlMem(mem);
      case CpAN => cycles := CpAN(mem);
      case Cpl => cycles := Cpl(mem);
      case Ccf => cycles := Ccf(mem);
      case Daa => cycles := Daa(mem);
      case IncR8(r) => cycles := IncR8(mem, r);
      case DecR8(r) => cycles := DecR8(mem, r);
      case IncR16(rr) => cycles := IncR16(mem, rr);
      case DecR16(rr) => cycles := DecR16(mem, rr);
      case IncHlMem => cycles := IncHlMem(mem);
      case DecHlMem => cycles := DecHlMem(mem);
    }

    /** Calling through a slot that holds any other handler. */
    method CallTransfer(h: D.Handler, mem: MemoryMap) returns (cycles: nat)
      requires mem.Valid() && !D.IsArithmetic(h)
      modifies this, mem.wram, mem.hram
      ensures Result(mem, cycles) == D.RunTransfer(h, old(State()), old(mem.Snapshot()))
    {
      match h
      case InvalidOpcode => cycles := InvalidOpcode(mem);
      case Nop => cycles := Nop(mem);
      case LdR16NN(rr) => cycles := LdR16NN(mem, rr);
      case LdR8N(r) => cycles := LdR8N(mem, r);
      case LdR8R8(dst, src) => cycles := LdR8R8(mem, dst, src);
      case LdNNA => cycles := LdNNA(mem);
      case LdHldA => cycles := LdHldA(mem);
      case LdAN => cycles := LdAN(mem);
      case LdANN => cycles := LdANN(mem);
      case JpNN => cycles := JpNN(mem);
      case JpCc(cc) => cycles := JpCc(mem, cc);
      case JpHl => cycles := JpHl(mem);
      case JrE => cycles := JrE(mem);
      case JrCc(cc) => cycles := JrCc(mem, cc);
      case CallNN => cycles := CallNN(mem);
      case CallCc(cc) => cycles := CallCc(mem, cc);
      case Ret => cycles := Ret(mem);
      case PushBc => cycles := PushBc(mem);
      case PopBc => cycles := PopBc(mem);
    }

    // -------------------------------------------------------------------
    // Miscellaneous

    /** `invalid_opcode` */
    method InvalidOpcode(mem: MemoryMap) returns (cycles: nat)
      requires mem.Valid()
      ensures Result(mem, cycles) == I.InvalidOpcode(State(), mem.Snapshot())
    {
      return 0;
    }

    /** `nop` */
    method Nop(mem: MemoryMap) returns (cycles: nat)
      requires mem.Valid()
      ensures Result(mem, cycles) == I.Nop(State(), mem.Snapshot())
    {
      return 1;
    }

    // -------------------------------------------------------------------
    // 8-bit additions

    /** `adc_a_r8<reg>` */
    method AdcAR8(mem: MemoryMap, r: R8) returns (cycles: nat)
      requires mem.Valid()
      modifies this
      ensures Result(mem, cycles) == I.AdcAR8(old(State()), mem.Snapshot(), r)
    {
      var origValue := af.high;
      var toAdd := GetR8(r);
      var result := origValue as int + toAdd + I.B2I(GetFlag(FlagC));
      af := af.(high := Wrap8(result));
      af := ClearLow(af);
      var _ := SetFlag(FlagZ, af.high == 0);
      var _ := SetFlag(FlagN, false);
      var _ := SetFlag(FlagH, origValue % 0x10 + toAdd % 0x10 + I.B2I(GetFlag(FlagC)) > 0x0F);
      var _ := SetFlag(FlagC, result > 0xFF);
      return 1;
    }

    /** `adc_a_hl_mem` */
    method AdcAHlMem(mem: MemoryMap) returns (cycles: nat)
      requires mem.Valid()
      modifies this
      ensures Result(mem, cycles) == I.AdcAHlMem(old(State()), mem.Snapshot())
    {
      var result := af.high as int + mem.Read(hl.Full()) + I.B2I(GetFlag(FlagC));
      af := af.(high := Wrap8(result));
      af := ClearLow(af);
      var _ := SetFlag(FlagZ, af.high == 0);
      var _ := SetFlag(FlagN, false);
      var _ := SetFlag(FlagH, af.high % 0x10 + mem.Read(hl.Full()) % 0x10 + I.B2I(GetFlag(FlagC)) > 0x0F);
      var _ := SetFlag(FlagC, result > 0xFF);
      return 2;
    }

    /** `adc_a_n` */
    method AdcAN(mem: MemoryMap) returns (cycles: nat)
      requires mem.Valid()
      modifies this
      ensures Result(mem, cycles) == I.AdcAN(old(State()), mem.Snapshot())
    {
      ghost var s := State();
      ghost var m := mem.Snapshot();
      var operand := mem.Read(pc);
      assert operand == ReadByte(m, s.pc);
      pc := Wrap16(pc + 1);
      var result := af.high as int + operand + I.B2I(GetFlag(FlagC));
      af := af.(high := Wrap8(result));
      af := ClearLow(af);
      var _ := SetFlag(FlagZ, af.high == 0);
      var _ := SetFlag(FlagN, false);
      ghost var s0 := I.IncPc(s);
      ghost var s1 := s0.(af := ClearLow(s0.af.(high := Wrap8(s.af.high + ReadByte(m, s.pc) + I.B2I(FlagOf(s, FlagC))))));
      ghost var s3 := State();
      assert s3 == SetFlagOf(SetFlagOf(s1, FlagZ, s1.af.high == 0), FlagN, false);
      var second := mem.Read(pc);
      assert second == ReadByte(m, s3.pc);
      pc := Wrap16(pc + 1);
      var _ := SetFlag(FlagH, af.high % 0x10 + second % 0x10 + I.B2I(GetFlag(FlagC)) > 0x0F);
      var _ := SetFlag(FlagC, result > 0xFF);
      return 2;
    }

    /** `add_a_r8<reg>` */
    method AddAR8(mem: MemoryMap, r: R8) returns (cycles: nat)
      requires mem.Valid()
      modifies this
      ensures Result(mem, cycles) == I.AddAR8(old(State()), mem.Snapshot(), r)
    {
      var origValue := af.high;
      var toAdd := GetR8(r);
      var result: int := origValue as int + toAdd;
      af := af.(high := Wrap8(result));
      af := ClearLow(af);
      var _ := SetFlag(FlagZ, af.high == 0);
      var _ := SetFlag(FlagN, false);
      var _ := SetFlag(FlagH, origValue % 0x10 + toAdd % 0x10 > 0x0F);
      var _ := SetFlag(FlagC, result > 0xFF);
      return 1;
    }

    /** `add_a_hl_mem` */
    method AddAHlMem(mem: MemoryMap) returns (cycles: nat)
      requires mem.Valid()
      modifies this
      ensures Result(mem, cycles) == I.AddAHlMem(old(State()), mem.Snapshot())
    {
      var result := af.high as int + mem.Read(hl.Full());
      af := af.(high := Wrap8(result));
      af := ClearLow(af);
      var _ := SetFlag(FlagZ, af.high == 0);
      var _ := SetFlag(FlagN, false);
      var _ := SetFlag(FlagH, af.high % 0x10 + mem.Read(hl.Full()) % 0x10 > 0x0F);
      var _ := SetFlag(FlagC, result > 0xFF);
      return 2;
    }

    /** `add_a_n` */
    method AddAN(mem: MemoryMap) returns (cycles: nat)
      requires mem.Valid()
      modifies this
      ensures Result(mem, cycles) == I.AddAN(old(State()), mem.Snapshot())
    {
      var operand := mem.Read(pc);
      pc := Wrap16(pc + 1);
      var result := af.high as int + operand;
      af := af.(high := Wrap8(result));
      af := ClearLow(af);
      var _ := SetFlag(FlagZ, af.high == 0);
      var _ := SetFlag(FlagN, false);
      var second := mem.Read(pc);
      pc := Wrap16(pc + 1);
      var _ := SetFlag(FlagH, af.high % 0x10 + second % 0x10 > 0x0F);
      var _ := SetFlag(FlagC, result > 0xFF);
      return 2;
    }

    // -------------------------------------------------------------------
    // 16-bit additions

    /** `add_hl_r16<reg>` */
    method AddHlR16(mem: MemoryMap, rr: R16) returns (cycles: nat)
      requires mem.Valid()
      modifies this
      ensures Result(mem, cycles) == I.AddHlR16(old(State()), mem.Snapshot(), rr)
    {
      ghost var s := State();
      var result: int := hl.Full() as int + GetR16(rr);
      hl := FromFull(Wrap16(result));
      var _ := SetFlag(FlagN, false);
      ghost var s2 := State();
      assert s2 == SetFlagOf(s.(hl := FromFull(Wrap16(s.hl.Full() + Registers.GetR16(s, rr)))), FlagN, false);
      var _ := SetFlag(FlagH, hl.Full() % 0x1000 + GetR16(rr) % 0x1000 > 0x0FFF);
      var _ := SetFlag(FlagC, result > 0xFFFF);
      return 2;
    }

    /** `add_sp_e` */
    method AddSpE(mem: MemoryMap) returns (cycles: nat)
      requires mem.Valid()
      modifies this
      ensures Result(mem, cycles) == I.AddSpE(old(State()), mem.Snapshot())
    {
      var e := Signed(mem.Read(pc));
      pc := Wrap16(pc + 1);
      sp := Wrap16(sp as int + e);
      var _ := SetFlag(FlagZ, false);
      var _ := SetFlag(FlagN, false);
      var _ := SetFlag(FlagH, sp % 0x1000 + e % 0x1000 > 0x0FFF);
      var _ := SetFlag(FlagC, (sp + e % 0x1_0000_0000) % 0x1_0000_0000 > 0xFFFF);
      return 4;
    }

    // -------------------------------------------------------------------
    // Logic

    /** `and_a_r8<reg>` */
    method AndAR8(mem: MemoryMap, r: R8) returns (cycles: nat)
      requires mem.Valid()
      modifies this
      ensures Result(mem, cycles) == I.AndAR8(old(State()), mem.Snapshot(), r)
    {
      af := af.(high := And8(af.high, GetR8(r)));
      AndFlags();
      return 1;
    }

    /** `and_a_hl_mem` */
    method AndAHlMem(mem: MemoryMap) returns (cycles: nat)
      requires mem.Valid()
      modifies this
      ensures Result(mem, cycles) == I.AndAHlMem(old(State()), mem.Snapshot())
    {
      var result := And8(af.high, mem.Read(hl.Full()));
      af := af.(high := result);
      AndFlags();
      return 2;
    }

    /** `and_a_n` */
    method AndAN(mem: MemoryMap) returns (cycles: nat)
      requires mem.Valid()
      modifies this
      ensures Result(mem, cycles) == I.AndAN(old(State()), mem.Snapshot())
    {
      var operand := mem.Read(pc);
      pc := Wrap16(pc + 1);
      af := af.(high := And8(af.high, operand));
      AndFlags();
      return 2;
    }

    /** The flag statements the three AND handlers share. */
    method AndFlags()
      modifies this
      ensures State() == I.AndFlags(old(State()), old(af.high))
    {
      af := ClearLow(af);
      var _ := SetFlag(FlagZ, af.high == 0);
      var _ := SetFlag(FlagN, false);
      var _ := SetFlag(FlagH, true);
      var _ := SetFlag(FlagC, false);
    }

    /** `or_a_r8<reg>` */
    method OrAR8(mem: MemoryMap, r: R8) returns (cycles: nat)
      requires mem.Valid()
      modifies this
      ensures Result(mem, cycles) == I.OrAR8(old(State()), mem.Snapshot(), r)
    {
      af := af.(high := Or8(af.high, GetR8(r)));
      af := ClearLow(af);
      var _ := SetFlag(FlagZ, af.high == 0);
      return 1;
    }

    /** `xor_a_r8<reg>` */
    method XorAR8(mem: MemoryMap, r: R8) returns (cycles: nat)
      requires mem.Valid()
      modifies this
      ensures Result(mem, cycles) == I.XorAR8(old(State()), mem.Snapshot(), r)
    {
      af := af.(high := Xor8(af.high, GetR8(r)));
      af := ClearLow(af);
      var _ := SetFlag(FlagZ, af.high == 0);
      return 1;
    }

    // -------------------------------------------------------------------
    // Compare and flag operations

    /** `cp_a_r8<reg>` */
    method CpAR8(mem: MemoryMap, r: R8) returns (cycles: nat)
      requires mem.Valid()
      modifies this
      ensures Result(mem, cycles) == I.CpAR8(old(State()), mem.Snapshot(), r)
    {
      var regValue := GetR8(r);
      CompareFlags(regValue);
      return 1;
    }

    /** `cp_a_hl_mem` */
    method CpAHlMem(mem: MemoryMap) returns (cycles: nat)
      requires mem.Valid()
      modifies this
      ensures Result(mem, cycles) == I.CpAHlMem(old(State()), mem.Snapshot())
    {
      var memValue := mem.Read(hl.Full());
      CompareFlags(memValue);
      return 2;
    }

    /** `cp_a_n` */
    method CpAN(mem: MemoryMap) returns (cycles: nat)
      requires mem.Valid()
      modifies this
      ensures Result(mem, cycles) == I.CpAN(old(State()), mem.Snapshot())
    {
      var memValue := mem.Read(pc);
      pc := Wrap16(pc + 1);
      CompareFlags(memValue);
      return 2;
    }

    /** The flag statements the three CP handlers share: A minus the operand,
        wrapped to a byte, sets Z; N is set; H and C are the borrows. */
    method CompareFlags(v: u8)
      modifies this
      ensures State() == I.CompareFlags(old(State()), v)
    {
      var aValue := af.high;
      var result := Wrap8(aValue as int - v);
      var _ := SetFlag(FlagZ, result == 0);
      var _ := SetFlag(FlagN, true);
      var _ := SetFlag(FlagH, aValue % 0x10 < v % 0x10);
      var _ := SetFlag(FlagC, aValue < v);
    }

    /** `cpl` */
    method Cpl(mem: MemoryMap) returns (cycles: nat)
      requires mem.Valid()
      modifies this
      ensures Result(mem, cycles) == I.Cpl(old(State()), mem.Snapshot())
    {
      af := af.(high := Not8(af.high));
      var _ := SetFlag(FlagN, true);
      var _ := SetFlag(FlagH, true);
      return 1;
    }

    /** `ccf` */
    method Ccf(mem: MemoryMap) returns (cycles: nat)
      requires mem.Valid()
      modifies this
      ensures Result(mem, cycles) == I.Ccf(old(State()), mem.Snapshot())
    {
      var _ := SetFlag(FlagN, false);
      var _ := SetFlag(FlagH, false);
      var _ := SetFlag(FlagC, !GetFlag(FlagC));
      return 1;
    }

    /** `daa` */
    method Daa(mem: MemoryMap) returns (cycles: nat)
      requires mem.Valid()
      modifies this
      ensures Result(mem, cycles) == I.Daa(old(State()), mem.Snapshot())
    {
      var adjustment := 0;
      var carry := GetFlag(FlagC);
      if GetFlag(FlagN) {
        if GetFlag(FlagH) {
          adjustment := adjustment + 0x06;
        }
        if carry {
          adjustment := adjustment + 0x60;
        }
        af := af.(high := Wrap8(af.high - adjustment));
      } else {
        if GetFlag(FlagH) || af.high % 0x10 > 0x9 {
          adjustment := adjustment + 0x06;
        }
        if carry || af.high > 0x99 {
          adjustment := adjustment + 0x60;
          carry := true;
        }
        af := af.(high := Wrap8(af.high + adjustment));
      }
      var _ := SetFlag(FlagZ, af.high == 0);
      var _ := SetFlag(FlagH, false);
      var _ := SetFlag(FlagC, carry);
      return 1;
    }

    // -------------------------------------------------------------------
    // Increment and decrement

    /** `inc_r8<reg>` */
    method IncR8(mem: MemoryMap, r: R8) returns (cycles: nat)
      requires mem.Valid()
      modifies this
      ensures Result(mem, cycles) == I.IncR8(old(State()), mem.Snapshot(), r)
    {
      var halfCarry := GetR8(r) % 0x10 == 0x0F;
      SetR8(r, Wrap8(GetR8(r) + 1));
      af := KeepCarryOnly(af);
      var _ := SetFlag(FlagZ, GetR8(r) == 0);
      var _ := SetFlag(FlagH, halfCarry);
      return 1;
    }

    /** `dec_r8<reg>` */
    method DecR8(mem: MemoryMap, r: R8) returns (cycles: nat)
      requires mem.Valid()
      modifies this
      ensures Result(mem, cycles) == I.DecR8(old(State()), mem.Snapshot(), r)
    {
      SetR8(r, Wrap8(GetR8(r) - 1));
      var v := GetR8(r);
      var _ := SetFlag(FlagZ, v == 0);
      var _ := SetFlag(FlagN, true);
      var _ := SetFlag(FlagH, v % 0x10 == 0);
      return 1;
    }

    /** `inc_r16<reg>` */
    method IncR16(mem: MemoryMap, rr: R16) returns (cycles: nat)
      requires mem.Valid()
      modifies this
      ensures Result(mem, cycles) == I.IncR16(old(State()), mem.Snapshot(), rr)
    {
      SetR16(rr, Wrap16(GetR16(rr) + 1));
      return 2;
    }

    /** `dec_r16<reg>` */
    method DecR16(mem: MemoryMap, rr: R16) returns (cycles: nat)
      requires mem.Valid()
      modifies this
      ensures Result(mem, cycles) == I.DecR16(old(State()), mem.Snapshot(), rr)
    {
      SetR16(rr, Wrap16(GetR16(rr) - 1));
      return 2;
    }

    /** `inc_hl_mem` */
    method IncHlMem(mem: MemoryMap) returns (cycles: nat)
      requires mem.Valid()
      modifies this, mem.wram, mem.hram
      ensures Result(mem, cycles) == I.IncHlMem(old(State()), old(mem.Snapshot()))
    {
      var value := mem.Read(hl.Full());
      var halfCarry := value % 0x10 == 0x0F;
      value := Wrap8(value as int + 1);
      mem.Write(hl.Full(), value);
      var _ := SetFlag(FlagZ, value == 0);
      var _ := SetFlag(FlagN, false);
      var _ := SetFlag(FlagH, halfCarry);
      return 4;
    }

    /** `dec_hl_mem` */
    method DecHlMem(mem: MemoryMap) returns (cycles: nat)
      requires mem.Valid()
      modifies this, mem.wram, mem.hram
      ensures Result(mem, cycles) == I.DecHlMem(old(State()), old(mem.Snapshot()))
    {
      var memValue := mem.Read(hl.Full());
      mem.Write(hl.Full(), Wrap8(memValue as int - 1));
      var _ := SetFlag(FlagZ, memValue as int - 1 == 0);
      var _ := SetFlag(FlagN, true);
      var _ := SetFlag(FlagH, (memValue as int - 1) % 0x10 == 0);
      return 3;
    }

    // -------------------------------------------------------------------
    // Loads

    /** `ld_r16_nn<reg>` */
    method LdR16NN(mem: MemoryMap, rr: R16) returns (cycles: nat)
      requires mem.Valid()
      modifies this
      ensures Result(mem, cycles) == I.LdR16NN(old(State()), mem.Snapshot(), rr)
    {
      if rr == SP {
        sp := Word(mem.Read(pc), mem.Read(Wrap16(pc + 1)));
        pc := Wrap16(pc + 2);
      } else {
        var low := mem.Read(pc);
        pc := Wrap16(pc + 1);
        var high := mem.Read(pc);
        pc := Wrap16(pc + 1);
        SetR16(rr, Word(low, high));
      }
      return 3;
    }

    /** `ld_r8_nn<reg>` */
    method LdR8N(mem: MemoryMap, r: R8) returns (cycles: nat)
      requires mem.Valid()
      modifies this
      ensures Result(mem, cycles) == I.LdR8N(old(State()), mem.Snapshot(), r)
    {
      var value := mem.Read(pc);
      pc := Wrap16(pc + 1);
      SetR8(r, value);
      return 2;
    }

    /** `ld_r8_r8<reg_1, reg_2>` */
    method LdR8R8(mem: MemoryMap, dst: R8, src: R8) returns (cycles: nat)
      requires mem.Valid()
      modifies this
      ensures Result(mem, cycles) == I.LdR8R8(old(State()), mem.Snapshot(), dst, src)
    {
      SetR8(dst, GetR8(src));
      return 1;
    }

    /** `ld_nn_a` */
    method LdNNA(mem: MemoryMap) returns (cycles: nat)
      requires mem.Valid()
      modifies this, mem.wram, mem.hram
      ensures Result(mem, cycles) == I.LdNNA(old(State()), old(mem.Snapshot()))
    {
      var address := Word(mem.Read(pc), mem.Read(Wrap16(pc + 1)));
      pc := Wrap16(pc + 2);
      mem.Write(address, af.high);
      return 4;
    }

    /** `ld_hld_a` */
    method LdHldA(mem: MemoryMap) returns (cycles: nat)
      requires mem.Valid()
      modifies this, mem.wram, mem.hram
      ensures Result(mem, cycles) == I.LdHldA(old(State()), old(mem.Snapshot()))
    {
      mem.Write(hl.Full(), af.high);
      hl := FromFull(Wrap16(hl.Full() - 1));
      return 2;
    }

    /** `ld_a_n` */
    method LdAN(mem: MemoryMap) returns (cycles: nat)
      requires mem.Valid()
      modifies this
      ensures Result(mem, cycles) == I.LdAN(old(State()), mem.Snapshot())
    {
      var value := mem.Read(pc);
      pc := Wrap16(pc + 1);
      af := af.(high := value);
      return 2;
    }

    /** `ld_a_nn` */
    method LdANN(mem: MemoryMap) returns (cycles: nat)
      requires mem.Valid()
      modifies this
      ensures Result(mem, cycles) == I.LdANN(old(State()), mem.Snapshot())
    {
      var address := Word(mem.Read(pc), mem.Read(Wrap16(pc + 1)));
      pc := Wrap16(pc + 2);
      af := af.(high := mem.Read(address));
      return 4;
    }

    // -------------------------------------------------------------------
    // Jumps, calls and the stack

    /** `jp_nn` */
    method JpNN(mem: MemoryMap) returns (cycles: nat)
      requires mem.Valid()
      modifies this
      ensures Result(mem, cycles) == I.JpNN(old(State()), mem.Snapshot())
    {
      pc := Word(mem.Read(pc), mem.Read(Wrap16(pc + 1)));
      return 4;
    }

    /** `jp_nz_nn`, `jp_z_nn`, `jp_nc_nn` and `jp_c_nn` */
    method JpCc(mem: MemoryMap, cc: I.Cond) returns (cycles: nat)
      requires mem.Valid()
      modifies this
      ensures Result(mem, cycles) == I.JpCc(old(State()), mem.Snapshot(), cc)
    {
      if !I.Holds(State(), cc) {
        return 3;
      }
      pc := Word(mem.Read(pc), mem.Read(Wrap16(pc + 1)));
      return 4;
    }

    /** `jp_hl` */
    method JpHl(mem: MemoryMap) returns (cycles: nat)
      requires mem.Valid()
      modifies this
      ensures Result(mem, cycles) == I.JpHl(old(State()), mem.Snapshot())
    {
      pc := hl.Full();
      return 1;
    }

    /** `jr_e` */
    method JrE(mem: MemoryMap) returns (cycles: nat)
      requires mem.Valid()
      modifies this
      ensures Result(mem, cycles) == I.JrE(old(State()), mem.Snapshot())
    {
      var offset := Signed(mem.Read(pc));
      pc := Wrap16(pc + 1);
      pc := Wrap16(pc + offset);
      return 3;
    }

    /** `jr_nz_n`, `jr_z_n`, `jr_nc_n` and `jr_c_n` */
    method JrCc(mem: MemoryMap, cc: I.Cond) returns (cycles: nat)
      requires mem.Valid()
      modifies this
      ensures Result(mem, cycles) == I.JrCc(old(State()), mem.Snapshot(), cc)
    {
      if !I.Holds(State(), cc) {
        return 2;
      }
      cycles := JrE(mem);
    }

    /** `call_nn` */
    method CallNN(mem: MemoryMap) returns (cycles: nat)
      requires mem.Valid()
      modifies this, mem.wram, mem.hram
      ensures Result(mem, cycles) == I.CallNN(old(State()), old(mem.Snapshot()))
    {
      ghost var s := State();
      ghost var m := mem.Snapshot();
      var targetAddress := Word(mem.Read(pc), mem.Read(Wrap16(pc + 1)));
      assert targetAddress == I.Operand16(s, m);
      pc := Wrap16(pc + 2);
      sp := Wrap16(sp - 2);
      ghost var s2 := s.(pc := Wrap16(s.pc + 2)).(sp := Wrap16(s.sp - 2));
      assert State() == s2;
      mem.Write(Wrap16(sp + 1), HighByte(pc));
      mem.Write(sp, LowByte(pc));
      pc := targetAddress;
      return 6;
    }

    /** `call_nz_nn`, `call_z_nn`, `call_nc_nn` and `call_c_nn` */
    method CallCc(mem: MemoryMap, cc: I.Cond) returns (cycles: nat)
      requires mem.Valid()
      modifies this, mem.wram, mem.hram
      ensures Result(mem, cycles) == I.CallCc(old(State()), old(mem.Snapshot()), cc)
    {
      if !I.Holds(State(), cc) {
        return 3;
      }
      cycles := CallNN(mem);
    }

    /** `ret` */
    method Ret(mem: MemoryMap) returns (cycles: nat)
      requires mem.Valid()
      modifies this
      ensures Result(mem, cycles) == I.Ret(old(State()), mem.Snapshot())
    {
      pc := Word(mem.Read(sp), mem.Read(Wrap16(sp + 1)));
      sp := Wrap16(sp + 2);
      return 4;
    }

    /** `push_bc` */
    method PushBc(mem: MemoryMap) returns (cycles: nat)
      requires mem.Valid()
      modifies this, mem.wram, mem.hram
      ensures Result(mem, cycles) == I.PushBc(old(State()), old(mem.Snapshot()))
    {
      sp := Wrap16(sp - 1);
      mem.Write(sp, bc.high);
      sp := Wrap16(sp - 1);
      mem.Write(sp, bc.low);
      return 4;
    }

    /** `pop_bc` */
    method PopBc(mem: MemoryMap) returns (cycles: nat)
      requires mem.Valid()
      modifies this
      ensures Result(mem, cycles) == I.PopBc(old(State()), mem.Snapshot())
    {
      bc := bc.(low := mem.Read(sp));
      sp := Wrap16(sp + 1);
      bc := bc.(high := mem.Read(sp));
      sp := Wrap16(sp + 1);
      return 3;
    }
  }
}
