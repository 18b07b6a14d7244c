// The 256-slot dispatch table of core/src/cpu.cpp and `cpu::execute`.
// `Handler` names what a table slot points to; `Decode` is the table that
// `init_instruction_table` builds.

module Dispatch {
  import opened Bits
  import opened Memory
  import opened Registers
  import opened Opcodes
  import I = Instructions

  /** The member-function pointers that can sit in a table slot. */
  datatype Handler =
    | InvalidOpcode | Nop
    | AdcAR8(r: R8) | AdcAHlMem | AdcAN
    | AddAR8(r: R8) | AddAHlMem | AddAN
    | AddHlR16(rr: R16) | AddSpE
    | AndAR8(r: R8) | AndAHlMem | AndAN
    | OrAR8(r: R8) | XorAR8(r: R8)
    | CpAR8(r: R8) | CpAHlMem | CpAN | Cpl | Ccf | Daa
    | IncR8(r: R8) | DecR8(r: R8) | IncR16(rr: R16) | DecR16(rr: R16) | IncHlMem | DecHlMem
    | LdR16NN(rr: R16) | LdR8N(r: R8) | LdR8R8(dst: R8, src: R8)
    | LdNNA | LdHldA | LdAN | LdANN
    | JpNN | JpCc(cc: I.Cond) | JpHl | JrE | JrCc(cc: I.Cond)
    | CallNN | CallCc(cc: I.Cond) | Ret | PushBc | PopBc

  /** The handlers of the arithmetic, logic, compare, increment and
      decrement sections of cpu.cpp. */
  predicate IsArithmetic(h: Handler)
  {
    match h
    case AdcAR8(_) => true
    case AdcAHlMem => true
    case AdcAN => true
    case AddAR8(_) => true
    case AddAHlMem => true
    case AddAN => true
    case AddHlR16(_) => true
    case AddSpE => true
    case AndAR8(_) => true
    case AndAHlMem => true
    case AndAN => true
    case OrAR8(_) => true
    case XorAR8(_) => true
    case CpAR8(_) => true
    case CpAHlMem => true
    case CpAN => true
    case Cpl => true
    case Ccf => true
    case Daa => true
    case IncR8(_) => true
    case DecR8(_) => true
    case IncR16(_) => true
    case DecR16(_) => true
    case IncHlMem => true
    case DecHlMem => true
    case _ => false
  }

  /** Calling the handler. */
  function Run(h: Handler, s: Regs, m: Image): I.Outcome
  {
    if IsArithmetic(h) then RunArithmetic(h, s, m) else RunTransfer(h, s, m)
  }

  /** Calling one of the arithmetic, logic, compare, increment or decrement handlers. */
  function RunArithmetic(h: Handler, s: Regs, m: Image): I.Outcome
    requires IsArithmetic(h)
  {
    match h
    case AdcAR8(r) => I.AdcAR8(s, m, r)
    case AdcAHlMem => I.AdcAHlMem(s, m)
    case AdcAN => I.AdcAN(s, m)
    case AddAR8(r) => I.AddAR8(s, m, r)
    case AddAHlMem => I.AddAHlMem(s, m)
    case AddAN => I.AddAN(s, m)
    case AddHlR16(rr) => I.AddHlR16(s, m, rr)
    case AddSpE => I.AddSpE(s, m)
    case AndAR8(r) => I.AndAR8(s, m, r)
    case AndAHlMem => I.AndAHlMem(s, m)
    case AndAN => I.AndAN(s, m)
    case OrAR8(r) => I.OrAR8(s, m, r)
    case XorAR8(r) => I.XorAR8(s, m, r)
    case CpAR8(r) => I.CpAR8(s, m, r)
    case CpAHlMem => I.CpAHlMem(s, m)
    case CpAN => I.CpAN(s, m)
    case Cpl => I.Cpl(s, m)
    case Ccf => I.Ccf(s, m)
    case Daa => I.Daa(s, m)
    case IncR8(r) => I.IncR8(s, m, r)
    case DecR8(r) => I.DecR8(s, m, r)
    case IncR16(rr) => I.IncR16(s, m, rr)
    case DecR16(rr) => I.DecR16(s, m, rr)
    case IncHlMem => I.IncHlMem(s, m)
    case DecHlMem => I.DecHlMem(s, m)
  }

  /** Calling one of the other handlers: the default, NOP, loads, jumps,
      calls and the stack. */
  function RunTransfer(h: Handler, s: Regs, m: Image): I.Outcome
    requires !IsArithmetic(h)
  {
    match h
    case InvalidOpcode => I.InvalidOpcode(s, m)
    case Nop => I.Nop(s, m)
    case LdR16NN(rr) => I.LdR16NN(s, m, rr)
    case LdR8N(r) => I.LdR8N(s, m, r)
    case LdR8R8(dst, src) => I.LdR8R8(s, m, dst, src)
    case LdNNA => I.LdNNA(s, m)
    case LdHldA => I.LdHldA(s, m)
    case LdAN => I.LdAN(s, m)
    case LdANN => I.LdANN(s, m)
    case JpNN => I.JpNN(s, m)
    case JpCc(cc) => I.JpCc(s, m, cc)
    case JpHl => I.JpHl(s, m)
    case JrE => I.JrE(s, m)
    case JrCc(cc) => I.JrCc(s, m, cc)
    case CallNN => I.CallNN(s, m)
    case CallCc(cc) => I.CallCc(s, m, cc)
    case Ret => I.Ret(s, m)
    case PushBc => I.PushBc(s, m)
    case PopBc => I.PopBc(s, m)
  }

  // The table as `init_instruction_table` fills it. The function first fills
  // every slot with `invalid_opcode`, then runs eighteen blocks of
  // assignments; each block below names the slots it overrides.

  /** Lines 41-41: NOP. */
  function NopBlock(op: u8): Option<Handler>
  {
    if op == NOP then Some(Nop)
    else None
  }

  /** Lines 43-52: the ADC handlers. */
  function AdcBlock(op: u8): Option<Handler>
  {
    if op == ADC_A_A then Some(AdcAR8(A))
    else if op == ADC_A_B then Some(AdcAR8(B))
    else if op == ADC_A_C then Some(AdcAR8(C))
    else if op == ADC_A_D then Some(AdcAR8(D))
    else if op == ADC_A_E then Some(AdcAR8(E))
    else if op == ADC_A_H then Some(AdcAR8(H))
    else if op == ADC_A_L then Some(AdcAR8(L))
    else if op == ADC_A_HL then Some(AdcAHlMem)
    else if op == ADC_A_N then Some(AdcAN)
    else None
  }

  /** Lines 54-63: the ADD A handlers. */
  function AddBlock(op: u8): Option<Handler>
  {
    if op == ADD_A_A then Some(AddAR8(A))
    else if op == ADD_A_B then Some(AddAR8(B))
    else if op == ADD_A_C then Some(AddAR8(C))
    else if op == ADD_A_D then Some(AddAR8(D))
    else if op == ADD_A_E then Some(AddAR8(E))
    else if op == ADD_A_H then Some(AddAR8(H))
    else if op == ADD_A_L then Some(AddAR8(L))
    else if op == ADD_A_HL then Some(AddAHlMem)
    else if op == ADD_A_N then Some(AddAN)
    else None
  }

  /** Lines 65-69: ADD HL,rr and ADD SP,e. */
  function Add16Block(op: u8): Option<Handler>
  {
    if op == ADD_HL_BC then Some(AddHlR16(BC))
    else if op == ADD_HL_DE then Some(AddHlR16(DE))
    else if op == ADD_HL_HL then Some(AddHlR16(HL))
    else if op == ADD_HL_SP then Some(AddHlR16(SP))
    else if op == ADD_SP_N then Some(AddSpE)
    else None
  }

  /** Lines 71-72: AND (HL) and AND n. */
  function AndMemoryBlock(op: u8): Option<Handler>
  {
    if op == AND_HL then Some(AndAHlMem)
    else if op == AND_N then Some(AndAN)
    else None
  }

  /** Lines 74-83: CP and CPL. */
  function CompareBlock(op: u8): Option<Handler>
  {
    if op == CP_A then Some(CpAR8(A))
    else if op == CP_B then Some(CpAR8(B))
    else if op == CP_C then Some(CpAR8(C))
    else if op == CP_D then Some(CpAR8(D))
    else if op == CP_E then Some(CpAR8(E))
    else if op == CP_H then Some(CpAR8(H))
    else if op == CP_L then Some(CpAR8(L))
    else if op == CP_HL then Some(CpAHlMem)
    else if op == CP_N then Some(CpAN)
    else if op == CPL then Some(Cpl)
    else None
  }

  /** Lines 85-91: the 16-bit and memory loads. */
  function LoadsBlock(op: u8): Option<Handler>
  {
    if op == LD_SP_NN then Some(LdR16NN(SP))
    else if op == LD_BC_NN then Some(LdR16NN(BC))
    else if op == LD_HL_NN then Some(LdR16NN(HL))
    else if op == LD_MM_A then Some(LdNNA)
    else if op == LD_HLD_A then Some(LdHldA)
    else if op == LD_A_N then Some(LdAN)
    else if op == LD_A_MM then Some(LdANN)
    else None
  }

  /** Lines 93-99: LD r,n, replacing LD A,n. */
  function LoadImmediateBlock(op: u8): Option<Handler>
  {
    if op == LD_A_N then Some(LdR8N(A))
    else if op == LD_B_N then Some(LdR8N(B))
    else if op == LD_C_N then Some(LdR8N(C))
    else if op == LD_D_N then Some(LdR8N(D))
    else if op == LD_E_N then Some(LdR8N(E))
    else if op == LD_H_N then Some(LdR8N(H))
    else if op == LD_L_N then Some(LdR8N(L))
    else None
  }

  /** Lines 101-113: LD A,r and LD B,r. */
  function LoadsToABBlock(op: u8): Option<Handler>
  {
    if op == LD_A_A then Some(LdR8R8(A, A))
    else if op == LD_A_B then Some(LdR8R8(A, B))
    else if op == LD_A_C then Some(LdR8R8(A, C))
    else if op == LD_A_D then Some(LdR8R8(A, D))
    else if op == LD_A_E then Some(LdR8R8(A, E))
    else if op == LD_A_H then Some(LdR8R8(A, H))
    else if op == LD_A_L then Some(LdR8R8(A, L))
    else if op == LD_B_B then Some(LdR8R8(B, B))
    else if op == LD_B_C then Some(LdR8R8(B, C))
    else if op == LD_B_D then Some(LdR8R8(B, D))
    else if op == LD_B_E then Some(LdR8R8(B, E))
    else if op == LD_B_H then Some(LdR8R8(B, H))
    else if op == LD_B_L then Some(LdR8R8(B, L))
    else None
  }

  /** Lines 114-129: LD C,r, LD D,r and LD E,r. */
  function LoadsToCDEBlock(op: u8): Option<Handler>
  {
    if op == LD_C_C then Some(LdR8R8(C, C))
    else if op == LD_C_D then Some(LdR8R8(C, D))
    else if op == LD_C_E then Some(LdR8R8(C, E))
    else if op == LD_C_H then Some(LdR8R8(C, H))
    else if op == LD_C_L then Some(LdR8R8(C, L))
    else if op == LD_D_D then Some(LdR8R8(D, D))
    else if op == LD_D_E then Some(LdR8R8(D, E))
    else if op == LD_D_H then Some(LdR8R8(D, H))
    else if op == LD_D_L then Some(LdR8R8(D, L))
    else if op == LD_E_A then Some(LdR8R8(E, A))
    else if op == LD_E_B then Some(LdR8R8(E, B))
    else if op == LD_E_C then Some(LdR8R8(E, C))
    else if op == LD_E_D then Some(LdR8R8(E, D))
    else if op == LD_E_E then Some(LdR8R8(E, E))
    else if op == LD_E_H then Some(LdR8R8(E, H))
    else if op == LD_E_L then Some(LdR8R8(E, L))
    else None
  }

  /** Lines 130-143: LD H,r and LD L,r. */
  function LoadsToHLBlock(op: u8): Option<Handler>
  {
    if op == LD_H_A then Some(LdR8R8(H, A))
    else if op == LD_H_B then Some(LdR8R8(H, B))
    else if op == LD_H_C then Some(LdR8R8(H, C))
    else if op == LD_H_D then Some(LdR8R8(H, D))
    else if op == LD_H_E then Some(LdR8R8(H, E))
    else if op == LD_H_H then Some(LdR8R8(H, H))
    else if op == LD_H_L then Some(LdR8R8(H, L))
    else if op == LD_L_A then Some(LdR8R8(L, A))
    else if op == LD_L_B then Some(LdR8R8(L, B))
    else if op == LD_L_C then Some(LdR8R8(L, C))
    else if op == LD_L_D then Some(LdR8R8(L, D))
    else if op == LD_L_E then Some(LdR8R8(L, E))
    else if op == LD_L_H then Some(LdR8R8(L, H))
    else if op == LD_L_L then Some(LdR8R8(L, L))
    else None
  }

  /** Lines 145-155: JP and JR. */
  function JumpsBlock(op: u8): Option<Handler>
  {
    if op == JP_NN then Some(JpNN)
    else if op == JP_NZ_NN then Some(JpCc(I.CondNZ))
    else if op == JP_Z_NN then Some(JpCc(I.CondZ))
    else if op == JP_NC_NN then Some(JpCc(I.CondNC))
    else if op == JP_C_NN then Some(JpCc(I.CondC))
    else if op == JP_HL then Some(JpHl)
    else if op == JR_N then Some(JrE)
    else if op == JR_NZ_N then Some(JrCc(I.CondNZ))
    else if op == JR_Z_N then Some(JrCc(I.CondZ))
    else if op == JR_NC_N then Some(JrCc(I.CondNC))
    else if op == JR_C_N then Some(JrCc(I.CondC))
    else None
  }

  /** Lines 157-165: CALL, CCF, RET, PUSH BC and POP BC. */
  function CallsBlock(op: u8): Option<Handler>
  {
    if op == CALL_NN then Some(CallNN)
    else if op == CALL_NZ_NN then Some(CallCc(I.CondNZ))
    else if op == CALL_Z_NN then Some(CallCc(I.CondZ))
    else if op == CALL_NC_NN then Some(CallCc(I.CondNC))
    else if op == CALL_C_NN then Some(CallCc(I.CondC))
    else if op == CCF then Some(Ccf)
    else if op == RET then Some(Ret)
    else if op == PUSH_BC then Some(PushBc)
    else if op == POP_BC then Some(PopBc)
    else None
  }

  /** Lines 167-178: INC. */
  function IncrementsBlock(op: u8): Option<Handler>
  {
    if op == INC_A then Some(IncR8(A))
    else if op == INC_B then Some(IncR8(B))
    else if op == INC_C then Some(IncR8(C))
    else if op == INC_D then Some(IncR8(D))
    else if op == INC_E then Some(IncR8(E))
    else if op == INC_H then Some(IncR8(H))
    else if op == INC_L then Some(IncR8(L))
    else if op == INC_BC then Some(IncR16(BC))
    else if op == INC_DE then Some(IncR16(DE))
    else if op == INC_HL then Some(IncR16(HL))
    else if op == INC_SP then Some(IncR16(SP))
    else if op == INC_HL_MEM then Some(IncHlMem)
    else None
  }

  /** Lines 180-191: DEC. */
  function DecrementsBlock(op: u8): Option<Handler>
  {
    if op == DEC_A then Some(DecR8(A))
    else if op == DEC_B then Some(DecR8(B))
    else if op == DEC_C then Some(DecR8(C))
    else if op == DEC_D then Some(DecR8(D))
    else if op == DEC_E then Some(DecR8(E))
    else if op == DEC_H then Some(DecR8(H))
    else if op == DEC_L then Some(DecR8(L))
    else if op == DEC_BC then Some(DecR16(BC))
    else if op == DEC_DE then Some(DecR16(DE))
    else if op == DEC_HL then Some(DecR16(HL))
    else if op == DEC_SP then Some(DecR16(SP))
    else if op == DEC_HL_MEM then Some(DecHlMem)
    else None
  }

  /** Lines 193-199: AND r. */
  function AndBlock(op: u8): Option<Handler>
  {
    if op == AND_A then Some(AndAR8(A))
    else if op == AND_B then Some(AndAR8(B))
    else if op == AND_C then Some(AndAR8(C))
    else if op == AND_D then Some(AndAR8(D))
    else if op == AND_E then Some(AndAR8(E))
    else if op == AND_H then Some(AndAR8(H))
    else if op == AND_L then Some(AndAR8(L))
    else None
  }

  /** Lines 201-207: OR r. */
  function OrBlock(op: u8): Option<Handler>
  {
    if op == OR_A then Some(OrAR8(A))
    else if op == OR_B then Some(OrAR8(B))
    else if op == OR_C then Some(OrAR8(C))
    else if op == OR_D then Some(OrAR8(D))
    else if op == OR_E then Some(OrAR8(E))
    else if op == OR_H then Some(OrAR8(H))
    else if op == OR_L then Some(OrAR8(L))
    else None
  }

  /** Lines 209-215: XOR r. */
  function XorBlock(op: u8): Option<Handler>
  {
    if op == XOR_A then Some(XorAR8(A))
    else if op == XOR_B then Some(XorAR8(B))
    else if op == XOR_C then Some(XorAR8(C))
    else if op == XOR_D then Some(XorAR8(D))
    else if op == XOR_E then Some(XorAR8(E))
    else if op == XOR_H then Some(XorAR8(H))
    else if op == XOR_L then Some(XorAR8(L))
    else None
  }

  /** The blocks of assignments in the order `init_instruction_table` runs them. */
  function Block(g: nat, op: u8): Option<Handler>
    requires 1 <= g <= BLOCKS
  {
    match g
    case 1 => NopBlock(op)
    case 2 => AdcBlock(op)
    case 3 => AddBlock(op)
    case 4 => Add16Block(op)
    case 5 => AndMemoryBlock(op)
    case 6 => CompareBlock(op)
    case 7 => LoadsBlock(op)
    case 8 => LoadImmediateBlock(op)
    case 9 => LoadsToABBlock(op)
    case 10 => LoadsToCDEBlock(op)
    case 11 => LoadsToHLBlock(op)
    case 12 => JumpsBlock(op)
    case 13 => CallsBlock(op)
    case 14 => IncrementsBlock(op)
    case 15 => DecrementsBlock(op)
    case 16 => AndBlock(op)
    case 17 => OrBlock(op)
    case _ => XorBlock(op)
  }

  /** The number of assignment blocks. */
  const BLOCKS: nat := 18

  /** The table once the first `g` blocks have run: the last block that
      names a slot decides it, and an unnamed slot keeps `invalid_opcode`. */
  function TableAfter(g: nat, op: u8): Handler
    requires g <= BLOCKS
  {
    if g == 0 then InvalidOpcode
    else match Block(g, op)
      case Some(h) => h
      case None => TableAfter(g - 1, op)
  }

  /** A slot after a block: the block's handler if it names the slot. */
  function Override(o: Option<Handler>, h: Handler): Handler
  {
    match o
    case Some(named) => named
    case None => h
  }

  /** Running block `g` over the table left by the first `g - 1` blocks
      yields the table after `g` blocks. */
  lemma RunBlock(t0: seq<Handler>, t1: seq<Handler>, g: nat)
    requires 1 <= g <= BLOCKS && |t0| == |t1| == 256
    requires forall op: u8 :: t0[op] == TableAfter(g - 1, op)
    requires forall op: u8 :: t1[op] == Override(Block(g, op), t0[op])
    ensures forall op: u8 :: t1[op] == TableAfter(g, op)
  {
  }

  // One lemma per block: the stores of the block, applied to the slots as
  // a sequence, give the next stage of the table.

  lemma NopSlots(t0: seq<Handler>, t1: seq<Handler>)
    requires |t0| == 256 && t1 == t0[NOP := Nop]
    requires forall op: u8 {:trigger TableAfter(0, op)} :: t0[op] == TableAfter(0, op)
    ensures forall op: u8 {:trigger TableAfter(1, op)} :: t1[op] == TableAfter(1, op)
  {
    forall op: u8
      ensures t1[op] == Override(Block(1, op), t0[op])
    {
      if op == NOP {} else {}
    }
    RunBlock(t0, t1, 1);
  }

  lemma AdcSlots(t0: seq<Handler>, t1: seq<Handler>)
    requires |t0| == 256 && t1 == t0[ADC_A_A := AdcAR8(A)][ADC_A_B := AdcAR8(B)][ADC_A_C := AdcAR8(C)][ADC_A_D := AdcAR8(D)][ADC_A_E := AdcAR8(E)][ADC_A_H := AdcAR8(H)][ADC_A_L := AdcAR8(L)][ADC_A_HL := AdcAHlMem][ADC_A_N := AdcAN]
    requires forall op: u8 {:trigger TableAfter(1, op)} :: t0[op] == TableAfter(1, op)
    ensures forall op: u8 {:trigger TableAfter(2, op)} :: t1[op] == TableAfter(2, op)
  {
    forall op: u8
      ensures t1[op] == Override(Block(2, op), t0[op])
    {
      if op == ADC_A_A {} else if op == ADC_A_B {} else if op == ADC_A_C {} else if op == ADC_A_D {} else if op == ADC_A_E {} else if op == ADC_A_H {} else if op == ADC_A_L {} else if op == ADC_A_HL {} else if op == ADC_A_N {} else {}
    }
    RunBlock(t0, t1, 2);
  }

  lemma AddSlots(t0: seq<Handler>, t1: seq<Handler>)
    requires |t0| == 256 && t1 == t0[ADD_A_A := AddAR8(A)][ADD_A_B := AddAR8(B)][ADD_A_C := AddAR8(C)][ADD_A_D := AddAR8(D)][ADD_A_E := AddAR8(E)][ADD_A_H := AddAR8(H)][ADD_A_L := AddAR8(L)][ADD_A_HL := AddAHlMem][ADD_A_N := AddAN]
    requires forall op: u8 {:trigger TableAfter(2, op)} :: t0[op] == TableAfter(2, op)
    ensures forall op: u8 {:trigger TableAfter(3, op)} :: t1[op] == TableAfter(3, op)
  {
    forall op: u8
      ensures t1[op] == Override(Block(3, op), t0[op])
    {
      if op == ADD_A_A {} else if op == ADD_A_B {} else if op == ADD_A_C {} else if op == ADD_A_D {} else if op == ADD_A_E {} else if op == ADD_A_H {} else if op == ADD_A_L {} else if op == ADD_A_HL {} else if op == ADD_A_N {} else {}
    }
    RunBlock(t0, t1, 3);
  }

  lemma Add16Slots(t0: seq<Handler>, t1: seq<Handler>)
    requires |t0| == 256 && t1 == t0[ADD_HL_BC := AddHlR16(BC)][ADD_HL_DE := AddHlR16(DE)][ADD_HL_HL := AddHlR16(HL)][ADD_HL_SP := AddHlR16(SP)][ADD_SP_N := AddSpE]
    requires forall op: u8 {:trigger TableAfter(3, op)} :: t0[op] == TableAfter(3, op)
    ensures forall op: u8 {:trigger TableAfter(4, op)} :: t1[op] == TableAfter(4, op)
  {
    forall op: u8
      ensures t1[op] == Override(Block(4, op), t0[op])
    {
      if op == ADD_HL_BC {} else if op == ADD_HL_DE {} else if op == ADD_HL_HL {} else if op == ADD_HL_SP {} else if op == ADD_SP_N {} else {}
    }
    RunBlock(t0, t1, 4);
  }

  lemma AndMemorySlots(t0: seq<Handler>, t1: seq<Handler>)
    requires |t0| == 256 && t1 == t0[AND_HL := AndAHlMem][AND_N := AndAN]
    requires forall op: u8 {:trigger TableAfter(4, op)} :: t0[op] == TableAfter(4, op)
    ensures forall op: u8 {:trigger TableAfter(5, op)} :: t1[op] == TableAfter(5, op)
  {
    forall op: u8
      ensures t1[op] == Override(Block(5, op), t0[op])
    {
      if op == AND_HL {} else if op == AND_N {} else {}
    }
    RunBlock(t0, t1, 5);
  }

  lemma CompareSlots(t0: seq<Handler>, t1: seq<Handler>)
    requires |t0| == 256 && t1 == t0[CP_A := CpAR8(A)][CP_B := CpAR8(B)][CP_C := CpAR8(C)][CP_D := CpAR8(D)][CP_E := CpAR8(E)][CP_H := CpAR8(H)][CP_L := CpAR8(L)][CP_HL := CpAHlMem][CP_N := CpAN][CPL := Cpl]
    requires forall op: u8 {:trigger TableAfter(5, op)} :: t0[op] == TableAfter(5, op)
    ensures forall op: u8 {:trigger TableAfter(6, op)} :: t1[op] == TableAfter(6, op)
  {
    forall op: u8
      ensures t1[op] == Override(Block(6, op), t0[op])
    {
      if op == CP_A {} else if op == CP_B {} else if op == CP_C {} else if op == CP_D {} else if op == CP_E {} else if op == CP_H {} else if op == CP_L {} else if op == CP_HL {} else if op == CP_N {} else if op == CPL {} else {}
    }
    RunBlock(t0, t1, 6);
  }

  lemma LoadsSlots(t0: seq<Handler>, t1: seq<Handler>)
    requires |t0| == 256 && t1 == t0[LD_SP_NN := LdR16NN(SP)][LD_BC_NN := LdR16NN(BC)][LD_HL_NN := LdR16NN(HL)][LD_MM_A := LdNNA][LD_HLD_A := LdHldA][LD_A_N := LdAN][LD_A_MM := LdANN]
    requires forall op: u8 {:trigger TableAfter(6, op)} :: t0[op] == TableAfter(6, op)
    ensures forall op: u8 {:trigger TableAfter(7, op)} :: t1[op] == TableAfter(7, op)
  {
    forall op: u8
      ensures t1[op] == Override(Block(7, op), t0[op])
    {
      if op == LD_SP_NN {} else if op == LD_BC_NN {} else if op == LD_HL_NN {} else if op == LD_MM_A {} else if op == LD_HLD_A {} else if op == LD_A_N {} else if op == LD_A_MM {} else {}
    }
    RunBlock(t0, t1, 7);
  }

  lemma LoadImmediateSlots(t0: seq<Handler>, t1: seq<Handler>)
    requires |t0| == 256 && t1 == t0[LD_A_N := LdR8N(A)][LD_B_N := LdR8N(B)][LD_C_N := LdR8N(C)][LD_D_N := LdR8N(D)][LD_E_N := LdR8N(E)][LD_H_N := LdR8N(H)][LD_L_N := LdR8N(L)]
    requires forall op: u8 {:trigger TableAfter(7, op)} :: t0[op] == TableAfter(7, op)
    ensures forall op: u8 {:trigger TableAfter(8, op)} :: t1[op] == TableAfter(8, op)
  {
    forall op: u8
      ensures t1[op] == Override(Block(8, op), t0[op])
    {
      if op == LD_A_N {} else if op == LD_B_N {} else if op == LD_C_N {} else if op == LD_D_N {} else if op == LD_E_N {} else if op == LD_H_N {} else if op == LD_L_N {} else {}
    }
    RunBlock(t0, t1, 8);
  }

  lemma LoadsToABSlots(t0: seq<Handler>, t1: seq<Handler>)
    requires |t0| == 256 && t1 == t0[LD_A_A := LdR8R8(A, A)][LD_A_B := LdR8R8(A, B)][LD_A_C := LdR8R8(A, C)][LD_A_D := LdR8R8(A, D)][LD_A_E := LdR8R8(A, E)][LD_A_H := LdR8R8(A, H)][LD_A_L := LdR8R8(A, L)][LD_B_B := LdR8R8(B, B)][LD_B_C := LdR8R8(B, C)][LD_B_D := LdR8R8(B, D)][LD_B_E := LdR8R8(B, E)][LD_B_H := LdR8R8(B, H)][LD_B_L := LdR8R8(B, L)]
    requires forall op: u8 {:trigger TableAfter(8, op)} :: t0[op] == TableAfter(8, op)
    ensures forall op: u8 {:trigger TableAfter(9, op)} :: t1[op] == TableAfter(9, op)
  {
    forall op: u8
      ensures t1[op] == Override(Block(9, op), t0[op])
    {
      if op == LD_A_A {} else if op == LD_A_B {} else if op == LD_A_C {} else if op == LD_A_D {} else if op == LD_A_E {} else if op == LD_A_H {} else if op == LD_A_L {} else if op == LD_B_B {} else if op == LD_B_C {} else if op == LD_B_D {} else if op == LD_B_E {} else if op == LD_B_H {} else if op == LD_B_L {} else {}
    }
    RunBlock(t0, t1, 9);
  }

  lemma LoadsToCDESlots(t0: seq<Handler>, t1: seq<Handler>)
    requires |t0| == 256 && t1 == t0[LD_C_C := LdR8R8(C, C)][LD_C_D := LdR8R8(C, D)][LD_C_E := LdR8R8(C, E)][LD_C_H := LdR8R8(C, H)][LD_C_L := LdR8R8(C, L)][LD_D_D := LdR8R8(D, D)][LD_D_E := LdR8R8(D, E)][LD_D_H := LdR8R8(D, H)][LD_D_L := LdR8R8(D, L)][LD_E_A := LdR8R8(E, A)][LD_E_B := LdR8R8(E, B)][LD_E_C := LdR8R8(E, C)][LD_E_D := LdR8R8(E, D)][LD_E_E := LdR8R8(E, E)][LD_E_H := LdR8R8(E, H)][LD_E_L := LdR8R8(E, L)]
    requires forall op: u8 {:trigger TableAfter(9, op)} :: t0[op] == TableAfter(9, op)
    ensures forall op: u8 {:trigger TableAfter(10, op)} :: t1[op] == TableAfter(10, op)
  {
    forall op: u8
      ensures t1[op] == Override(Block(10, op), t0[op])
    {
      if op == LD_C_C {} else if op == LD_C_D {} else if op == LD_C_E {} else if op == LD_C_H {} else if op == LD_C_L {} else if op == LD_D_D {} else if op == LD_D_E {} else if op == LD_D_H {} else if op == LD_D_L {} else if op == LD_E_A {} else if op == LD_E_B {} else if op == LD_E_C {} else if op == LD_E_D {} else if op == LD_E_E {} else if op == LD_E_H {} else if op == LD_E_L {} else {}
    }
    RunBlock(t0, t1, 10);
  }

  lemma LoadsToHLSlots(t0: seq<Handler>, t1: seq<Handler>)
    requires |t0| == 256 && t1 == t0[LD_H_A := LdR8R8(H, A)][LD_H_B := LdR8R8(H, B)][LD_H_C := LdR8R8(H, C)][LD_H_D := LdR8R8(H, D)][LD_H_E := LdR8R8(H, E)][LD_H_H := LdR8R8(H, H)][LD_H_L := LdR8R8(H, L)][LD_L_A := LdR8R8(L, A)][LD_L_B := LdR8R8(L, B)][LD_L_C := LdR8R8(L, C)][LD_L_D := LdR8R8(L, D)][LD_L_E := LdR8R8(L, E)][LD_L_H := LdR8R8(L, H)][LD_L_L := LdR8R8(L, L)]
    requires forall op: u8 {:trigger TableAfter(10, op)} :: t0[op] == TableAfter(10, op)
    ensures forall op: u8 {:trigger TableAfter(11, op)} :: t1[op] == TableAfter(11, op)
  {
    forall op: u8
      ensures t1[op] == Override(Block(11, op), t0[op])
    {
      if op == LD_H_A {} else if op == LD_H_B {} else if op == LD_H_C {} else if op == LD_H_D {} else if op == LD_H_E {} else if op == LD_H_H {} else if op == LD_H_L {} else if op == LD_L_A {} else if op == LD_L_B {} else if op == LD_L_C {} else if op == LD_L_D {} else if op == LD_L_E {} else if op == LD_L_H {} else if op == LD_L_L {} else {}
    }
    RunBlock(t0, t1, 11);
  }

  lemma JumpsSlots(t0: seq<Handler>, t1: seq<Handler>)
    requires |t0| == 256 && t1 == t0[JP_NN := JpNN][JP_NZ_NN := JpCc(I.CondNZ)][JP_Z_NN := JpCc(I.CondZ)][JP_NC_NN := JpCc(I.CondNC)][JP_C_NN := JpCc(I.CondC)][JP_HL := JpHl][JR_N := JrE][JR_NZ_N := JrCc(I.CondNZ)][JR_Z_N := JrCc(I.CondZ)][JR_NC_N := JrCc(I.CondNC)][JR_C_N := JrCc(I.CondC)]
    requires forall op: u8 {:trigger TableAfter(11, op)} :: t0[op] == TableAfter(11, op)
    ensures forall op: u8 {:trigger TableAfter(12, op)} :: t1[op] == TableAfter(12, op)
  {
    forall op: u8
      ensures t1[op] == Override(Block(12, op), t0[op])
    {
      if op == JP_NN {} else if op == JP_NZ_NN {} else if op == JP_Z_NN {} else if op == JP_NC_NN {} else if op == JP_C_NN {} else if op == JP_HL {} else if op == JR_N {} else if op == JR_NZ_N {} else if op == JR_Z_N {} else if op == JR_NC_N {} else if op == JR_C_N {} else {}
    }
    RunBlock(t0, t1, 12);
  }

  lemma CallsSlots(t0: seq<Handler>, t1: seq<Handler>)
    requires |t0| == 256 && t1 == t0[CALL_NN := CallNN][CALL_NZ_NN := CallCc(I.CondNZ)][CALL_Z_NN := CallCc(I.CondZ)][CALL_NC_NN := CallCc(I.CondNC)][CALL_C_NN := CallCc(I.CondC)][CCF := Ccf][RET := Ret][PUSH_BC := PushBc][POP_BC := PopBc]
    requires forall op: u8 {:trigger TableAfter(12, op)} :: t0[op] == TableAfter(12, op)
    ensures forall op: u8 {:trigger TableAfter(13, op)} :: t1[op] == TableAfter(13, op)
  {
    forall op: u8
      ensures t1[op] == Override(Block(13, op), t0[op])
    {
      if op == CALL_NN {} else if op == CALL_NZ_NN {} else if op == CALL_Z_NN {} else if op == CALL_NC_NN {} else if op == CALL_C_NN {} else if op == CCF {} else if op == RET {} else if op == PUSH_BC {} else if op == POP_BC {} else {}
    }
    RunBlock(t0, t1, 13);
  }

  lemma IncrementsSlots(t0: seq<Handler>, t1: seq<Handler>)
    requires |t0| == 256 && t1 == t0[INC_A := IncR8(A)][INC_B := IncR8(B)][INC_C := IncR8(C)][INC_D := IncR8(D)][INC_E := IncR8(E)][INC_H := IncR8(H)][INC_L := IncR8(L)][INC_BC := IncR16(BC)][INC_DE := IncR16(DE)][INC_HL := IncR16(HL)][INC_SP := IncR16(SP)][INC_HL_MEM := IncHlMem]
    requires forall op: u8 {:trigger TableAfter(13, op)} :: t0[op] == TableAfter(13, op)
    ensures forall op: u8 {:trigger TableAfter(14, op)} :: t1[op] == TableAfter(14, op)
  {
    forall op: u8
      ensures t1[op] == Override(Block(14, op), t0[op])
    {
      if op == INC_A {} else if op == INC_B {} else if op == INC_C {} else if op == INC_D {} else if op == INC_E {} else if op == INC_H {} else if op == INC_L {} else if op == INC_BC {} else if op == INC_DE {} else if op == INC_HL {} else if op == INC_SP {} else if op == INC_HL_MEM {} else {}
    }
    RunBlock(t0, t1, 14);
  }

  lemma DecrementsSlots(t0: seq<Handler>, t1: seq<Handler>)
    requires |t0| == 256 && t1 == t0[DEC_A := DecR8(A)][DEC_B := DecR8(B)][DEC_C := DecR8(C)][DEC_D := DecR8(D)][DEC_E := DecR8(E)][DEC_H := DecR8(H)][DEC_L := DecR8(L)][DEC_BC := DecR16(BC)][DEC_DE := DecR16(DE)][DEC_HL := DecR16(HL)][DEC_SP := DecR16(SP)][DEC_HL_MEM := DecHlMem]
    requires forall op: u8 {:trigger TableAfter(14, op)} :: t0[op] == TableAfter(14, op)
    ensures forall op: u8 {:trigger TableAfter(15, op)} :: t1[op] == TableAfter(15, op)
  {
    forall op: u8
      ensures t1[op] == Override(Block(15, op), t0[op])
    {
      if op == DEC_A {} else if op == DEC_B {} else if op == DEC_C {} else if op == DEC_D {} else if op == DEC_E {} else if op == DEC_H {} else if op == DEC_L {} else if op == DEC_BC {} else if op == DEC_DE {} else if op == DEC_HL {} else if op == DEC_SP {} else if op == DEC_HL_MEM {} else {}
    }
    RunBlock(t0, t1, 15);
  }

  lemma AndSlots(t0: seq<Handler>, t1: seq<Handler>)
    requires |t0| == 256 && t1 == t0[AND_A := AndAR8(A)][AND_B := AndAR8(B)][AND_C := AndAR8(C)][AND_D := AndAR8(D)][AND_E := AndAR8(E)][AND_H := AndAR8(H)][AND_L := AndAR8(L)]
    requires forall op: u8 {:trigger TableAfter(15, op)} :: t0[op] == TableAfter(15, op)
    ensures forall op: u8 {:trigger TableAfter(16, op)} :: t1[op] == TableAfter(16, op)
  {
    forall op: u8
      ensures t1[op] == Override(Block(16, op), t0[op])
    {
      if op == AND_A {} else if op == AND_B {} else if op == AND_C {} else if op == AND_D {} else if op == AND_E {} else if op == AND_H {} else if op == AND_L {} else {}
    }
    RunBlock(t0, t1, 16);
  }

  lemma OrSlots(t0: seq<Handler>, t1: seq<Handler>)
    requires |t0| == 256 && t1 == t0[OR_A := OrAR8(A)][OR_B := OrAR8(B)][OR_C := OrAR8(C)][OR_D := OrAR8(D)][OR_E := OrAR8(E)][OR_H := OrAR8(H)][OR_L := OrAR8(L)]
    requires forall op: u8 {:trigger TableAfter(16, op)} :: t0[op] == TableAfter(16, op)
    ensures forall op: u8 {:trigger TableAfter(17, op)} :: t1[op] == TableAfter(17, op)
  {
    forall op: u8
      ensures t1[op] == Override(Block(17, op), t0[op])
    {
      if op == OR_A {} else if op == OR_B {} else if op == OR_C {} else if op == OR_D {} else if op == OR_E {} else if op == OR_H {} else if op == OR_L {} else {}
    }
    RunBlock(t0, t1, 17);
  }

  lemma XorSlots(t0: seq<Handler>, t1: seq<Handler>)
    requires |t0| == 256 && t1 == t0[XOR_A := XorAR8(A)][XOR_B := XorAR8(B)][XOR_C := XorAR8(C)][XOR_D := XorAR8(D)][XOR_E := XorAR8(E)][XOR_H := XorAR8(H)][XOR_L := XorAR8(L)]
    requires forall op: u8 {:trigger TableAfter(17, op)} :: t0[op] == TableAfter(17, op)
    ensures forall op: u8 {:trigger TableAfter(18, op)} :: t1[op] == TableAfter(18, op)
  {
    forall op: u8
      ensures t1[op] == Override(Block(18, op), t0[op])
    {
      if op == XOR_A {} else if op == XOR_B {} else if op == XOR_C {} else if op == XOR_D {} else if op == XOR_E {} else if op == XOR_H {} else if op == XOR_L {} else {}
    }
    RunBlock(t0, t1, 18);
  }

  /** The slot for each opcode byte once `init_instruction_table` has run. */
  function Decode(op: u8): Handler { TableAfter(BLOCKS, op) }

  /** `cpu::execute`: fetch the opcode at PC, step PC past it, and run the
      slot's handler; the 0xCB prefix runs nothing and costs 0 cycles. */
  function Step(s: Regs, m: Image): I.Outcome
  {
    var opcode := ReadByte(m, s.pc);
    var s1 := I.IncPc(s);
    if opcode == 0xCB then I.Outcome(s1, m, 0) else Run(Decode(opcode), s1, m)
  }
}
