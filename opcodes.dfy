// Opcode byte values from core/resources/dmg_opcodes.h, for the opcodes
// that core/src/cpu.cpp registers in its dispatch table (plus DAA, whose
// handler exists but is never registered, and the 0xCB prefix).

module Opcodes {
  import opened Bits

  const NOP: u8 := 0x00
  const CB_PREFIX: u8 := 0xCB
  const DAA: u8 := 0x27

  const ADC_A_A: u8 := 0x8F
  const ADC_A_B: u8 := 0x88
  const ADC_A_C: u8 := 0x89
  const ADC_A_D: u8 := 0x8A
  const ADC_A_E: u8 := 0x8B
  const ADC_A_H: u8 := 0x8C
  const ADC_A_L: u8 := 0x8D
  const ADC_A_HL: u8 := 0x8E
  const ADC_A_N: u8 := 0xCE

  const ADD_A_A: u8 := 0x87
  const ADD_A_B: u8 := 0x80
  const ADD_A_C: u8 := 0x81
  const ADD_A_D: u8 := 0x82
  const ADD_A_E: u8 := 0x83
  const ADD_A_H: u8 := 0x84
  const ADD_A_L: u8 := 0x85
  const ADD_A_HL: u8 := 0x86
  const ADD_A_N: u8 := 0xC6

  const ADD_HL_BC: u8 := 0x09
  const ADD_HL_DE: u8 := 0x19
  const ADD_HL_HL: u8 := 0x29
  const ADD_HL_SP: u8 := 0x39
  const ADD_SP_N: u8 := 0xE8

  const AND_A: u8 := 0xA7
  const AND_B: u8 := 0xA0
  const AND_C: u8 := 0xA1
  const AND_D: u8 := 0xA2
  const AND_E: u8 := 0xA3
  const AND_H: u8 := 0xA4
  const AND_L: u8 := 0xA5
  const AND_HL: u8 := 0xA6
  const AND_N: u8 := 0xE6

  const OR_A: u8 := 0xB7
  const OR_B: u8 := 0xB0
  const OR_C: u8 := 0xB1
  const OR_D: u8 := 0xB2
  const OR_E: u8 := 0xB3
  const OR_H: u8 := 0xB4
  const OR_L: u8 := 0xB5

  const XOR_A: u8 := 0xAF
  const XOR_B: u8 := 0xA8
  const XOR_C: u8 := 0xA9
  const XOR_D: u8 := 0xAA
  const XOR_E: u8 := 0xAB
  const XOR_H: u8 := 0xAC
  const XOR_L: u8 := 0xAD

  const CP_A: u8 := 0xBF
  const CP_B: u8 := 0xB8
  const CP_C: u8 := 0xB9
  const CP_D: u8 := 0xBA
  const CP_E: u8 := 0xBB
  const CP_H: u8 := 0xBC
  const CP_L: u8 := 0xBD
  const CP_HL: u8 := 0xBE
  const CP_N: u8 := 0xFE
  const CPL: u8 := 0x2F
  const CCF: u8 := 0x3F

  const LD_BC_NN: u8 := 0x01
  const LD_HL_NN: u8 := 0x21
  const LD_SP_NN: u8 := 0x31
  const LD_MM_A: u8 := 0xEA
  const LD_A_MM: u8 := 0xFA
  const LD_HLD_A: u8 := 0x32

  const LD_A_N: u8 := 0x3E
  const LD_B_N: u8 := 0x06
  const LD_C_N: u8 := 0x0E
  const LD_D_N: u8 := 0x16
  const LD_E_N: u8 := 0x1E
  const LD_H_N: u8 := 0x26
  const LD_L_N: u8 := 0x2E

  const LD_A_A: u8 := 0x7F
  const LD_A_B: u8 := 0x78
  const LD_A_C: u8 := 0x79
  const LD_A_D: u8 := 0x7A
  const LD_A_E: u8 := 0x7B
  const LD_A_H: u8 := 0x7C
  const LD_A_L: u8 := 0x7D
  const LD_B_A: u8 := 0x47
  const LD_B_B: u8 := 0x40
  const LD_B_C: u8 := 0x41
  const LD_B_D: u8 := 0x42
  const LD_B_E: u8 := 0x43
  const LD_B_H: u8 := 0x44
  const LD_B_L: u8 := 0x45
  const LD_C_A: u8 := 0x4F
  const LD_C_B: u8 := 0x48
  const LD_C_C: u8 := 0x49
  const LD_C_D: u8 := 0x4A
  const LD_C_E: u8 := 0x4B
  const LD_C_H: u8 := 0x4C
  const LD_C_L: u8 := 0x4D
  const LD_D_A: u8 := 0x57
  const LD_D_B: u8 := 0x50
  const LD_D_C: u8 := 0x51
  const LD_D_D: u8 := 0x52
  const LD_D_E: u8 := 0x53
  const LD_D_H: u8 := 0x54
  const LD_D_L: u8 := 0x55
  const LD_E_A: u8 := 0x5F
  const LD_E_B: u8 := 0x58
  const LD_E_C: u8 := 0x59
  const LD_E_D: u8 := 0x5A
  const LD_E_E: u8 := 0x5B
  const LD_E_H: u8 := 0x5C
  const LD_E_L: u8 := 0x5D
  const LD_H_A: u8 := 0x67
  const LD_H_B: u8 := 0x60
  const LD_H_C: u8 := 0x61
  const LD_H_D: u8 := 0x62
  const LD_H_E: u8 := 0x63
  const LD_H_H: u8 := 0x64
  const LD_H_L: u8 := 0x65
  const LD_L_A: u8 := 0x6F
  const LD_L_B: u8 := 0x68
  const LD_L_C: u8 := 0x69
  const LD_L_D: u8 := 0x6A
  const LD_L_E: u8 := 0x6B
  const LD_L_H: u8 := 0x6C
  const LD_L_L: u8 := 0x6D

  const JP_NN: u8 := 0xC3
  const JP_NZ_NN: u8 := 0xC2
  const JP_Z_NN: u8 := 0xCA
  const JP_NC_NN: u8 := 0xD2
  const JP_C_NN: u8 := 0xDA
  const JP_HL: u8 := 0xE9
  const JR_N: u8 := 0x18
  const JR_NZ_N: u8 := 0x20
  const JR_Z_N: u8 := 0x28
  const JR_NC_N: u8 := 0x30
  const JR_C_N: u8 := 0x38

  const CALL_NN: u8 := 0xCD
  const CALL_NZ_NN: u8 := 0xC4
  const CALL_Z_NN: u8 := 0xCC
  const CALL_NC_NN: u8 := 0xD4
  const CALL_C_NN: u8 := 0xDC
  const RET: u8 := 0xC9
  const PUSH_BC: u8 := 0xC5
  const POP_BC: u8 := 0xC1

  const INC_A: u8 := 0x3C
  const INC_B: u8 := 0x04
  const INC_C: u8 := 0x0C
  const INC_D: u8 := 0x14
  const INC_E: u8 := 0x1C
  const INC_H: u8 := 0x24
  const INC_L: u8 := 0x2C
  const INC_BC: u8 := 0x03
  const INC_DE: u8 := 0x13
  const INC_HL: u8 := 0x23
  const INC_SP: u8 := 0x33
  const INC_HL_MEM: u8 := 0x34

  const DEC_A: u8 := 0x3D
  const DEC_B: u8 := 0x05
  const DEC_C: u8 := 0x0D
  const DEC_D: u8 := 0x15
  const DEC_E: u8 := 0x1D
  const DEC_H: u8 := 0x25
  const DEC_L: u8 := 0x2D
  const DEC_BC: u8 := 0x0B
  const DEC_DE: u8 := 0x1B
  const DEC_HL: u8 := 0x2B
  const DEC_SP: u8 := 0x3B
  const DEC_HL_MEM: u8 := 0x35
}
