# A verified model of the gbemu Game Boy core

This project models the three sequential parts of the gbemu emulator core in Dafny and proves properties of the model:

- **the memory bus** (`gb::memory_map`);
- **the SM83 instruction engine** (`gb::cpu`): the register file, the 256-slot dispatch table and every handler;
- **the PPU** (`gb::ppu`): the dot-counter and mode state machine, and the scanline renderer that fills the 160 x 144 framebuffer.

Files and modules:

- `bits.dfy` (`Bits`): byte, word and 32-bit integer types. Each wrap-around to `uint8_t`, `uint16_t` or `uint32_t` is written out as `Wrap8`, `Wrap16` or `Wrap32`.
- `memory_map.dfy` (`Memory`):
  - The map as a value (`Image`, `ReadByte`, `WriteByte`).
  - The class `MemoryMap`, whose three arrays `Write` and `LoadRom` update in place.
- `registers.dfy` (`Registers`):
  - The `Register16` union, with `full == high * 256 + low`.
  - AF, with F kept flag by flag.
  - The flag masks and `set_flag`.
  - The 8- and 16-bit register selectors that stand for the `get_r8<reg>` and `get_r16<reg>` templates.
- `opcodes.dfy` (`Opcodes`): the opcode byte values of `dmg_opcodes.h` that the table uses.
- `instructions.dfy` (`Instructions`): every handler of `cpu.cpp` as a function. It follows the C++ statement by statement, quirks included. The function takes the register file and the bus contents. It gives the new register file, the new bus contents and the cycle count.
- `dispatch.dfy` (`Dispatch`):
  - The handler a table slot holds.
  - The table as `init_instruction_table` leaves it: the blocks of assignments applied in source order over `invalid_opcode`.
  - `execute` as the function `Step`.
- `cpu.dfy` (`Cpu`):
  - The class `Cpu`, with the register fields and the 256-slot `table` array.
  - The constructor and `init_instruction_table`, which fills the array block by block.
  - `execute`, and one method per handler that updates the fields as the C++ does. Each method is proved to leave what its function in `Instructions` describes.
- `cpu_properties.dfy` (`CpuProperties`): what the handlers and `execute` promise.
- `lcd.dfy` (`Lcd`): the constants of `ppu.h`, the LCDC predicates, `get_color` and the colour-id decoding.
- `video_bus.dfy` (`VideoBus`): the bus as the PPU sees it.
  - The PPU is modelled over an abstract 64 KiB byte space, `Space`, held by the class `Bus`.
  - The concrete memory map is one instance of it (`View`). On that instance LCDC reads 0xFF, and LY, STAT and VRAM are not backed.
- `render.dfy` (`Render`): what each rendering pass leaves in the framebuffer, as functions of the framebuffer before and the bus contents.
- `timing.dfy` (`LcdTiming`): `tick` and `update_mode` as functions of the counter, line and mode, the framebuffer and the bus.
- `ppu.dfy` (`Ppu`): the class `Ppu`, with `cyclecounter_`, `currentline_`, `mode_` and the `framebuffer_` array. It has `tick`, `update_mode` and the render passes as methods with their loops. Each is proved to leave exactly what the functions of `Render` and `LcdTiming` describe.
- `ppu_properties.dfy` (`PpuProperties`): what `tick`, `update_mode` and the render passes promise.

The model follows the code, also where the code departs from what the project's own test suite expects or from the instruction it implements. Each such point is a lemma about the code:

- A conditional JR, JP or CALL that is not taken returns without consuming its operand, so PC is left on the operand. The test suite expects PC past it (`CpuProperties.JrNotTakenStopsOnOperand`, `CpuProperties.ConditionalNotTaken`).
- `jp_nn` returns 4 cycles, where the test suite expects 3 (`CpuProperties.JpCostsFour`).
- `add_a_n` and `adc_a_n` fetch an operand byte a second time while computing H (`CpuProperties.ImmediateAddFetchesTwice`, `CpuProperties.ImmediateAdcFetchesTwice`).
- Several additions compute H from the updated register (`CpuProperties.AddMemoryToA`, `CpuProperties.AdcMemoryToA`, `CpuProperties.HalfCarryFromNewValue`, `CpuProperties.AddToHl`, `CpuProperties.AddToSp`). The ADC handlers read the carry-in for H after F was cleared, so H never counts it (`CpuProperties.AdcHalfCarryIgnoresCarryIn`, `CpuProperties.AdcMemoryToA`, `CpuProperties.ImmediateAdcFetchesTwice`).
- DAA has a handler whose slot is never filled. Six LD r,r' opcodes are never registered (`CpuProperties.DaaIsUnregistered`, `CpuProperties.MissingLoadsIntoBC`, `CpuProperties.MissingLoadsIntoD`).
- `update_mode` has no exit from HBlank (core/src/ppu.cpp:214-216). It leaves VBlank only at line 154 or later (core/src/ppu.cpp:217-222), and `tick` wraps the line to 0 when it reaches 154 (core/src/ppu.cpp:21-22), so that exit is never taken. Once in HBlank or VBlank, the PPU stays in one of them forever (`PpuProperties.BlankingIsForever`).

## Model

| member | source | states |
|---|---|---|
| Bits.Signed | core/src/ppu.cpp:73 | the value of a byte read as `int8_t` lies in [-128, 128) and wraps back to the byte |
| Bits.Not8 | core/src/cpu.cpp:640 | `(uint8_t)~a` is 0xFF - a |
| Bits.BytesOfWord | core/src/cpu.h:39-47 | the low and high bytes of the little-endian word built from two bytes are those bytes |
| Bits.WordOfBytes | core/src/cpu.h:39-47 | a word rebuilt from its low and high bytes is the word |
| Memory.UnbackedReadsFF | core/src/memory_map.h:32-47 | `read` of any address outside ROM, WRAM and HRAM (VRAM, external RAM, echo RAM, OAM, I/O, 0xFFFF) returns 0xFF |
| Memory.ReadAfterWrite | core/src/memory_map.h:32-58 | a value written to WRAM or HRAM reads back unchanged |
| Memory.WriteOutsideRamIsDropped | core/src/memory_map.h:49-60 | a write outside WRAM and HRAM leaves the whole map unchanged |
| Memory.WriteFrame | core/src/memory_map.h:49-60 | a write changes no address other than its own |
| Memory.ReadsDetermineImage | core/src/memory_map.h:32-47 | two images that read alike at every address are the same image |
| Memory.BlankReadsZero | core/src/memory_map.h:20-29 | a freshly constructed map reads 0 at every ROM, WRAM and HRAM address |
| Memory.LcdRegistersUnbacked | core/src/memory_map.h:32-60 | on the concrete map LCDC (0xFF40) reads 0xFF, and writes to STAT and LY are dropped |
| Memory.MemoryMap.constructor | core/src/memory_map.h:20-29 | the three arrays are fresh and filled with 0 |
| Memory.MemoryMap.Write | core/src/memory_map.h:49-60 | the arrays after `write` hold exactly the image `WriteByte` gives |
| Memory.MemoryMap.LoadRom | core/src/memory_map.h:62-70 | an unopenable file fails and changes nothing; otherwise the leading bytes of the file, up to 32 KiB, replace those of ROM, and WRAM and HRAM are untouched |
| Memory.Overlay | core/src/memory_map.h:69 | the result keeps the length of ROM, holds the file's byte where the file reaches and the old byte elsewhere |
| Memory.OverlayPrefix | core/src/memory_map.h:69 | bytes of a file beyond 32 KiB have no effect |
| Registers.UnpackPack | core/src/cpu.h:49 | unpacking a packed F byte gives back the flags |
| Registers.PackUnpack | core/src/cpu.h:49 | every F byte is the packing of its flags, so keeping F flag by flag loses nothing |
| Registers.SetFlagIsBitOperation | core/src/cpu.h:72-83 | `AF.full \|= flag` and `AF.full &= ~flag` compute exactly AF with that one flag replaced |
| Registers.FlagBitOfFull | core/src/cpu.h:12-18 | the flag's bit of `AF.full` is set exactly when the flag reads as set |
| Registers.KeepCarryOnlyIsMask | core/src/cpu.cpp:719 | `AF.low &= FLAG_C` keeps A and leaves F holding only its old carry bit |
| Registers.PackPut | core/src/cpu.h:72-83 | replacing one flag moves the F byte by that flag's mask or not at all |
| Registers.WordBytes | core/src/cpu.h:39-47 | `high * 256 + low` splits back into `high` and `low` |
| Registers.BitOfLowByte | core/src/cpu.h:39-47 | a flag mask's bit of a word is the same bit of its low byte |
| Registers.BitOfPack | core/src/cpu.h:12-18 | the mask's bit of the packed F byte is set exactly when the flag is |
| Registers.RegisterViews | core/src/cpu.h:39-47 | the `full` and byte views of a register never disagree: writing either view and reading the other round-trips, and `full == high * 256 + low` |
| Registers.MasksAreDistinctBits | core/src/cpu.h:12-18 | FLAG_Z/N/H/C are four different single bits, all within F |
| Registers.PowerUpValues | core/src/cpu.cpp:27-36 | after power-up SP = 0xFFFE, PC = 0, AF = 0x01B0 (A = 1, Z, H and C set), BC = 0x0013, DE = 0x00D8, HL = 0x014D |
| Registers.R8ReadAfterWrite | core/src/cpu.h:39-52 | an 8-bit register reads back what was stored and every other 8-bit register keeps its value |
| Registers.R16ReadAfterWrite | core/src/cpu.h:39-52 | a register pair reads back what was stored, its halves see the high and the low byte, AF and PC are untouched |
| Registers.SetFlagKeepsRegisters | core/src/cpu.h:72-83 | `set_flag` reads back, changes no other flag, no 8-bit register (A included) and not the low nibble of F |
| Dispatch.RunBlock | core/src/cpu.cpp:38-216 | storing one block of `init_instruction_table` over the table of the earlier blocks gives the table after that block |
| Cpu.Cpu.constructor | core/src/cpu.h:24-36 | the table holds what `init_instruction_table` stores, then the registers hold the power-up values |
| Cpu.Cpu.PowerUpSequence | core/src/cpu.cpp:27-36 | the registers become the power-up values |
| Cpu.Cpu.InitInstructionTable | core/src/cpu.cpp:38-216 | every slot ends up holding the handler of the last assignment that names it, or `invalid_opcode` |
| Cpu.Cpu.RegisterNop | core/src/cpu.cpp:41 | the table after the NOP store is the table after block 1 |
| Cpu.Cpu.RegisterAdc | core/src/cpu.cpp:43-52 | the ADC stores give the table after block 2 |
| Cpu.Cpu.RegisterAdd | core/src/cpu.cpp:54-63 | the ADD A stores give the table after block 3 |
| Cpu.Cpu.RegisterAdd16 | core/src/cpu.cpp:65-69 | the ADD HL,rr and ADD SP,e stores give the table after block 4 |
| Cpu.Cpu.RegisterAndMemory | core/src/cpu.cpp:71-72 | the AND (HL) and AND n stores give the table after block 5 |
| Cpu.Cpu.RegisterCompare | core/src/cpu.cpp:74-83 | the CP and CPL stores give the table after block 6 |
| Cpu.Cpu.RegisterLoads | core/src/cpu.cpp:85-91 | the 16-bit and memory load stores give the table after block 7 |
| Cpu.Cpu.RegisterLoadImmediate | core/src/cpu.cpp:93-99 | the LD r,n stores, LD A,n among them again, give the table after block 8 |
| Cpu.Cpu.RegisterLoadsToAB | core/src/cpu.cpp:101-113 | the LD A,r and LD B,r stores give the table after block 9 |
| Cpu.Cpu.RegisterLoadsToCDE | core/src/cpu.cpp:114-129 | the LD C,r, LD D,r and LD E,r stores give the table after block 10 |
| Cpu.Cpu.RegisterLoadsToHL | core/src/cpu.cpp:130-143 | the LD H,r and LD L,r stores give the table after block 11 |
| Cpu.Cpu.RegisterJumps | core/src/cpu.cpp:145-155 | the JP and JR stores give the table after block 12 |
| Cpu.Cpu.RegisterCalls | core/src/cpu.cpp:157-165 | the CALL, CCF, RET, PUSH BC and POP BC stores give the table after block 13 |
| Cpu.Cpu.RegisterIncrements | core/src/cpu.cpp:167-178 | the INC stores give the table after block 14 |
| Cpu.Cpu.RegisterDecrements | core/src/cpu.cpp:180-191 | the DEC stores give the table after block 15 |
| Cpu.Cpu.RegisterAnd | core/src/cpu.cpp:193-199 | the AND r stores give the table after block 16 |
| Cpu.Cpu.RegisterOr | core/src/cpu.cpp:201-207 | the OR r stores give the table after block 17 |
| Cpu.Cpu.RegisterXor | core/src/cpu.cpp:209-215 | the XOR r stores give the whole table |
| Cpu.Cpu.SetFlag | core/src/cpu.h:72-83 | the flag is replaced in the register file and the argument is returned |
| Cpu.Cpu.SetR8 | core/src/cpu.h:39-52 | storing through an 8-bit register changes that byte of its pair only |
| Cpu.Cpu.SetR16 | core/src/cpu.h:39-52 | storing a register pair's `full` view sets both of its bytes |
| Cpu.Cpu.Execute | core/src/cpu.cpp:8-25 | fetch at PC, PC + 1 mod 2^16, the 0xCB prefix runs nothing, any other opcode runs its slot's handler; registers, bus and cycles are those of `Dispatch.Step`, and the table is kept |
| Cpu.Cpu.Call | core/src/cpu.cpp:19-20 | calling through a slot runs exactly the handler it holds |
| Cpu.Cpu.CallArithmetic | core/src/cpu.cpp:19-20 | calling an arithmetic, logic, compare, INC or DEC handler runs it |
| Cpu.Cpu.CallTransfer | core/src/cpu.cpp:19-20 | calling a load, jump, call, stack or invalid-opcode handler runs it |
| Cpu.Cpu.InvalidOpcode | core/src/cpu.cpp:218-223 | changes nothing and returns 0 cycles |
| Cpu.Cpu.Nop | core/src/cpu.cpp:225-228 | changes nothing and returns 1 cycle |
| Cpu.Cpu.AdcAR8 | core/src/cpu.cpp:231-243 | A := A + r + C mod 256 with Z, N, H and C set after F was cleared, 1 cycle, as `Instructions.AdcAR8` |
| Cpu.Cpu.AdcAHlMem | core/src/cpu.cpp:245-255 | the registers become those of `Instructions.AdcAHlMem`, whose closed form `CpuProperties.AdcMemoryToA` states: A := A + (HL) + C mod 256, H from the new A without the carry-in, 2 cycles |
| Cpu.Cpu.AdcAN | core/src/cpu.cpp:257-267 | the registers become those of `Instructions.AdcAN`, whose closed form `CpuProperties.ImmediateAdcFetchesTwice` states: A := A + n + C mod 256, PC + 2 (the second fetch inside H), 2 cycles |
| Cpu.Cpu.AddAR8 | core/src/cpu.cpp:270-282 | the registers become those of `Instructions.AddAR8`, whose closed form `CpuProperties.AddToA` states: A := A + r mod 256 with Z, N, H, C, 1 cycle |
| Cpu.Cpu.AddAHlMem | core/src/cpu.cpp:284-294 | the registers become those of `Instructions.AddAHlMem`, whose closed form `CpuProperties.AddMemoryToA` states: A := A + (HL) mod 256, H computed from the new A, 2 cycles |
| Cpu.Cpu.AddAN | core/src/cpu.cpp:296-306 | A := A + n mod 256, PC + 2 (the second fetch inside H), 2 cycles |
| Cpu.Cpu.AddHlR16 | core/src/cpu.cpp:309-318 | HL := HL + rr mod 2^16, N cleared, H from the new HL, C on overflow, 2 cycles |
| Cpu.Cpu.AddSpE | core/src/cpu.cpp:320-329 | SP := SP + signed operand mod 2^16, Z and N cleared, 4 cycles |
| Cpu.Cpu.AndAR8 | core/src/cpu.cpp:332-341 | A := A & r, F := Z\|H, 1 cycle |
| Cpu.Cpu.AndAHlMem | core/src/cpu.cpp:343-353 | A := A & (HL), F := Z\|H, 2 cycles |
| Cpu.Cpu.AndAN | core/src/cpu.cpp:355-364 | A := A & n, PC + 1, F := Z\|H, 2 cycles |
| Cpu.Cpu.AndFlags | core/src/cpu.cpp:335-339 | F cleared, Z iff A is 0, H set, N and C clear |
| Cpu.Cpu.OrAR8 | core/src/cpu.cpp:745-751 | A := A \| r, F := Z only, 1 cycle |
| Cpu.Cpu.XorAR8 | core/src/cpu.cpp:754-760 | A := A ^ r, F := Z only, 1 cycle |
| Cpu.Cpu.CpAR8 | core/src/cpu.cpp:367-379 | the compare flags of A against r, A kept, 1 cycle |
| Cpu.Cpu.CpAHlMem | core/src/cpu.cpp:616-625 | the compare flags of A against (HL), 2 cycles |
| Cpu.Cpu.CpAN | core/src/cpu.cpp:627-636 | the compare flags of A against n, PC + 1, 2 cycles |
| Cpu.Cpu.CompareFlags | core/src/cpu.cpp:371-376 | Z iff A = v, N set, H iff low nibble of A < that of v, C iff A < v |
| Cpu.Cpu.Cpl | core/src/cpu.cpp:638-644 | A := ~A, N and H set, 1 cycle |
| Cpu.Cpu.Ccf | core/src/cpu.cpp:608-614 | N and H cleared, C flipped, 1 cycle |
| Cpu.Cpu.Daa | core/src/cpu.cpp:646-675 | the decimal adjustment of A with its flags, as `Instructions.Daa` |
| Cpu.Cpu.IncR8 | core/src/cpu.cpp:714-723 | r := r + 1 mod 256, Z from the result, N cleared, H from the old low nibble, C kept, F's low nibble cleared, 1 cycle |
| Cpu.Cpu.DecR8 | core/src/cpu.cpp:382-390 | r := r - 1 mod 256, Z, N, H set, 1 cycle |
| Cpu.Cpu.IncR16 | core/src/cpu.cpp:738-742 | rr := rr + 1 mod 2^16, no flags, 2 cycles |
| Cpu.Cpu.DecR16 | core/src/cpu.cpp:393-397 | rr := rr - 1 mod 2^16, no flags, 2 cycles |
| Cpu.Cpu.IncHlMem | core/src/cpu.cpp:725-735 | (HL) := (HL) + 1 mod 256 through the bus, Z, N, H set, 4 cycles |
| Cpu.Cpu.DecHlMem | core/src/cpu.cpp:677-685 | (HL) := (HL) - 1 mod 256 through the bus, Z and H tested on the unwrapped value, 3 cycles |
| Cpu.Cpu.LdR16NN | core/src/cpu.cpp:400-414 | rr := the little-endian operand, PC + 2, 3 cycles |
| Cpu.Cpu.LdR8N | core/src/cpu.cpp:417-421 | r := n, PC + 1, 2 cycles |
| Cpu.Cpu.LdR8R8 | core/src/cpu.cpp:424-430 | dst := src, 1 cycle |
| Cpu.Cpu.LdNNA | core/src/cpu.cpp:432-438 | (nn) := A through the bus, PC + 2, 4 cycles |
| Cpu.Cpu.LdHldA | core/src/cpu.cpp:440-445 | (HL) := A, HL - 1, 2 cycles |
| Cpu.Cpu.LdAN | core/src/cpu.cpp:447-451 | A := n, PC + 1, 2 cycles |
| Cpu.Cpu.LdANN | core/src/cpu.cpp:453-459 | A := (nn), PC + 2, 4 cycles |
| Cpu.Cpu.JpNN | core/src/cpu.cpp:461-465 | PC := nn, 4 cycles |
| Cpu.Cpu.JpCc | core/src/cpu.cpp:467-505 | not taken: nothing, 3 cycles; taken: PC := nn, 4 cycles |
| Cpu.Cpu.JpHl | core/src/cpu.cpp:507-511 | PC := HL, 1 cycle |
| Cpu.Cpu.JrE | core/src/cpu.cpp:513-518 | PC := PC after the operand + signed operand, 3 cycles |
| Cpu.Cpu.JrCc | core/src/cpu.cpp:520-554 | not taken: nothing, 2 cycles; taken: as JR e, 3 cycles |
| Cpu.Cpu.CallNN | core/src/cpu.cpp:556-570 | return address pushed high byte first, SP - 2, PC := nn, 6 cycles |
| Cpu.Cpu.CallCc | core/src/cpu.cpp:572-606 | not taken: nothing, 3 cycles; taken: as CALL nn |
| Cpu.Cpu.Ret | core/src/cpu.cpp:687-693 | PC := the word at SP, SP + 2, 4 cycles |
| Cpu.Cpu.PushBc | core/src/cpu.cpp:695-702 | B at SP - 1, C at SP - 2, SP - 2, 4 cycles |
| Cpu.Cpu.PopBc | core/src/cpu.cpp:704-711 | C from SP, B from SP + 1, SP + 2, 3 cycles |
| CpuProperties.UnregisteredOnlyAdvancesPc | core/src/cpu.cpp:8-25 | an opcode whose slot holds `invalid_opcode`, or the 0xCB prefix, costs 0 cycles and changes nothing but PC + 1 |
| CpuProperties.ArithmeticCostsCycles | core/src/cpu.cpp:231-760 | every arithmetic, logic, compare, INC and DEC handler costs at least 1 cycle |
| CpuProperties.TransferCostsCycles | core/src/cpu.cpp:225-711 | every other handler but `invalid_opcode` costs at least 1 cycle |
| CpuProperties.ZeroCyclesMeansUnregistered | core/src/cpu.cpp:218-223 | a handler returns 0 cycles if and only if it is `invalid_opcode` |
| CpuProperties.LastNamed | core/src/cpu.cpp:38-216 | a slot holds the handler of the last block that names it, or `invalid_opcode` when none does |
| CpuProperties.DecodeNop | core/src/cpu.cpp:41 | slot 0x00 holds `nop` |
| CpuProperties.NopOnlyAdvancesPc | core/src/cpu.cpp:225-228 | executing NOP steps PC by 1, costs 1 cycle and changes nothing else |
| CpuProperties.DaaIsUnregistered | core/src/cpu.cpp:646-675 | the DAA slot holds `invalid_opcode`: no store names it |
| CpuProperties.MissingLoadsIntoBC | core/src/cpu.cpp:108-113 | LD B,A, LD C,A and LD C,B are never stored and stay `invalid_opcode` |
| CpuProperties.MissingLoadsIntoD | core/src/cpu.cpp:119-122 | LD D,A, LD D,B and LD D,C are never stored and stay `invalid_opcode` |
| CpuProperties.LdANOverrideIsHarmless | core/src/cpu.cpp:447-451 | `ld_a_n` and the `ld_r8_nn<A>` that replaces it in the table behave identically |
| CpuProperties.LoadWordImmediate | core/src/cpu.cpp:400-414 | LD rr,nn stores lo \| hi << 8 in rr, steps PC by 2, leaves the bus and costs 3; the SP variant agrees |
| CpuProperties.LoadHlDecrement | core/src/cpu.cpp:440-445 | LD (HL-),A writes A at HL, HL := HL - 1, 2 cycles |
| CpuProperties.IncrementFlags | core/src/cpu.cpp:714-723 | INC r: r + 1 mod 256, Z iff 0, N clear, H iff old low nibble 0xF, C kept, 1 cycle |
| CpuProperties.IncrementFrame | core/src/cpu.cpp:714-723 | INC r changes no other 8-bit register |
| CpuProperties.DecrementFlags | core/src/cpu.cpp:382-390 | DEC r: r - 1 mod 256, Z iff 0, N set, H iff new low nibble 0, C and A kept, 1 cycle |
| CpuProperties.IncDecA | core/src/cpu.cpp:382-390 | INC A and DEC A set Z (and H for DEC) from the new A |
| CpuProperties.IncrementMemory | core/src/cpu.cpp:725-735 | INC (HL) on RAM: the byte + 1 mod 256, Z/N/H as INC r, C kept, 4 cycles |
| CpuProperties.DecrementMemory | core/src/cpu.cpp:677-685 | DEC (HL) on RAM: the byte - 1 mod 256, Z iff it was 1, N set, H from the unwrapped value - 1, 3 cycles |
| CpuProperties.LogicFlags | core/src/cpu.cpp:332-760 | AND gives F = Z\|H; OR and XOR give F = Z only; Z iff the result is 0; 1 cycle |
| CpuProperties.XorSelfClears | core/src/cpu.cpp:754-760 | XOR A,A clears A and leaves only Z set |
| CpuProperties.CompareFlagsClosedForm | core/src/cpu.cpp:366-379 | CP keeps A and every other register and sets Z iff A = v, N, H iff (A & 0xF) < (v & 0xF), C iff A < v |
| CpuProperties.CompareHandlers | core/src/cpu.cpp:616-636 | CP r is the compare of A with r in 1 cycle; CP n steps PC once, keeps A and costs 2 |
| CpuProperties.FlagOperations | core/src/cpu.cpp:608-644 | CCF clears N and H and flips C; CPL twice restores A and sets N and H |
| CpuProperties.AddToA | core/src/cpu.cpp:270-282 | ADD A,r for every input: A := A + r mod 256, F rebuilt with Z iff the new A is 0, N clear, H iff the low nibbles of A and r carry, C iff the sum exceeds 0xFF; nothing else changes, 1 cycle |
| CpuProperties.AddMemoryToA | core/src/cpu.cpp:284-294 | ADD A,(HL) for every input: A := A + (HL) mod 256, Z, N clear, C iff the sum exceeds 0xFF, and H iff the low nibbles of the NEW A and (HL) carry; nothing else changes, 2 cycles |
| CpuProperties.AdcMemoryToA | core/src/cpu.cpp:245-255 | ADC A,(HL) for every input: A := A + (HL) + C mod 256, C iff that sum exceeds 0xFF, H from the new A and (HL) without the carry-in, Z, N clear; nothing else changes, 2 cycles |
| CpuProperties.ImmediateAddFetchesTwice | core/src/cpu.cpp:296-306 | ADD A,n for every input: A := A + n mod 256 with Z, N clear and C, PC + 2, H from the new A and the byte after the operand; nothing else changes, 2 cycles |
| CpuProperties.ImmediateAdcFetchesTwice | core/src/cpu.cpp:257-267 | ADC A,n for every input: A := A + n + C mod 256, C iff that sum exceeds 0xFF, PC + 2, H from the new A and the byte after the operand without the carry-in; nothing else changes, 2 cycles |
| CpuProperties.HalfCarryFromNewValue | core/src/cpu.cpp:284-294 | with A = 0x0F and (HL) = 0x01 the nibbles carry, yet ADD A,(HL) leaves H clear |
| CpuProperties.AdcHalfCarryIgnoresCarryIn | core/src/cpu.cpp:231-243 | ADC A,r: A + r + C mod 256, H from the nibbles of A and r only, C iff the sum exceeds 0xFF, Z, N clear |
| CpuProperties.AddToHl | core/src/cpu.cpp:309-318 | ADD HL,rr for every pair, HL included: HL + rr mod 2^16, N clear, H tested on the new HL plus rr (plus the new HL again for ADD HL,HL, where `r` aliases HL), C iff sum > 0xFFFF, everything else kept, 2 cycles |
| CpuProperties.AddHlToItself | core/src/cpu.cpp:309-318 | ADD HL,HL doubles HL mod 2^16, H iff twice the low 12 bits of the new HL exceed 0x0FFF, C iff 2 * HL exceeds 0xFFFF |
| CpuProperties.AddToSp | core/src/cpu.cpp:320-329 | ADD SP,e: SP moves by the signed operand, Z and N clear, PC + 1, 4 cycles; H and C test the new SP: H iff e added again to its low 12 bits carries out (e >= 0) or does not borrow (e < 0), C iff e added again to the new SP leaves [0, 0x10000); nothing else changes |
| CpuProperties.RelativeJump | core/src/cpu.cpp:513-554 | a taken JR sets PC to the PC after the operand plus the signed operand in 3 cycles; not taken changes nothing in 2 |
| CpuProperties.DecodeJumps | core/src/cpu.cpp:145-152 | where JP nn and JR NZ,e sit in the table |
| CpuProperties.JrNotTakenStopsOnOperand | core/src/cpu.cpp:520-527 | executing a not-taken JR NZ,e at 0xD000 leaves PC at 0xD001 (the test suite expects 0xD002), in 2 cycles |
| CpuProperties.JpCostsFour | core/src/cpu.cpp:461-465 | executing JP nn costs 4 cycles (the test suite expects 3) and sets PC to the operand |
| CpuProperties.ConditionalNotTaken | core/src/cpu.cpp:467-606 | a conditional JP or CALL not taken returns at once: 3 cycles, nothing changed, PC on the operand |
| CpuProperties.CallPushesReturnAddress | core/src/cpu.cpp:556-570 | CALL nn: SP - 2, low byte of the return address at SP - 2, high byte at SP - 1, PC := nn, 6 cycles |
| CpuProperties.CallThenReturn | core/src/cpu.cpp:687-693 | RET after CALL nn, with the stack in RAM, returns past the CALL with SP restored, in 4 cycles |
| CpuProperties.PushStores | core/src/cpu.cpp:695-702 | PUSH BC: B at SP - 1, C at SP - 2, SP - 2, 4 cycles |
| CpuProperties.PushThenPop | core/src/cpu.cpp:704-711 | POP BC after PUSH BC, with the stack in RAM, restores every register in 3 cycles |
| Lcd.Shade | core/src/ppu.cpp:242 | the palette's shade for a colour id is below 4 |
| Lcd.ColorId | core/src/ppu.cpp:81 | the colour id built from the two bit planes is below 4 |
| Lcd.LinePhases | core/src/ppu.h:28-33 | 80 + 172 + 204 = 456 dots per line, and the framebuffer holds 160 x 144 = 23040 pixels |
| Lcd.LcdcBits | core/src/ppu.h:61-64 | LCD on is bit 7, window bit 5, sprites bit 1, background bit 0 of LCDC |
| Lcd.ShadeFields | core/src/ppu.cpp:242 | colour 0's shade is bits 0-1 of the palette, colour 3's bits 6-7 |
| Lcd.GetColorIsShade | core/src/ppu.cpp:240-252 | `get_color` returns white, light grey, dark grey or black for shade 0, 1, 2, 3 |
| Lcd.ColorIdBits | core/src/ppu.cpp:80-81 | bit 0 of the colour id is the plane-1 bit, bit 1 the plane-2 bit, and the id is 0 iff both are clear |
| VideoBus.View | core/src/memory_map.h:32-47 | the space a `memory_map` presents reads at every address what `read` returns |
| VideoBus.Bus.Write | core/src/ppu.cpp:24 | a bus write replaces exactly one byte |
| VideoBus.ConcreteLcdRegisters | core/src/memory_map.h:32-47 | over the concrete map, VRAM and the LCD registers 0xFF40-0xFF4B all read 0xFF |
| Render.WithRowPixels | core/src/ppu.cpp:83 | writing row `scanline` (index `scanline * 160 + x`) keeps every pixel of other rows and holds the row's colours |
| Render.TileRowAddress | core/src/ppu.cpp:75-78 | the two bytes of a tile row lie in VRAM tile data, 0x8000-0x97FF |
| Render.TilePixel | core/src/ppu.cpp:71-81 | a background or window pixel's colour id is below 4 |
| Render.BackgroundStep | core/src/ppu.cpp:67-83 | one iteration of the background loop writes the colour of the background at (x + SCX) mod 256, (scanline + SCY) mod 256 |
| Render.PaintedNext | core/src/ppu.cpp:83 | each background iteration paints exactly column x |
| Render.WindowStep | core/src/ppu.cpp:107-124 | one window iteration fetches the colour of window column x |
| Render.WindowPaintedNext | core/src/ppu.cpp:122-124 | a window iteration paints screen column x + WX - 7 when it is in [0, 160), and nothing otherwise |
| Render.Oam | core/src/ppu.cpp:141-149 | the 40 sprites are the OAM entries in order, Y and X moved by -16 and -8 as `uint8_t` |
| Render.Chosen | core/src/ppu.cpp:151-160 | at most 10 sprites are taken, every one of them on the line |
| Render.ChosenStep | core/src/ppu.cpp:152-160 | an entry is taken iff fewer than ten are taken and it covers the line |
| Render.ChosenSaturates | core/src/ppu.cpp:154-155 | after ten sprites, the rest of OAM adds nothing |
| Render.SpriteRowAddress | core/src/ppu.cpp:166-170 | a sprite's tile row, flipped vertically by attribute bit 6, lies in 0x8000-0x900F |
| Render.SpritePixel | core/src/ppu.cpp:179-180 | a sprite pixel's colour id, flipped horizontally by attribute bit 5, is below 4 |
| Render.SpriteStep | core/src/ppu.cpp:171-185 | one sprite column's colour id and colour are those of the sprite's row under its palette |
| Render.SpritePaintedNext | core/src/ppu.cpp:176-185 | a sprite column is written when on screen and opaque, and nothing changes otherwise |
| LcdTiming.ModeCode | core/src/ppu.cpp:196-226 | the STAT mode code of a mode is below 4 |
| LcdTiming.StatAfterSwitch | core/src/ppu.cpp:229-235 | STAT gets bit 2 on top of the mode bits exactly when the line after the switch equals LYC |
| Ppu.Ppu.constructor | core/src/ppu.h:49-52 | counter 0, line 0, mode OAM and an all-zero 160 x 144 framebuffer |
| Ppu.Ppu.Tick | core/src/ppu.cpp:9-38 | the counter, line, mode, framebuffer and bus after `tick` are exactly those of `LcdTiming.Tick` |
| Ppu.Ppu.NewLine | core/src/ppu.cpp:16-35 | the line-change block: counter - 456, line + 1 wrapping at 154, LY written, the new visible line rendered, line 144 entering VBlank |
| Ppu.Ppu.RenderScanline | core/src/ppu.cpp:40-50 | the framebuffer becomes the background, window and sprite passes LCDC enables, applied in that order |
| Ppu.Ppu.RenderBackground | core/src/ppu.cpp:52-85 | row `scanline` becomes the 160 background colours, the rest of the framebuffer is kept |
| Ppu.Ppu.BackgroundColumn | core/src/ppu.cpp:67-83 | one iteration of the background loop paints column x |
| Ppu.Ppu.TileColorId | core/src/ppu.cpp:71-81 | the fetched colour id is the tile pixel at the mapped tile address, signed addressing included |
| Ppu.Ppu.SetPixel | core/src/ppu.cpp:83 | exactly pixel `scanline * 160 + column` is replaced |
| Ppu.Ppu.RenderWindow | core/src/ppu.cpp:87-126 | nothing above WY; from WY down the window's row over screen columns WX - 7 onward |
| Ppu.Ppu.WindowColumn | core/src/ppu.cpp:105-124 | one window iteration paints its screen column when on screen |
| Ppu.Ppu.RenderSprites | core/src/ppu.cpp:128-188 | the first ten sprites on the line are drawn in OAM order over row `scanline` |
| Ppu.Ppu.CopyOam | core/src/ppu.cpp:141-149 | the local sprite array holds the 40 OAM entries, Y and X moved |
| Ppu.Ppu.ConsiderSprite | core/src/ppu.cpp:157-186 | a sprite is taken iff it covers the line, and a taken one is drawn over the earlier ones |
| Ppu.Ppu.DrawSpriteLine | core/src/ppu.cpp:162-186 | the sprite's eight columns are drawn over row `scanline` |
| Ppu.Ppu.SpriteColumn | core/src/ppu.cpp:176-185 | one sprite column is written unless off screen or transparent |
| Ppu.Ppu.UpdateMode | core/src/ppu.cpp:190-238 | counter, line and mode after `update_mode` are the transition's; STAT is written and nothing else on the bus |
| Ppu.Ppu.SwitchMode | core/src/ppu.cpp:194-227 | the mode transition, and the mode bits set in `stat` |
| PpuProperties.TickWhileLcdOff | core/src/ppu.cpp:9-12 | with LCDC bit 7 clear, `tick` changes no counter, line, mode, pixel or bus byte |
| PpuProperties.NextLineCounts | core/src/ppu.cpp:19-22 | the line after `line` is (line + 1) mod 154 |
| PpuProperties.TickKeepsLineInRange | core/src/ppu.cpp:14-37 | a tick never takes the line out of 0..153 |
| PpuProperties.TickCounterAndLine | core/src/ppu.cpp:14-22 | a tick that completes a line leaves counter + cycles - 456 (not 0) and the next line; otherwise counter + cycles and the same line |
| PpuProperties.TickEntersVBlank | core/src/ppu.cpp:24-34 | entering line 144 enters VBlank, writes 144 to LY and renders nothing |
| PpuProperties.TickRendersNewLine | core/src/ppu.cpp:24-29 | entering a visible line renders that line, with LY already holding it, and no other row |
| PpuProperties.TickWithinLine | core/src/ppu.cpp:14-16 | a tick that completes no line leaves the framebuffer alone |
| PpuProperties.ModeSteps | core/src/ppu.cpp:194-227 | OAM becomes Drawing at counter 80, Drawing becomes HBlank at 252, HBlank never changes, VBlank holds below line 154 |
| PpuProperties.StatBits | core/src/ppu.cpp:190-238 | STAT bits 3-7 kept, bit 2 set iff it was set or the line equals LYC, bits 0-1 the new mode's code, except 3 on the step out of Drawing or out of VBlank |
| PpuProperties.UpdateModeWritesOnlyStat | core/src/ppu.cpp:237 | `update_mode` writes STAT and no other bus address |
| PpuProperties.TickKeepsBlanking | core/src/ppu.cpp:214-226 | from HBlank or VBlank a tick never leaves the two |
| PpuProperties.BlankingIsForever | core/src/ppu.cpp:214-226 | once in HBlank or VBlank, any run of ticks stays there: the mode machine is stuck |
| PpuProperties.StartReachesHBlank | core/src/ppu.cpp:196-212 | from the initial state, 252 dots reach Drawing and one more call reaches HBlank |
| PpuProperties.TileAddressing | core/src/ppu.cpp:58-75 | with signed addressing the tile index is (id + 128) mod 256 from 0x8800; unsigned it is from 0x8000 |
| PpuProperties.BackgroundIsPlane | core/src/ppu.cpp:62-69 | a background pixel is the 256 x 256 plane's pixel at ((x + SCX) mod 256, (scanline + SCY) mod 256) |
| PpuProperties.PlaneIgnoresScroll | core/src/ppu.cpp:69-81 | the plane does not depend on SCX or SCY |
| PpuProperties.BackgroundWraps | core/src/ppu.cpp:62-69 | two screen points with the same scrolled coordinates mod 256 show the same background pixel |
| PpuProperties.BackgroundWritesItsRow | core/src/ppu.cpp:65-84 | the background pass replaces row `scanline` with its 160 colours and touches no other row |
| PpuProperties.WindowAboveWy | core/src/ppu.cpp:89-91 | above WY the window pass changes nothing |
| PpuProperties.WindowColumns | core/src/ppu.cpp:103-124 | from WY down, screen column c shows window column c + 7 - WX when that is not negative and keeps its colour otherwise; no other row changes |
| PpuProperties.ChosenIsFirstTen | core/src/ppu.cpp:151-160 | the sprites drawn are the first ten on the line in OAM order, or all of them when fewer |
| PpuProperties.SpriteColumns | core/src/ppu.cpp:174-185 | a sprite keeps every column it does not cover and every transparent one; an opaque covered column takes the sprite's palette colour |
| PpuProperties.DrawSpriteColumn | core/src/ppu.cpp:174-185 | column c after one sprite: the sprite's colour where it covers c opaquely, the old colour elsewhere |
| PpuProperties.UncoveredColumnKept | core/src/ppu.cpp:152-187 | a column no drawn sprite covers keeps its colour |
| PpuProperties.LastSpriteWins | core/src/ppu.cpp:152-187 | of the sprites covering a column, the last in OAM order decides its colour |
| PpuProperties.SpritesDrawFirstTen | core/src/ppu.cpp:151-187 | the sprite pass draws at most ten sprites, the first ten on the line |
| PpuProperties.SpriteAboveTopNeverShown | core/src/ppu.cpp:145 | an OAM entry whose Y byte is below 16 wraps below the screen and is on no visible line |
| PpuProperties.SpriteLeftOfScreenNeverDrawn | core/src/ppu.cpp:146 | an OAM entry whose X byte is below 8 wraps right of the screen and draws nothing |
| PpuProperties.ScanlineKeepsOtherRows | core/src/ppu.cpp:40-50 | rendering a scanline changes no pixel outside its row |
| PpuProperties.ConcreteLcdAllOn | core/src/memory_map.h:46 | over the concrete map LCDC reads 0xFF, so the LCD and all three layers count as on |

## Left out

- The CB-prefixed instructions: `execute` runs nothing for them, and the model does the same.
- The diagnostic `std::cerr` line of `execute`. Its branch is unreachable, because every slot holds a handler.
- The interrupt requests, which are commented out in `tick` and `update_mode`.
- ROM/RAM banking, the boot ROM, audio and input: none of them is in the modelled code.
- `get_framebuffer`: a read-only accessor. `Ppu.Ppu.Frame` is its value.
- The host window, the renderer and the driver loop (`main.cpp`, `window.cpp`, `fb_renderer.cpp`), which are foreign calls and I/O.
- The superseded variants `gb.cpp`, `gb.h`, `core.h` and `core.cpp`.
- Memory.MemoryMap.LoadRom: opening and reading the file is I/O. Whether the file opens, and its bytes, are a parameter, and a failure to open is a `false` result in place of the exception.
- Lcd.GetColor: requires a colour id below 4. Every caller passes one, and the `default` arm of its `switch` cannot be reached.
- PpuProperties.TickCounterAndLine: stated only for counter + cycles below 2^32, where the `uint32_t` sum does not wrap. `LcdTiming.Tick` itself models the wrap with `Wrap32`.
- The PPU is modelled over an abstract 64 KiB bus, not over the concrete `memory_map`. On the concrete map, LCDC reads 0xFF and LY, STAT and VRAM are not backed, so every pixel would be the same colour. `VideoBus.View` and `PpuProperties.ConcreteLcdAllOn` connect the two.
- The F register is kept flag by flag, not as a byte. `Registers.PackUnpack` and `Registers.SetFlagIsBitOperation` show that nothing is lost.
- The register file is a value (`Registers.Regs`). The class `Cpu.Cpu` holds the same fields.
- Some methods have no counterpart of their own in the C++: `Ppu.Ppu.TileColorId`, `SetPixel`, `BackgroundColumn`, `WindowColumn`, `CopyOam`, `ConsiderSprite`, `DrawSpriteLine`, `SpriteColumn`, `SwitchMode` and `NewLine`.
  - Each is a loop body or a block of a source function, split out so that it can be proved on its own.
  - In `ConsiderSprite` the sprite counter is incremented after the sprite is drawn, not before. Nothing reads it in between.
- Each handler of `Cpu.Cpu` stands for a whole template family, parametrised by a register selector.
- The `ld_r16_nn` variant for SP writes the two halves separately. The model writes the word, and `CpuProperties.LoadWordImmediate` shows the two agree.
