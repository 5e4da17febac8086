# GBEmulator core in Dafny

This project models the core of a small Game Boy emulator: the LR35902 CPU
interpreter, the background renderer, the machine that wires the two to a
shared 64 KiB memory map, and the cartridge-header decoder.

- **CPU.** One call of `CPU::step` does the following, in order:
  - checks the render gate;
  - dispatches the V-blank interrupt;
  - fetches an opcode and executes one of the implemented instructions (or
    freezes on an unimplemented one);
  - charges the cycle cost from `OP_CYCLES`;
  - advances the memory-mapped LY register every 456 cycles, raising
    `ready_for_render` on line 144.

  The prefixed (0xCB) opcodes shift, rotate, test, reset or set bits of one
  of eight targets (`CPU::shift_operation_CB`).
- **GPU.** `GPU::draw_frame` decodes the 32 x 32 background tile map into a
  256 x 256 picture of 2-bit colour numbers. It then copies the scrolled
  160 x 144 window into the frame buffer.
- **Machine.** `Gameboy::Gameboy` builds the memory image from the ROM and
  the boot ROM and sizes the save RAM from the header.
- **Cartridge.** `Cartridge::Cartridge` copies the header fields and maps
  the size codes to bank counts.

The model has two layers.

- **Value layer.** Pure functions on datatypes:
  - `CpuSpec.Step` on a `State` record;
  - `Gpu.DrawnFrame` on the two buffers;
  - `Machine.MemoryImage`;
  - `Cartridge.RomBankCount` and `Cartridge.RamBankCount`.

  The lemmas about the behaviour are stated on these functions.
- **Imperative layer.** It follows the C++:
  - class `Cpu.Cpu` has the fields of `class CPU`. Its methods update them
    statement by statement, and each method is proved to leave the object in
    the state the value layer computes.
  - class `Gpu.Gpu` holds the two buffers as arrays. `DrawFrame` fills them
    with nested loops shaped like the source's and is proved to produce
    `DrawnFrame`. Two places follow the evidently intended code instead of
    the code as written: the signed tile address and the clear of the frame
    buffer (see Findings and Left out).
  - class `Machine.Gameboy` has a constructor that runs memset/memcpy loops
    to build the memory image.
  - `Cartridge.Decode` copies the header fields with `for` loops.

Integers are unbounded in Dafny, so every C width is explicit:
- `u8`, `u16`, `u32` and `u64` subset types;
- `Wrap8`, `Wrap16`, `Wrap32` and `Wrap64` for the truncations of the
  `uint8_t`, `uint16_t`, `uint32_t` and `uint64_t` stores;
- `Signed` for the `int8_t` cast.

Bitwise operators are defined on naturals (module `Bits`). Lemmas bridge them
to arithmetic, so every flag formula is modelled as the source writes it
and then proved equal to its arithmetic meaning.

Quirks of the source are reproduced, not corrected:
- 0xE2 stores to `0xFF | C`, not `0xFF00 | C`;
- DAA only ever sets C;
- DEC B computes H from a low nibble of 0, while the other DECs use 0x0F;
- RLA forces Z to 0;
- the viewport copy tests the scrolled position against 160 x 144, not
  against the 256 x 256 picture;
- an unimplemented opcode is a terminal `Stuck` outcome, the `while (1);`
  of the default case.

The two operand bytes of 0xEA and 0xFA come from two unsequenced `PC++` in
one C++ expression. The model reads the first operand byte as the low byte.

## Model

| member | source | states |
|---|---|---|
| Bits.Signed | GBEmulator/Gameboy.cpp:314 | the `(int8_t)` reading of a byte lies in -128..127 and wraps back to the same byte |
| Registers.FromWord | GBEmulator/Gameboy.h:20-23 | the byte pair of a `reg` union whose 16-bit view is the given word |
| Registers.WordBytes | GBEmulator/Gameboy.h:17-23 | the 16-bit view's high byte is `b8[HI]` (HI=1) and its low byte `b8[LO]` (LO=0) |
| Registers.WordRoundTrip | GBEmulator/Gameboy.h:20-23 | splitting a pair's word back into bytes gives the same pair |
| Registers.SplitMasks | GBEmulator/Gameboy.cpp:292-294 | `NN >> 8` and `NN & 0xFF` are the high and low byte of NN |
| Alu.Flag | GBEmulator/Gameboy.cpp:457 | a comparison stored in a flag is 1 exactly when it holds, else 0 |
| Alu.FlagMasks | GBEmulator/Gameboy.cpp:457-460 | the masks `& 0xFF`, `& 0x0F`, `& 0x10` and `& 0xFF00` are the low byte, the low nibble, bit 4 and "has a high byte" |
| Alu.Add | GBEmulator/Gameboy.cpp:454-462 | ADD and ADC (540-548): A becomes the sum modulo 256; Z iff that is 0; N = 0; C iff the sum exceeds 0xFF |
| Alu.HalfCarryOfAdd | GBEmulator/Gameboy.cpp:459 | H, bit 4 of `A ^ N ^ NN`, is exactly the carry out of the low nibble |
| Alu.Sub | GBEmulator/Gameboy.cpp:463-470 | SUB and CP (488-495, 589-596): the difference modulo 256; Z iff the operands are equal; N = 1; C iff the operand is larger than A |
| Alu.HalfBorrowOfSub | GBEmulator/Gameboy.cpp:467 | H of SUB and CP is exactly the borrow into the low nibble |
| Alu.SubUndoesAdd | GBEmulator/Gameboy.cpp:454-470 | ADD n then SUB n gives back A |
| Alu.Inc | GBEmulator/Gameboy.cpp:257-262 | INC r: the successor modulo 256; Z iff r was 0xFF; N = 0; H iff the low nibble was 0xF; C kept |
| Alu.Dec | GBEmulator/Gameboy.cpp:278-283 | DEC C, D, E and A: the predecessor modulo 256; Z iff r was 1; N = 1; H iff the low nibble was 0; C kept |
| Alu.DecB | GBEmulator/Gameboy.cpp:263-268 | DEC B: the same value, Z, N and C, but H iff the low nibble was 1 |
| Alu.DecUndoesInc | GBEmulator/Gameboy.cpp:257-268 | DEC after INC gives back the register |
| Alu.DecBDiffersOnlyInH | GBEmulator/Gameboy.cpp:263-283 | DEC B agrees with the other DECs except in H, and differs there exactly when the low nibble is 0 or 1 |
| Alu.LogicalAnd | GBEmulator/Gameboy.cpp:572-578 | AND n: the result is no larger than either operand; Z iff it is 0; N, H, C = 0, 1, 0 |
| Alu.LogicalAndBits | GBEmulator/Gameboy.cpp:573 | each bit of the AND is set iff it is set in both operands |
| Alu.SelfOperationsAgree | GBEmulator/Gameboy.cpp:471-487 | XOR A, AND A and OR A as written (constants and flag assignments) agree with the general operations applied to A and A |
| ShiftOps.Rlc | GBEmulator/Gameboy.cpp:102-111 | RLC: bit 7 moves to bit 0 and into C; Z iff the byte is 0 |
| ShiftOps.Rl | GBEmulator/Gameboy.cpp:102-111 | RL: a shift left with the old C entering bit 0; C is the old bit 7 |
| ShiftOps.Rrc | GBEmulator/Gameboy.cpp:92-101 | RRC: bit 0 moves to bit 7 and into C |
| ShiftOps.Rr | GBEmulator/Gameboy.cpp:92-101 | RR: a shift right with the old C entering bit 7; C is the old bit 0 |
| ShiftOps.Sla | GBEmulator/Gameboy.cpp:122-129 | SLA: a shift left with 0 entering; C is the old bit 7 |
| ShiftOps.Sra | GBEmulator/Gameboy.cpp:114-121 | SRA: a shift right that keeps bit 7; C is the old bit 0 |
| ShiftOps.Srl | GBEmulator/Gameboy.cpp:132-139 | SRL: a shift right with 0 entering; C is the old bit 0 |
| ShiftOps.Swap | GBEmulator/Gameboy.cpp:140-149 | SWAP exchanges the nibbles; Z iff the result is 0; N, H, C cleared |
| ShiftOps.TestBit | GBEmulator/Gameboy.cpp:153-158 | BIT b: Z iff bit b is clear; N = 0, H = 1, C kept |
| ShiftOps.ResetBits | GBEmulator/Gameboy.cpp:160 | the mask `(0xFE << B) \| (0xFF >> (8 - B))` clears bit B and keeps every other bit |
| ShiftOps.ResetBit | GBEmulator/Gameboy.cpp:159-161 | RES b: bit b becomes 0, every other bit is kept |
| ShiftOps.SetBits | GBEmulator/Gameboy.cpp:163 | `val \| (1 << B)` stays a byte, sets bit B and keeps every other bit |
| ShiftOps.SetBit | GBEmulator/Gameboy.cpp:162-164 | SET b: bit b becomes 1, every other bit is kept |
| ShiftOps.Apply | GBEmulator/Gameboy.cpp:84-165 | the operation selected by `op >> 6`: BIT writes nothing back, only changes the flags and keeps the byte; RES and SET keep the flags |
| ShiftOps.SwapTwice | GBEmulator/Gameboy.cpp:140-149 | SWAP applied twice gives the byte back |
| ShiftOps.RlcThenRrc | GBEmulator/Gameboy.cpp:92-111 | RRC undoes RLC, and both carry out the old bit 7 |
| ShiftOps.RlThenRr | GBEmulator/Gameboy.cpp:92-111 | RR undoes RL, carrying the original C back |
| ShiftOps.SlaThenSrl | GBEmulator/Gameboy.cpp:122-139 | SRL after SLA gives the byte without its bit 7 |
| ShiftOps.ResAndSetOverwrite | GBEmulator/Gameboy.cpp:159-164 | SET after RES is SET, and RES after SET is RES, on the same bit |
| ShiftOps.SetKeepsSetBit | GBEmulator/Gameboy.cpp:162-164 | SET b leaves a byte unchanged iff bit b was already set |
| CpuSpec.OpCycles | GBEmulator/Gameboy.cpp:4-22 | the cycles charged for an opcode are the `OP_CYCLES` entry, and never more than 32 |
| CpuSpec.RaiseInterrupt | GBEmulator/Gameboy.cpp:618-620 | `IF \|= 1 << intrpt` makes the class's bit (V_BLANK 0, LCD_STAT 1, TIMER 2, as numbered at Gameboy.h:25-29) 1 and keeps every other bit |
| CpuSpec.JoinAsWritten | GBEmulator/Gameboy.cpp:509-510 | `lo \| hi << 8` is the word with that high and low byte |
| CpuSpec.DaaFlags | GBEmulator/Gameboy.cpp:354-377 | DAA sets C exactly after a subtraction with A below 0x60 (C set) or at least 0xA0 (C clear), and changes nothing else |
| CpuSpec.HighPageAsWritten | GBEmulator/Gameboy.cpp:554 | `0xFF00 \| n` is the address n bytes into the last page |
| CpuSpec.LowPageAsWritten | GBEmulator/Gameboy.cpp:565-567 | `0xFF \| C` is what 0xE2 stores to, and for C nonzero it is not `0xFF00 + C` |
| CpuSpec.RotateAValue | GBEmulator/Gameboy.cpp:305-312 | `RA << 1 \| FC` truncated to a byte is A shifted left with C in bit 0 |
| CpuSpec.ComplementCarryAsWritten | GBEmulator/Gameboy.cpp:410-414 | `FC ^ 0x1` flips a 0/1 carry |
| CpuSpec.DispatchBitOps | GBEmulator/Gameboy.cpp:223-225 | `IF & 1 << V_BLANK` tests bit 0, and `IF ^= 1 << V_BLANK` then subtracts 1 |
| Cpu.Cpu.constructor | GBEmulator/Gameboy.cpp:184-206 | PC and both counters start at 0 and the gate is down; the uninitialised registers take the given contents; the memory map is the one given (`set_memmap`, 208-210) |
| Cpu.Cpu.Fetch | GBEmulator/Gameboy.cpp:241 | `memory_map[PC++]` returns the byte at PC and advances PC modulo 2^16 |
| Cpu.Cpu.Store | GBEmulator/Gameboy.cpp:255 | one memory byte changes, nothing else |
| Cpu.Cpu.Push | GBEmulator/Gameboy.cpp:513-516 | `memory_map[--SP] = hi; memory_map[--SP] = lo;` leaves the core as `CpuSpec.Push` says |
| Cpu.Cpu.PushByte | GBEmulator/Gameboy.cpp:514 | SP is decremented and the byte is stored there |
| Cpu.Cpu.PopByte | GBEmulator/Gameboy.cpp:505 | the byte at SP is returned and SP incremented |
| Cpu.Cpu.FetchWord | GBEmulator/Gameboy.cpp:509-510 | the operand word is read, low byte first, and PC advances by 2 |
| Cpu.Cpu.FetchPair | GBEmulator/Gameboy.cpp:250-253 | `LD rr, nn`: the pair gets the two operand bytes, low first; PC advances by 2 |
| Cpu.Cpu.JumpRelative | GBEmulator/Gameboy.cpp:329-332 | JR cc, e: the displacement is fetched and added to PC when the condition holds |
| Cpu.Cpu.SetFlags | GBEmulator/Gameboy.cpp:457-460 | the four flag fields take the given values |
| Cpu.Cpu.RotateLeftA | GBEmulator/Gameboy.cpp:305-312 | RLA leaves the core as `CpuSpec.RotateLeftA` says |
| Cpu.Cpu.Return | GBEmulator/Gameboy.cpp:525-529 | RET pops PC |
| Cpu.Cpu.ReturnIf | GBEmulator/Gameboy.cpp:496-503 | RET cc pops PC only when the condition holds |
| Cpu.Cpu.PopPair | GBEmulator/Gameboy.cpp:504-507 | POP rr: low byte first, SP advances by 2 |
| Cpu.Cpu.Call | GBEmulator/Gameboy.cpp:533-539 | CALL nn leaves the core as `CpuSpec.Call` says |
| Cpu.Cpu.AdcImmediate | GBEmulator/Gameboy.cpp:540-548 | ADC A, n leaves the core as `CpuSpec.AdcImmediate` says |
| Cpu.Cpu.ExecuteRow0 | GBEmulator/Gameboy.cpp:248-286 | opcodes 0x00 to 0x0F: implemented exactly where the value model is, with the same result, and nothing changes otherwise |
| Cpu.Cpu.ExecuteRow1 | GBEmulator/Gameboy.cpp:287-328 | the same for 0x10 to 0x1F |
| Cpu.Cpu.ExecuteRow2 | GBEmulator/Gameboy.cpp:329-384 | the same for 0x20 to 0x2F |
| Cpu.Cpu.ExecuteRow3 | GBEmulator/Gameboy.cpp:385-414 | the same for 0x30 to 0x3F |
| Cpu.Cpu.ExecuteRows4To7 | GBEmulator/Gameboy.cpp:415-453 | the same for 0x40 to 0x7F |
| Cpu.Cpu.ExecuteRows8ToB | GBEmulator/Gameboy.cpp:454-495 | the same for 0x80 to 0xBF |
| Cpu.Cpu.ExecuteRowC | GBEmulator/Gameboy.cpp:496-548 | the same for 0xC0 to 0xCF |
| Cpu.Cpu.ExecuteRowsDToE | GBEmulator/Gameboy.cpp:549-578 | the same for 0xD0 to 0xEF |
| Cpu.Cpu.ExecuteRowF | GBEmulator/Gameboy.cpp:559-596 | the same for 0xF0 to 0xFF |
| Cpu.Cpu.CbRead | GBEmulator/Gameboy.cpp:69-79 | the byte of target R: B, C, D, E, H, L, the byte at HL, or A |
| Cpu.Cpu.CbWrite | GBEmulator/Gameboy.cpp:170-181 | only target R changes |
| Cpu.Cpu.ShiftOperationCB | GBEmulator/Gameboy.cpp:61-182 | the whole prefixed operation leaves the core as `CpuSpec.ShiftOperationCB` says; the counters, IE and IF are untouched |
| Cpu.Cpu.Execute | GBEmulator/Gameboy.cpp:247-602 | the `switch (op)`: it reports an unimplemented opcode exactly when the value model has none, and then changes nothing |
| Cpu.Cpu.Dispatch | GBEmulator/Gameboy.cpp:217-227 | the interrupt check leaves the object as `CpuSpec.Dispatch` says |
| Cpu.Cpu.Tick | GBEmulator/Gameboy.cpp:604-615 | the cycle charge and the line check leave the object as `CpuSpec.Tick` says |
| Cpu.Cpu.EndOfLine | GBEmulator/Gameboy.cpp:606-615 | the line check alone, as `CpuSpec.EndOfLine` says |
| Cpu.Cpu.Step | GBEmulator/Gameboy.cpp:212-617 | one `step`: the new object is the `Done` state of `CpuSpec.Step`, or `stuck` is reported with the object in the state the spin freezes |
| Cpu.Cpu.SetInterruptFlag | GBEmulator/Gameboy.cpp:618-620 | only IF changes, to `RaiseInterrupt` of the old IF |
| CpuProps.StackSlots | GBEmulator/Gameboy.cpp:514-515 | the two slots `--SP` reaches are distinct, and two increments from the lower one return to SP |
| CpuProps.PushStores | GBEmulator/Gameboy.cpp:513-516 | a push stores the high byte at SP-1 and the low byte at SP-2, moves SP down by 2, and changes no other byte or register |
| CpuProps.PoppedAfterPush | GBEmulator/Gameboy.cpp:525-529 | popping a word right after pushing two bytes gives the word of those bytes and SP back |
| CpuProps.PushThenPopBC | GBEmulator/Gameboy.cpp:504-516 | PUSH BC then POP BC restores BC and SP; only the stack bytes differ |
| CpuProps.CallPushesReturnAddress | GBEmulator/Gameboy.cpp:533-539 | opcode 0xCD: PC becomes the operand, SP moves down by 2, SP-1 holds the high and SP-2 the low byte of the address past the operand, and no other byte or register changes |
| CpuProps.RetUndoesCall | GBEmulator/Gameboy.cpp:525-539 | opcode 0xC9 right after opcode 0xCD returns to the instruction after the call, with SP restored |
| CpuProps.ConditionalReturns | GBEmulator/Gameboy.cpp:496-524 | RET NZ (0xC0) and RET Z (0xC8): when the condition holds, PC becomes the word at SP (low) and SP+1 (high), SP moves up by 2 and nothing else changes; otherwise nothing changes; at most one of the two returns |
| CpuProps.WordIncDec | GBEmulator/Gameboy.cpp:339-393 | a 16-bit increment then decrement gives the word back |
| CpuProps.PairIncDec | GBEmulator/Gameboy.cpp:339-393 | the same for a register pair rebuilt from its word |
| CpuProps.StoreIncrementHL | GBEmulator/Gameboy.cpp:337-342 | opcode 0x22: A is stored at HL and at no other address, HL's word goes up by 1 modulo 2^16, and no other register changes |
| CpuProps.StoreDecrementHL | GBEmulator/Gameboy.cpp:389-394 | opcode 0x32: A is stored at HL and at no other address, HL's word goes down by 1 modulo 2^16, and no other register changes |
| CpuProps.IncrementThenDecrementHL | GBEmulator/Gameboy.cpp:337-394 | LD (HL+),A then LD (HL-),A brings HL back, with A stored at both addresses |
| CpuProps.JumpToSelf | GBEmulator/Gameboy.cpp:313-316 | JR with displacement -2 jumps back to its own opcode |
| CpuProps.CompareKeepsA | GBEmulator/Gameboy.cpp:488-495 | CP (HL) and CP n (589-596) keep A; Z iff A equals the operand; C iff the operand is larger |
| CpuProps.AddFromMemory | GBEmulator/Gameboy.cpp:454-462 | ADD A,(HL) changes only A and the flags: the sum modulo 256, Z iff it is 0, H the low-nibble carry, C the byte carry |
| CpuProps.AddWithCarryImmediate | GBEmulator/Gameboy.cpp:540-548 | ADC A,n adds the operand and C, with the same flag meanings, and steps PC over the operand |
| CpuProps.SubtractB | GBEmulator/Gameboy.cpp:463-470 | SUB B changes only A and the flags: Z iff A equalled B, H the low-nibble borrow, C the byte borrow |
| CpuProps.PackedZN | GBEmulator/Gameboy.cpp:581 | the Z and N terms of the flag byte do not overlap |
| CpuProps.PackedZNH | GBEmulator/Gameboy.cpp:581 | adding the H term does not overlap either |
| CpuProps.PackedZNHC | GBEmulator/Gameboy.cpp:581 | nor does adding the C term |
| CpuProps.PackedBits | GBEmulator/Gameboy.cpp:581 | the OR of the four shifted 0/1 flags is their sum |
| CpuProps.PackedFlags | GBEmulator/Gameboy.cpp:579-582 | PUSH AF stores Z in bit 7, N in bit 6, H in bit 5 and C in bit 4 of the flag byte |
| CpuProps.RlaIsRlWithoutZero | GBEmulator/Gameboy.cpp:305-312 | RLA gives the byte and the carry of the prefixed RL A, but Z forced to 0 |
| CpuProps.ClearLowBit | GBEmulator/Gameboy.cpp:225 | subtracting 1 from an odd IF clears bit 0 and keeps the others |
| CpuProps.LowBit | GBEmulator/Gameboy.cpp:223 | bit 0 of a byte is its parity |
| CpuProps.DispatchIdle | GBEmulator/Gameboy.cpp:218 | without IME, or with IF clear, the interrupt check changes nothing |
| CpuProps.DispatchPushesPC | GBEmulator/Gameboy.cpp:218-222 | with IME set and IF nonzero: IME is cleared and PC is pushed (high byte at SP-1, low at SP-2) |
| CpuProps.DispatchVBlank | GBEmulator/Gameboy.cpp:223-226 | with bit 0 of IF set, PC becomes 0x0040 and only bit 0 of IF is cleared |
| CpuProps.DispatchOtherInterrupt | GBEmulator/Gameboy.cpp:218-227 | with IF nonzero but bit 0 clear, PC is pushed but not redirected and IF stays |
| CpuProps.RaiseThenDispatch | GBEmulator/Gameboy.cpp:618-620 | raising V-blank with IME set makes the next check jump to 0x0040 |
| CpuProps.RaiseIdempotent | GBEmulator/Gameboy.cpp:618-620 | raising a class twice is raising it once |
| CpuProps.RaiseCommutes | GBEmulator/Gameboy.cpp:618-620 | raising two classes gives the same IF in either order |
| CpuProps.TickWithinLine | GBEmulator/Gameboy.cpp:604-606 | within a line only the two counters grow (the 64-bit one modulo 2^64) |
| CpuProps.TickEndOfLine | GBEmulator/Gameboy.cpp:604-615 | past 456: LY becomes (LY+1) % 154, 456 is subtracted, and the gate is raised iff it was raised or the new LY is 144 |
| CpuProps.TickKeepsLineBound | GBEmulator/Gameboy.cpp:605-608 | a charge of at most 32 cycles keeps the line counter at or below 456 |
| CpuProps.TickKeepsLineNumber | GBEmulator/Gameboy.cpp:607 | LY stays below 154 |
| CpuProps.StepWhileReady | GBEmulator/Gameboy.cpp:215 | while `ready_for_render` is raised, `step` changes nothing |
| CpuProps.TickCharges | GBEmulator/Gameboy.cpp:604 | the end of a step adds its charge to `cycle_count` modulo 2^64 |
| CpuProps.StepCharges | GBEmulator/Gameboy.cpp:604-605 | a completed step ends with the charge of `OP_CYCLES` of the fetched opcode, applied to a state whose `cycle_count` is the starting one |
| CpuProps.StuckChargesNothing | GBEmulator/Gameboy.cpp:597-601 | an unimplemented opcode freezes the machine after the fetch, with the counters unchanged |
| CpuProps.StepKeepsLineBound | GBEmulator/Gameboy.cpp:212-617 | every step keeps `lcd_count <= 456` |
| CpuProps.CbReadAfterWrite | GBEmulator/Gameboy.cpp:69-79 | the write-back to target R (170-181) and a read of R give the byte written |
| CpuProps.CbWriteKeepsOthers | GBEmulator/Gameboy.cpp:170-181 | writing target R keeps every other target, except that writing H or L moves the target (HL) |
| CpuProps.CbWriteFrame | GBEmulator/Gameboy.cpp:170-181 | a write-back changes no control register, and memory only at HL for R = 6 |
| CpuProps.CbBitWritesNothing | GBEmulator/Gameboy.cpp:153-158 | BIT changes only PC and the flags |
| CpuProps.CbTouchesOnlyTarget | GBEmulator/Gameboy.cpp:61-182 | a prefixed operation stores its result in target R and leaves the other targets, SP and IME alone |
| Gpu.LcdcFlag | GBEmulator/Gameboy.cpp:657-666 | `(LCDC >> n) & 0x01` is bit n of LCDC |
| Gpu.BgMapBase | GBEmulator/Gameboy.cpp:672 | the tile map starts at 0x9C00 iff LCDC bit 3 is set, at 0x9800 otherwise |
| Gpu.TileAddress | GBEmulator/Gameboy.cpp:680-683 | as intended: a tile lies inside 0x8000..0x97FF, 16-byte aligned, in 0x8000..0x8FFF for unsigned and 0x8800..0x97FF for signed numbering |
| Gpu.TileAddressAsWrittenDiffers | GBEmulator/Gameboy.cpp:680-683 | the address as written agrees with the intended one iff the numbering is unsigned or the tile number is below 0x80; otherwise it lies past 0xFFFF |
| Gpu.SignedTileReadsPastMemory | GBEmulator/Gameboy.cpp:680-683 | with LCDC 0x81, tile 0x80 is read from 0x108800 instead of 0x8800 |
| Gpu.TilePixel | GBEmulator/Gameboy.cpp:688-689 | the colour number of pixel l is 0..3, its low bit from `b2` and its high bit from `b1`, bit 7 - l |
| Gpu.BgPixel | GBEmulator/Gameboy.cpp:674-696 | every background pixel is a colour number 0..3 |
| Gpu.Background | GBEmulator/Gameboy.cpp:674-696 | the background picture has 256 x 256 pixels |
| Gpu.BackgroundAt | GBEmulator/Gameboy.cpp:684-693 | `total_frame[(8i+k)*256 + 8j+l]` is the pixel decoded from bytes 2k and 2k+1 of the tile at map position (i, j) |
| Gpu.Viewport | GBEmulator/Gameboy.cpp:761-771 | the frame has 160 x 144 pixels |
| Gpu.ViewportAt | GBEmulator/Gameboy.cpp:761-771 | `frame_buffer[y*160+x]` is `total_frame[(sy+y)*256 + sx+x]` when `sx+x < 160` and `sy+y < 144`, and 0 otherwise |
| Gpu.ClearAsWritten | GBEmulator/Gameboy.cpp:698-700 | the clearing loop as written is defined only on a buffer of at least 65536 bytes |
| Gpu.ClearAsWrittenOverruns | GBEmulator/Gameboy.cpp:698-700 | on the 23040-byte frame buffer the loop runs 42496 bytes past its end |
| Gpu.DrawnFrame | GBEmulator/Gameboy.cpp:656-772 | what `draw_frame` leaves is again a pair of buffers of the right sizes |
| Gpu.DisplayOffKeepsFrame | GBEmulator/Gameboy.cpp:657-658 | with LCDC bit 7 clear nothing changes |
| Gpu.DrawFrameIdempotent | GBEmulator/Gameboy.cpp:656-772 | with memory unchanged, drawing twice gives what drawing once gives |
| Gpu.DrawnFrameFromMemory | GBEmulator/Gameboy.cpp:671-771 | with display and background on, the result does not depend on the old buffers and every visible pixel is 0..3 |
| Gpu.Gpu.constructor | GBEmulator/Gameboy.cpp:636-643 | a 160 x 144 frame and a 256 x 256 background, both zeroed, over the given memory map (`set_memmap`, 648-650) |
| Gpu.Gpu.DrawFrame | GBEmulator/Gameboy.cpp:656-772 | the two buffers end as `DrawnFrame` of the memory and the old buffers |
| Gpu.Gpu.DrawBackground | GBEmulator/Gameboy.cpp:671-697 | the nested tile loops leave `total_frame` equal to the background picture |
| Gpu.Gpu.DrawTile | GBEmulator/Gameboy.cpp:676-694 | one tile's 64 pixels get their background values, every other pixel is kept |
| Gpu.TileLinePixels | GBEmulator/Gameboy.cpp:684-693 | the eight background pixels of line k of tile (i, j) are the pixels decoded from that line's two bytes |
| Gpu.Gpu.DrawTileLine | GBEmulator/Gameboy.cpp:687-693 | one tile line's 8 pixels get their background values, every other pixel is kept |
| Gpu.Gpu.ClearFrame | GBEmulator/Gameboy.cpp:698-700 | as intended: the whole 160 x 144 frame buffer becomes 0 |
| Gpu.Gpu.DrawViewport | GBEmulator/Gameboy.cpp:758-771 | the frame buffer becomes the scrolled window of `total_frame` |
| Cartridge.RomBankCount | GBEmulator/Cartridge.cpp:14-23 | code 0 gives 0 banks, codes 1..7 give 2^(code+1) (4..256), 0x52..0x54 give 72, 80, 96; every other code leaves the field unassigned |
| Cartridge.RomBytes | GBEmulator/Cartridge.cpp:18-20 | for codes 1..7 the banks hold 32 KiB << code bytes |
| Cartridge.RamBankCount | GBEmulator/Cartridge.cpp:25-30 | codes 0..3 give 0 banks, 4 gives 16, 5 gives 8; every other code leaves the field unassigned |
| Cartridge.CopyBytes | GBEmulator/Cartridge.cpp:6-7 | the copy loop gives exactly n bytes, byte i being `rom[start + i]` |
| Cartridge.Decode | GBEmulator/Cartridge.cpp:4-37 | the 16 title bytes and 4 manufacturer bytes are copied; every other field is its header byte (the two 16-bit ones below 256); the bank counts follow the two tables; unassigned fields keep their prior contents |
| Machine.SaveSizeAgreesWithBanks | GBEmulator/Gameboy.cpp:29-30 | the save size agrees with the decoder's RAM bank count (8 KiB banks) only for codes 0 and 4 |
| Machine.MemoryImageLayout | GBEmulator/Gameboy.cpp:32-35 | the image holds the boot ROM below 0x100, the ROM from 0x100 below its size, and 0 above |
| Machine.MemoryImageKeepsRom | GBEmulator/Gameboy.cpp:34-35 | the ROM bytes from 0x100 up and the first 256 boot ROM bytes are in the image as slices |
| Machine.Memset | GBEmulator/Gameboy.cpp:33 | the first n bytes become v, the rest are kept |
| Machine.Memcpy | GBEmulator/Gameboy.cpp:34 | the first n bytes come from the source, the rest are kept |
| Machine.Gameboy.constructor | GBEmulator/Gameboy.cpp:25-38 | the memory map is the memory image; the save size is `ram_sizes[rom[0x149]]`; CPU and GPU start as their constructors say and share the map |
| Machine.Gameboy.StepCpu | GBEmulator/Gameboy.cpp:44-46 | `stepCPU` raises `isRendered` |

The register layout, the interrupt bit numbers and the address and timing
constants of `GBEmulator/Gameboy.h` are the constants of module `Hardware`
and the types of modules `Registers` and `CpuSpec`:
- V-blank vector 0x0040;
- title 0x134..0x143;
- LCDC 0xFF40, SCY 0xFF42, SCX 0xFF43, LY 0xFF44;
- 154 lines of 456 cycles.

The record of `GBEmulator/Cartridge.h` is `Cartridge.Header`.

## Left out

- Printing:
  - `Gameboy::showTitle`, `showCartInfo` and `CPU::dump_reg`;
  - the `std::cout` lines of `step` and its default case.

  They only write to the standard output.
- The block of `step` run when PC is 0x100. It only logs and takes pointers
  nobody uses.
- The window and sprite code. It sits inside `#if 0` and is not compiled;
  the LCDC bits it would read (6, 5, 2 and 1) are read by the source but
  never used.
- `GBEmulator/GBEmulator.cpp`. It holds the window system, the file loading,
  the timer and the keyboard callbacks; it is not part of this model.
- `GPU::rasterize_tile`. It has an empty body.
- The destructors. They only free memory.
- The contents of the save RAM. `malloc` leaves them uninitialised and
  nothing reads them, so the model only fixes its size.
- `set_memmap` is folded into the constructors of `Cpu.Cpu` and `Gpu.Gpu`.
  The owner calls it once, right after construction, and the map never
  changes afterwards.
- The registers, flags, IME, IE and IF are left uninitialised by `CPU::CPU`.
  The model takes their initial contents as constructor parameters.
- DAA: the results of the `D1`/`D2` corrections are dropped, so the model
  keeps only their effect on C, as the source does.
- 0xEA and 0xFA: the two unsequenced `PC++` are read low byte first. C++
  leaves that order unspecified.
- Prefixed operations are charged `OP_CYCLES[0xCB]` (8 cycles), as in the
  source. There is no per-operation timing.
- Machine.Gameboy.constructor:
  - it requires a header size code below 5 (`ram_sizes` has five entries);
  - it requires a ROM of at most 0x10000 bytes, since `memcpy` of more
    would overrun the memory map;
  - it requires a boot ROM of at least 256 bytes.

  The source reads and copies past the ends in those cases.
- Cartridge.Decode:
  - the header offsets other than the title are a `HeaderLayout`
    parameter, because their macros are not defined in any file of this
    model;
  - it requires the ROM to hold every offset.
- Cartridge.Decode: a field the if-chains leave unassigned keeps a prior
  value, which is given as a parameter. `rom_size_bytes` and
  `ram_size_bytes` are never assigned.
- `DrawFrame` models the `else` branch with the evidently intended bound,
  see Findings.
- Gpu.Background, and with it Gpu.BgPixel, Gpu.DrawnFrame and
  Gpu.Gpu.DrawTile: with LCDC bit 4 clear, the signed tile number is added
  to 0x9000 as a signed integer (`tileId: int`). The source keeps it in a
  `uint16_t tile_id`, so for tile numbers 0x80 and above it reads past the
  64 KiB map. The model does not capture that out-of-bounds read; see
  Findings, where Gpu.TileAddressAsWrittenDiffers states the as-written
  address.
- ShiftOps.Rl: the value clause holds only for a carry flag of 0 or 1.
  `CPU::CPU` leaves the flag bytes uninitialised, so before the first
  instruction that writes C, `FC` may hold any byte.
- ShiftOps.RlThenRr: requires a carry flag of 0 or 1, for the same reason.
- CpuProps.AddWithCarryImmediate: requires a carry flag of 0 or 1, for the
  same reason.
- CpuProps.RlaIsRlWithoutZero: requires a carry flag of 0 or 1, for the
  same reason.
- CpuProps.PackedFlags: requires the four flags to be 0 or 1, that is,
  written at least once.

## Findings

| source | as written | input that shows it | evidently intended | confidence | as-written member | corrected member |
|---|---|---|---|---|---|---|
| GBEmulator/Gameboy.cpp:680-683 | `tile_id` is a `uint16_t`, so the signed tile number `(int8_t)tilenum` becomes `0x10000 + n` before `tile_top_addr + 16 * tile_id` | LCDC = 0x81 (display and background on, tile data at 0x9000), tile number 0x80: the tile is read from 0x108800, past the 64 KiB memory map | the index -128 gives address 0x8800, inside the 0x8800..0x97FF tile block | high; not executed | Gpu.TileAddressAsWrittenDiffers | Gpu.TileAddress |
| GBEmulator/Gameboy.cpp:698-700 | with the background off, the clearing loop runs `i < 256 * 256` over `frame_buffer` | LCDC = 0x80 (display on, background off): 65536 writes into the 23040-byte buffer, 42496 past its end | clear the 160 x 144 frame buffer | high; not executed | Gpu.ClearAsWrittenOverruns | Gpu.Gpu.ClearFrame |
