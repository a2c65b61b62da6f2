# mo65x core in Dafny

A model of the 6502 side of the mo65x emulator, with proofs about it. It covers four parts:

- **The instruction descriptor table** (`InstructionTable`, instruction_table.dfy). This is the 256-slot map from an opcode byte to its instruction type, addressing mode and base cycle count. The model adds the assembler's reverse lookup from (type, mode) to opcode. Exhaustive lemmas prove:
  - the base-cost rule per category and mode;
  - which opcodes are branches;
  - where the rare modes occur;
  - that no (type, mode) pair is used twice;
  - the table's deviating CMP/DEC abs,X slots (0xDE/0xDF).
- **The CPU as the unit tests pin it down** (`Processor`, cpu.dfy). The `Cpu` class keeps registers, flags, cycle counter and operand state as fields, over a 64 KiB memory array. It models:
  - every `prep*Mode` resolver;
  - `calculateEffectiveAddress` and its page-crossing flag;
  - the taken-branch rule;
  - `reset`;
  - `execute` for ADC, AND, ASL, BCC and CLI.

  `execute` is proved against the functional step `Step`, and per-instruction lemmas state what `Step` does. The test scenarios of test/instructionstest.cpp are replayed as methods whose contracts are the values the tests compare (`InstructionsTest`, instructions_test.dfy).
- **The disassembler** (`Disassembly`, disassembler.dfy, over the string helpers in `Text`, text.dfy).
  - The cursor class has `setOrigin`/`nextInstruction`.
  - The hex dumps are built in loops.
  - `disassemble` builds one upper-case line.

  Each text the disassembler produces is paired with a reader. Every field of a disassembled line reads back: the address, the bytes in their columns, the instruction type from its mnemonic, and the operand in its mode's syntax, with its value. Every dump entry reads back as the byte or word it shows.
- **The memory block operations of `System`** (`Emulation`, system.dfy). These are fill, load with clamping, save and the guarded program-counter change. The first three are in-place loops proved against the functions `Filled`, `Loaded` and `Saved`. Lemmas relate those functions: save after load gives the image back, save after fill gives the fill value, and loading what was saved changes nothing.

Bytes and addresses are `int` subsets (`Byte`, `Word` in `Common`, common.dfy). 16-bit truncation is written out as `Wrap16`.

Two places where the visible code itself leaves a choice open, and what the model does:
- `reset`: cpu.cpp is not part of this model. The only code that shows what `reset` does is `testReset` (test/instructionstest.cpp:41-45), and it compares the program counter alone. So `Cpu.Reset` loads the PC from the reset vector and does nothing else.
- Addressing modes: the `switch` in `disassemble` (disassembler.cpp:63-76) names the modes `NoOperands`, `Implied`, `Accumulator` and `Relative`, while the table in main/instructiontable.h fills its slots with `ImpliedOrAccumulator` and `Branch`. The model keeps the table's enumeration. The disassembler maps `ImpliedOrAccumulator` to the no-operand case and `Branch` to the relative operand.

## Model

| member | source | states |
|---|---|---|
| Common.Wrap16 | disassembler.cpp:34-36 | a value stored into a `uint16_t` keeps its residue modulo 65536 and is unchanged when already in range |
| Common.Read16 | disassembler.cpp:20-22 | `read16` is little-endian: the low byte is at the address, the high byte at the next address (wrapping) |
| Text.HexDigit | disassembler.cpp:8-10 | a digit below 16 becomes one lower-case hex character whose value is the digit |
| Text.Upper | disassembler.cpp:82 | `toUpper` keeps the length, replaces every a-z letter by its capital and leaves every other character alone |
| Text.UpperIdempotent | disassembler.cpp:82 | an upper-cased text holds no lower-case letter and upper-casing it again changes nothing |
| Text.ParseHexUpper | disassembler.cpp:82 | upper-casing hexadecimal text keeps its value |
| Text.Decimal | disassembler.cpp:79 | `QString::number` of a natural number is a non-empty digit string without leading zeros |
| Text.DecimalRoundTrip | disassembler.cpp:79 | decimal text reads back as its number |
| Text.SignedDecimal | disassembler.cpp:79 | a signed number's text starts with `-` exactly when it is negative, and has no lower-case letter |
| Text.SignedRoundTrip | disassembler.cpp:77-80 | signed decimal text reads back as its number, also with an explicit `+` before a positive one |
| Text.JoinEntry | disassembler.cpp:38-52 | text appended from equal-width pieces has width times count characters, and piece `k` sits at offset width times `k` |
| InstructionTable.Size | disassembler.cpp:34-36 | instruction length is 1 exactly for implied/accumulator, 3 exactly for the absolute and indirect modes, 2 otherwise |
| InstructionTable.Row0Facts | main/instructiontable.h:9-17 | every slot of row 0x0 has the documented base cost and the branch/Indirect/ZeroPageY placement facts |
| InstructionTable.Row1Facts | main/instructiontable.h:19-26 | the same facts for row 0x1 |
| InstructionTable.Row2Facts | main/instructiontable.h:28-38 | the same facts for row 0x2 |
| InstructionTable.Row3Facts | main/instructiontable.h:40-47 | the same facts for row 0x3 |
| InstructionTable.Row4Facts | main/instructiontable.h:49-58 | the same facts for row 0x4 |
| InstructionTable.Row5Facts | main/instructiontable.h:60-67 | the same facts for row 0x5 |
| InstructionTable.Row6Facts | main/instructiontable.h:69-78 | the same facts for row 0x6 |
| InstructionTable.Row7Facts | main/instructiontable.h:80-87 | the same facts for row 0x7 |
| InstructionTable.Row8Facts | main/instructiontable.h:89-97 | the same facts for row 0x8 |
| InstructionTable.Row9Facts | main/instructiontable.h:99-107 | the same facts for row 0x9 |
| InstructionTable.RowAFacts | main/instructiontable.h:109-120 | the same facts for row 0xA |
| InstructionTable.RowBFacts | main/instructiontable.h:122-132 | the same facts for row 0xB |
| InstructionTable.RowCFacts | main/instructiontable.h:134-144 | the same facts for row 0xC |
| InstructionTable.RowDFacts | main/instructiontable.h:146-153 | the same facts for row 0xD |
| InstructionTable.RowEFacts | main/instructiontable.h:155-165 | the same facts for row 0xE |
| InstructionTable.RowFFacts | main/instructiontable.h:167-174 | the same facts for row 0xF |
| InstructionTable.Row0EncodesBack | main/instructiontable.h:9-17 | the reverse lookup of each defined slot's (type, mode) in row 0x0 gives back that slot |
| InstructionTable.Row1EncodesBack | main/instructiontable.h:19-26 | the same for row 0x1 |
| InstructionTable.Row2EncodesBack | main/instructiontable.h:28-38 | the same for row 0x2 |
| InstructionTable.Row3EncodesBack | main/instructiontable.h:40-47 | the same for row 0x3 |
| InstructionTable.Row4EncodesBack | main/instructiontable.h:49-58 | the same for row 0x4 |
| InstructionTable.Row5EncodesBack | main/instructiontable.h:60-67 | the same for row 0x5 |
| InstructionTable.Row6EncodesBack | main/instructiontable.h:69-78 | the same for row 0x6 |
| InstructionTable.Row7EncodesBack | main/instructiontable.h:80-87 | the same for row 0x7 |
| InstructionTable.Row8EncodesBack | main/instructiontable.h:89-97 | the same for row 0x8 |
| InstructionTable.Row9EncodesBack | main/instructiontable.h:99-107 | the same for row 0x9 |
| InstructionTable.RowAEncodesBack | main/instructiontable.h:109-120 | the same for row 0xA |
| InstructionTable.RowBEncodesBack | main/instructiontable.h:122-132 | the same for row 0xB |
| InstructionTable.RowCEncodesBack | main/instructiontable.h:134-144 | the same for row 0xC |
| InstructionTable.RowDEncodesBack | main/instructiontable.h:146-153 | the same for row 0xD |
| InstructionTable.RowEEncodesBack | main/instructiontable.h:155-165 | the same for row 0xE |
| InstructionTable.RowFEncodesBack | main/instructiontable.h:167-174 | the same for row 0xF |
| InstructionTable.AllSlotFacts | main/instructiontable.h:6-177 | all 256 opcodes (a total lookup) satisfy the cost and placement facts and encode back to themselves |
| InstructionTable.ReverseLookup | main/instructiontable.h:9-174 | the (type, mode) to opcode lookup finds every defined slot again |
| InstructionTable.UniqueKindAndMode | main/instructiontable.h:9-174 | two defined slots with the same type and mode are the same opcode |
| InstructionTable.CycleRule | main/instructiontable.h:9-174 | each defined slot's cycles are the documented base cost of its category and mode: reads without the page penalty (4 abs,X/abs,Y, 5 (zp),Y), stores 5/5/6, shifts/rotates/INC/DEC 5/6/6/7, implied 2 except BRK 7, PHA/PHP 3, PLA/PLP 4, RTI/RTS 6 |
| InstructionTable.BranchSlots | main/instructiontable.h:19-167 | a slot is in `Branch` mode exactly when it is 0x10, 0x30, …, 0xF0, and each branch costs 2 |
| InstructionTable.RareModes | main/instructiontable.h:76-126 | `Indirect` occurs only at 0x6C (JMP); `ZeroPageY` only at 0x96 (STX) and 0xB6 (LDX) |
| InstructionTable.DeviatingSlots | main/instructiontable.h:152-153 | 0xDD is empty, 0xDE holds CMP abs,X (4) and 0xDF DEC abs,X (7), and the reverse lookup yields those slots |
| InstructionTable.ModesOfModelled | main/instructiontable.h:9-174 | among ADC, AND, ASL, BCC, CLI no slot uses `Indirect`, and BCC is the only one in `Branch` mode |
| Processor.ZeroPageIndexed | test/instructionstest.cpp:73-91 | zero-page indexing stays in page zero and is the sum modulo 256 (0x80+0x90 gives 0x10) |
| Processor.PageCrossed | test/instructionstest.cpp:151-159 | a page is crossed exactly when the low byte of the base plus the index reaches 0x100 |
| Processor.BranchTarget | test/instructionstest.cpp:161-185 | the branch target is the PC plus the displacement read as a signed byte, modulo 65536 |
| Processor.BranchExtraCycles | test/instructionstest.cpp:161-185 | a taken branch costs 1 extra cycle, or 2 exactly when the target is on another page |
| Processor.AddWithCarry | test/instructionstest.cpp:187-198 | binary ADC: value plus 256 times carry-out equals A + M + carry-in; overflow is set exactly when the signed sum leaves -128..127 |
| Processor.ShiftLeft | test/instructionstest.cpp:213-222 | ASL: value plus 256 times carry equals twice the operand, and bit 0 is clear |
| Processor.And | test/instructionstest.cpp:200-211 | AND is at most each operand, and its low bit is set exactly when both low bits are; every other bit is stated by `AndBits` |
| Processor.AndBits | test/instructionstest.cpp:200-211 | AND is bitwise: at every position, the result's bit is set exactly when both operands' bits are |
| Processor.FlagsToByte | test/instructionstest.cpp:36 | the status byte always reads with the unused bit 5 set |
| Processor.FlagsFromByte | test/instructionstest.cpp:36 | writing a byte sets C from bit 0 and N from bit 7, each flag from its own bit |
| Processor.FlagsByteRoundTrip | test/instructionstest.cpp:36 | writing back the byte read from the flags gives the same flags |
| Processor.ByteFlagsRoundTrip | test/instructionstest.cpp:36 | reading the flags written from a byte gives the byte back with bit 5 set |
| Processor.ClearedFromZero | test/instructionstest.cpp:36 | `regs.p = 0` clears every flag, and the cleared register reads as 0x20 |
| Processor.WithResult | test/instructionstest.cpp:19-25 | after loading a result, N is its bit 7, Z says it is zero, and no other flag changes |
| Processor.Resolve | test/instructionstest.cpp:53-149 | only abs,X, abs,Y and (zp),Y can report a page crossing; the operand is register A exactly in implied/accumulator mode |
| Processor.Penalty | test/instructionstest.cpp:200-222 | the penalty is 1 exactly for a read instruction whose indexing crossed a page, 0 otherwise |
| Processor.Step | test/instructionstest.cpp:11-17 | `IllegalOpcode` exactly for an undefined slot; an instruction that does not complete leaves the machine unchanged |
| Processor.AdcStep | test/instructionstest.cpp:187-198 | ADC completes with A + M + C in A and the carry out, V from the signed sum, N/Z from A, every other flag and X, Y and memory untouched, PC past the instruction, base cycles plus the page penalty |
| Processor.AndStep | test/instructionstest.cpp:200-211 | AND completes with the bitwise AND of A and M in A, N/Z from A, every other flag and X, Y and memory untouched, base cycles plus the page penalty |
| Processor.AslStep | test/instructionstest.cpp:213-222 | ASL shifts A or the memory byte in place, bit 7 into C, N/Z from the result, V and every other flag and X and Y kept, base cycles with no page penalty |
| Processor.BccStep | test/instructionstest.cpp:224-235 | BCC with C clear jumps from the next PC by the signed displacement at 2+1 or 2+2 cycles; with C set it falls through at 2 cycles; nothing else changes |
| Processor.CliStep | test/instructionstest.cpp:47-51 | CLI clears I, advances the PC by 1 and costs 2 cycles, and changes nothing else |
| Processor.Cpu.constructor | test/instructionstest.cpp:8-9 | the CPU is bound to the given memory with zeroed registers, flags and cycles, and is stopped |
| Processor.Cpu.Reset | test/instructionstest.cpp:41-45 | `reset` loads the PC from the little-endian reset vector at 0xFFFC |
| Processor.Cpu.CalculateEffectiveAddress | test/instructionstest.cpp:151-159 | the effective address is base + index modulo 65536, and the crossing flag is overwritten with `PageCrossed` |
| Processor.Cpu.PrepAccumulatorMode | test/instructionstest.cpp:53-56 | the effective operand is register A |
| Processor.Cpu.PrepImmediateMode | test/instructionstest.cpp:58-62 | the effective operand is the operand byte's own location |
| Processor.Cpu.PrepZeroPageMode | test/instructionstest.cpp:64-71 | the effective address is the operand byte; the operand is memory there |
| Processor.Cpu.PrepZeroPageXMode | test/instructionstest.cpp:73-81 | the effective address is the operand byte plus X modulo 256 |
| Processor.Cpu.PrepZeroPageYMode | test/instructionstest.cpp:83-91 | the effective address is the operand byte plus Y modulo 256 |
| Processor.Cpu.PrepAbsoluteMode | test/instructionstest.cpp:93-100 | the effective address is the little-endian operand word |
| Processor.Cpu.PrepAbsoluteXMode | test/instructionstest.cpp:102-110 | the effective address is the operand word plus X, with the crossing flag set by the page rule |
| Processor.Cpu.PrepAbsoluteYMode | test/instructionstest.cpp:112-120 | the effective address is the operand word plus Y, with the crossing flag set by the page rule |
| Processor.Cpu.PrepIndirectMode | test/instructionstest.cpp:122-128 | the effective address is the word stored at the address the operand word gives |
| Processor.Cpu.PrepIndexedIndirectXMode | test/instructionstest.cpp:130-138 | the effective address is the word at zero-page (operand byte + X) |
| Processor.Cpu.PrepIndirectIndexedYMode | test/instructionstest.cpp:140-149 | the effective address is the word at the zero-page operand byte plus Y, with the crossing flag set by the page rule |
| Processor.Cpu.ExecBranch | test/instructionstest.cpp:161-185 | the PC moves by the signed displacement and the cycles grow by 1, or 2 across a page |
| Processor.Cpu.ExecAdc | test/instructionstest.cpp:187-198 | the machine state becomes ADC's `Operate` result on the resolved operand |
| Processor.Cpu.ExecAnd | test/instructionstest.cpp:200-211 | the machine state becomes AND's `Operate` result on the resolved operand |
| Processor.Cpu.ExecAsl | test/instructionstest.cpp:213-222 | the machine state becomes ASL's `Operate` result, writing back to A or memory |
| Processor.Cpu.ExecCli | test/instructionstest.cpp:47-51 | only the interrupt-disable flag changes, to clear |
| Processor.Cpu.ExecOperation | test/instructionstest.cpp:11-17 | dispatching on the type gives `Operate` for each modelled type |
| Processor.Cpu.PrepareOperand | test/instructionstest.cpp:53-149 | every mode except `Indirect` and `Branch` leaves the effective operand where `Resolve` puts it; the indexed modes set the crossing flag as `Resolve` says |
| Processor.Cpu.Fetch | test/instructionstest.cpp:11-17 | the PC passes the instruction and the base cost is added; the operand is resolved; the penalty condition matches `Penalty` |
| Processor.Cpu.OperateAndCharge | test/instructionstest.cpp:11-17 | after the fetch, the operation and the page-crossing charge leave the machine state that `Perform` gives for the state before the fetch |
| Processor.Cpu.ChargePenalty | test/instructionstest.cpp:205-210 | the cycle counter grows by `Penalty` (one cycle for a read instruction whose indexing crossed a page) and nothing else changes |
| Processor.Cpu.ExecuteInstruction | test/instructionstest.cpp:11-17 | a modelled instruction (whose mode is not `Indirect`, and `Branch` exactly for BCC) changes the machine state exactly as `Perform` says |
| Processor.Cpu.Execute | test/instructionstest.cpp:11-17 | one `execute` gives the outcome and machine state that `Step` gives for the state before it |
| InstructionsTest.NewFixture | test/instructionstest.cpp:27-39 | the fixture has zeroed memory, the PC at 0x800, clear flags, zero cycles, and is stopped |
| InstructionsTest.Write16 | test/instructionstest.cpp:42 | `write16` stores the low byte at the address and the high byte after it |
| InstructionsTest.TestReset | test/instructionstest.cpp:41-45 | with 0xFCE2 in the reset vector, `reset` sets the PC to 0xFCE2 |
| InstructionsTest.TestImpliedMode | test/instructionstest.cpp:47-51 | CLI completes, clears I, takes 2 cycles and leaves the CPU stopped |
| InstructionsTest.TestAccumulatorMode | test/instructionstest.cpp:53-56 | the operand is register A |
| InstructionsTest.TestImmediateMode | test/instructionstest.cpp:58-62 | the operand is memory 0x10 |
| InstructionsTest.TestZeroPageMode | test/instructionstest.cpp:64-71 | effective address 0x40, operand 0xF8 |
| InstructionsTest.TestZeroPageXMode | test/instructionstest.cpp:73-81 | effective address 0x10, operand 0xE8 |
| InstructionsTest.TestZeroPageYMode | test/instructionstest.cpp:83-91 | effective address 0xB1, operand 0xE8 |
| InstructionsTest.TestAbsoluteMode | test/instructionstest.cpp:93-100 | effective address 0x20FA, operand 0xF0 |
| InstructionsTest.TestAbsoluteXMode | test/instructionstest.cpp:102-110 | effective address 0x20B0, operand 0x34 |
| InstructionsTest.TestAbsoluteYMode | test/instructionstest.cpp:112-120 | effective address 0xA020, operand 0x84 |
| InstructionsTest.TestIndirectMode | test/instructionstest.cpp:122-128 | effective address 0x34F0 |
| InstructionsTest.TestIndexedIndirectXMode | test/instructionstest.cpp:130-138 | effective address 0xAF01 and the operand is memory there |
| InstructionsTest.TestIndirectIndexedYMode | test/instructionstest.cpp:140-149 | effective address 0xD001, operand 0xEA |
| InstructionsTest.TestPageBoundaryCrossingDetection | test/instructionstest.cpp:151-159 | 0x1080+0x7F does not cross, 0x1080+0x80 does, 0x3080+0x02 does not (the flag is overwritten) |
| InstructionsTest.TestBranch | test/instructionstest.cpp:161-185 | `execBranch` from 0x800 plus an advance sets the PC and cycles by the branch rule |
| InstructionsTest.BranchTests | test/instructionstest.cpp:161-185 | +13 from 0x800 costs 1, -100 from 0x878 lands on 0x814 at 1, +13 from 0x8FA lands on 0x907 at 2 |
| InstructionsTest.TestAdcImmediate | test/instructionstest.cpp:187-190 | ADC #$F0 with A=3 gives A=0xF3, N set, Z/C/V clear, 2 cycles |
| InstructionsTest.TestAdcAbsolute | test/instructionstest.cpp:192-197 | ADC $2000 with C set, A=0xF0, M=0x0F gives A=0, Z and C set, N/V clear, 4 cycles |
| InstructionsTest.TestAndImmediate | test/instructionstest.cpp:200-203 | AND #$FB with A=0x84 gives A=0x80, N set, 2 cycles |
| InstructionsTest.AndImmediateStep | test/instructionstest.cpp:200-203 | from the state `testAND` sets up, one step leaves A = 0x80 with N set, Z, C and V clear, at 2 cycles |
| InstructionsTest.AndIndirectIndexedStep | test/instructionstest.cpp:205-210 | from the state of the second half of `testAND`, one step leaves A = 0x80 with N set, Z, C and V clear, at 6 cycles |
| InstructionsTest.AndIndirectIndexedTarget | test/instructionstest.cpp:205-210 | `($70),Y` with 0x20F0 at 0x70 and Y = 0x12 resolves to 0x2102 and reports a page crossing |
| InstructionsTest.AndExample | test/instructionstest.cpp:200-203 | 0x84 AND 0xFB is 0x80 |
| InstructionsTest.TestAndIndirectIndexed | test/instructionstest.cpp:205-210 | AND ($70),Y through 0x20F0+0x12 crosses a page: A=0x80, N set, 6 cycles |
| InstructionsTest.TestAslAccumulator | test/instructionstest.cpp:213-216 | ASL A on 0xC1 gives 0x82 with N and C set, 2 cycles |
| InstructionsTest.TestAslAbsoluteX | test/instructionstest.cpp:218-221 | ASL $EFF0,X on 0x41 stores 0x82 with N set, C clear, 7 cycles despite the crossing |
| InstructionsTest.TestBcc | test/instructionstest.cpp:224-235 | BCC +d with C clear (both tests, including the one named "not taken") lands on 0x802+d at 3 cycles |
| Disassembly.Hex8 | disassembler.cpp:8-10 | `formatHex8` gives exactly two characters |
| Disassembly.Hex8RoundTrip | disassembler.cpp:8-10 | the two characters are lower-case hex digits reading back as the byte |
| Disassembly.Hex16 | disassembler.cpp:12-14 | `formatHex16` gives exactly four characters |
| Disassembly.Hex16RoundTrip | disassembler.cpp:12-14 | the four characters are lower-case hex digits reading back as the word |
| Disassembly.FormatOperand8 | disassembler.cpp:16-18 | the operand byte text is `$` and two more characters |
| Disassembly.FormatOperand16 | disassembler.cpp:20-22 | the operand word text is `$` and four more characters |
| Disassembly.UpperOperand8 | disassembler.cpp:16-18 | upper-cased, the byte operand is `$` plus two upper-case hex digits reading back as the byte after the opcode |
| Disassembly.UpperOperand16 | disassembler.cpp:20-22 | upper-cased, the word operand is `$` plus four upper-case hex digits reading back as the little-endian word after the opcode |
| Disassembly.RelativeText | disassembler.cpp:76-80 | a relative operand starts with `+` exactly when positive, `-` exactly when negative, and is `0` for zero |
| Disassembly.RelativeRoundTrip | disassembler.cpp:76-80 | the relative operand reads back as the signed displacement and has no lower-case letter |
| Disassembly.Mnemonic | disassembler.cpp:60 | a mnemonic is three capital letters |
| Disassembly.MnemonicOf | disassembler.cpp:60 | the mnemonic column has three characters and no lower-case letter |
| Disassembly.MnemonicType | disassembler.cpp:60 | a text read as a mnemonic names a type only if it is three capital letters |
| Disassembly.MnemonicReadsBack | disassembler.cpp:60 | each type's mnemonic reads back as that type, so distinct types show distinct mnemonics |
| Disassembly.MnemonicOfReadsBack | disassembler.cpp:60 | the mnemonic column reads back as the slot's type, and as no type for an undefined slot |
| Disassembly.EntrySize | disassembler.cpp:34-36 | an instruction is 1 to 3 bytes long, and an undefined slot is 1 |
| Disassembly.Slot | disassembler.cpp:56-58 | each byte column is three characters wide |
| Disassembly.Columns | disassembler.cpp:56-58 | the byte columns take three characters each |
| Disassembly.UpperSlot | disassembler.cpp:56-58 | a used column shows its byte as two digits and a space, and an unused one is three spaces |
| Disassembly.UpperColumns | disassembler.cpp:56-58 | the three columns show the instruction's bytes in as many columns as it is long and blanks after |
| Disassembly.OperandRoundTrip | disassembler.cpp:62-81 | every mode's upper-cased operand text reads back as that mode and the value it shows |
| Disassembly.RoundTripImmediate | disassembler.cpp:66 | `#$hh` reads back as Immediate and the byte |
| Disassembly.RoundTripAbsolute | disassembler.cpp:67 | `$hhhh` reads back as Absolute and the word |
| Disassembly.RoundTripAbsoluteX | disassembler.cpp:68 | `$hhhh,X` reads back as AbsoluteX and the word |
| Disassembly.RoundTripAbsoluteY | disassembler.cpp:69 | `$hhhh,Y` reads back as AbsoluteY and the word |
| Disassembly.RoundTripZeroPage | disassembler.cpp:70 | `$hh` reads back as ZeroPage and the byte |
| Disassembly.RoundTripZeroPageX | disassembler.cpp:71 | `$hh,X` reads back as ZeroPageX and the byte |
| Disassembly.RoundTripZeroPageY | disassembler.cpp:72 | `$hh,Y` reads back as ZeroPageY and the byte |
| Disassembly.RoundTripIndexedIndirectX | disassembler.cpp:73 | `($hh,X)` reads back as IndexedIndirectX and the byte |
| Disassembly.RoundTripIndirectIndexedY | disassembler.cpp:74 | `($hh),Y` reads back as IndirectIndexedY and the byte |
| Disassembly.RoundTripIndirect | disassembler.cpp:75 | `($hhhh)` reads back as Indirect and the word |
| Disassembly.RoundTripBranch | disassembler.cpp:76-80 | the signed decimal reads back as Branch and the signed displacement |
| Disassembly.LineLayout | disassembler.cpp:54-83 | the upper-cased line is the address (4), a space, the columns (9), a space, the mnemonic (3), a space, then the operand |
| Disassembly.LineAddress | disassembler.cpp:55 | the first four characters of the line read back as the address |
| Disassembly.LineColumns | disassembler.cpp:56-58 | the line's column characters show the instruction's bytes |
| Disassembly.LineFields | disassembler.cpp:54-83 | every field of a line reads back (address, bytes, the instruction type from the mnemonic, operand with mode and value), an undefined slot has no operand, and the line holds no lower-case letter |
| Disassembly.Disassembler.constructor | disassembler.cpp:24-26 | the cursor starts at the given PC on the opcode there |
| Disassembly.Disassembler.SetOrigin | disassembler.cpp:28-32 | the address becomes `addr`, the opcode `memory[addr]` and the instruction that opcode's slot |
| Disassembly.Disassembler.NextInstruction | disassembler.cpp:34-36 | the address advances by the instruction's size modulo 65536, with the opcode and slot there |
| Disassembly.Disassembler.DumpBytes | disassembler.cpp:38-44 | the loop builds exactly `BytesText` for `n` bytes from the cursor |
| Disassembly.Disassembler.DumpWords | disassembler.cpp:46-52 | the loop builds exactly `WordsText` for ceil(n/2) words from the cursor |
| Disassembly.ByteColumns | disassembler.cpp:56-58 | the column loop builds the three byte columns `Columns` describes: the instruction's bytes, blanks after them |
| Disassembly.Disassembler.Disassemble | disassembler.cpp:54-83 | the appends build the upper-case form of `Line`, whose fields `LineFields` reads back |
| Disassembly.ByteEntries | disassembler.cpp:38-44 | a byte dump has `n` entries, each three characters wide |
| Disassembly.ByteEntry | disassembler.cpp:41 | one byte entry is three characters |
| Disassembly.BytesTextStep | disassembler.cpp:40-41 | one more loop step appends the next byte's entry |
| Disassembly.BytesTextEntry | disassembler.cpp:38-44 | a byte dump has 3n characters, and entry `k` is byte `address + k` with a space |
| Disassembly.BytesTextReadsBack | disassembler.cpp:38-44 | every entry of a byte dump reads back as its byte, followed by a space |
| Disassembly.WordEntries | disassembler.cpp:46-52 | a word dump has `count` entries, each five characters wide |
| Disassembly.WordEntry | disassembler.cpp:49 | one word entry is five characters |
| Disassembly.WordsTextStep | disassembler.cpp:48-49 | one more loop step appends the next word's entry |
| Disassembly.WordsTextEntry | disassembler.cpp:46-52 | a word dump has 5 times count characters, and entry `k` is the little-endian word at `address + 2k` with a space |
| Disassembly.WordsTextReadsBack | disassembler.cpp:46-52 | every entry of a word dump reads back as its word, followed by a space |
| Disassembly.WordIndexAsWrittenStaysBelow | disassembler.cpp:48 | the `uint16_t` index after `k` steps is 2k modulo 65536, even and below 0xFFFF, so `dumpWords(0xFFFF)` as written never ends |
| Emulation.Filled | system.cpp:8-11 | after a fill, exactly the bytes of `first..last` hold the value and every other byte is unchanged |
| Emulation.Saved | system.cpp:20-24 | a save returns `last - first + 1` bytes, byte `k` being memory at `first + k` |
| Emulation.LoadCount | system.cpp:13-18 | the loaded count is at most the image size, fits below the end of memory, and is the whole image unless memory ends first |
| Emulation.Loaded | system.cpp:13-18 | after a load, bytes `first..first+count-1` hold the image and every other byte is unchanged |
| Emulation.LoadCountAsWrittenWraps | system.cpp:14 | the `uint16_t` count differs from the clamped size exactly when an image of 64 KiB or more is loaded at 0, and is then 0 |
| Emulation.LoadThenSave | system.cpp:13-24 | saving the range just loaded returns the image when it fits, except an empty image at 0, whose last address would wrap to 0xFFFF |
| Emulation.FillThenSave | system.cpp:8-24 | saving a filled range returns the fill value for each of its bytes |
| Emulation.LoadSaved | system.cpp:13-24 | loading back a saved range leaves memory as it was |
| Emulation.System.constructor | system.cpp:4-6 | the memory starts with the given contents and is shared with a stopped CPU |
| Emulation.System.FillMemory | system.cpp:8-11 | the loop leaves memory equal to `Filled` of the old memory |
| Emulation.System.LoadMemory | system.cpp:13-18 | the loop copies `LoadCount` bytes, returns that count, and leaves memory equal to `Loaded` of the old memory |
| Emulation.System.SaveMemory | system.cpp:20-24 | the appending loop returns `Saved` of memory |
| Emulation.System.ChangeProgramCounter | system.cpp:31-36 | the PC becomes `pc` unless the CPU is running; the change is reported exactly when the CPU is not running and the PC differed |

## Left out

- Qt signals (`emit memoryContentChanged`, `emit cpuStateChanged`), the UI files, threads and file I/O: they are notifications and presentation. `ChangeProgramCounter` returns whether it would announce the new state.
- `System::executeSingleStep` and `propagateCurrentState`: one is `execute` followed by a signal, and the other is only a signal.
- The random fill in the `System` constructor: the initial memory is a parameter.
- The CPU beyond what the tests assert: cpu.cpp and cpu.h are not part of this model.
  - Only ADC (binary mode), AND, ASL, BCC and CLI execute. Every other type, and ADC with the decimal flag set, gives `NotModelled` with no state change.
  - Decimal mode, the stack, BRK/RTI/NMI/IRQ and the running loop are not modelled.
- The status register is kept as its seven named flags; the byte view is the pair `FlagsToByte`/`FlagsFromByte`. cpu.h is not part of this model, so the bit positions are the 6502's (N V - B D I Z C from bit 7 down).
- Processor.Cpu.Reset: loads only the PC. The interrupt flag, stack pointer and reset cycle cost are not visible in the code.
- The assembler: the tests' `assemble` calls are replaced by writing the opcode bytes it would emit. assembler.h holds only declarations.
- The test fixture shares one memory between tests in the original. Each test method here starts from a fresh zeroed fixture. `testADC`, `testAND` and `testASL` each run two instructions; each half is a separate method, with the state the first half leaves (PC, A) set explicitly in the second.
- Pointers into the test's local variables (`vector`, `d`) become bytes at fixed addresses: `vector` at 0x0300, and the branch displacement at 0x0000.
- Processor.Cpu.PrepIndirectMode: sets only the effective address, as the test checks. JMP is not executed.
- Memory.h is not part of this model.
  - `read16` is assumed to take the high byte from the next address with 16-bit wrap-around.
  - `memory_[address_ + i]` is assumed to index modulo 65536.
  - The reset vector is taken to be 0xFFFC.
- instruction.h is not part of this model.
  - The instruction size is derived from the mode: 1, 2 or 3.
  - An unassigned slot is taken to be a 1-byte instruction shown with the mnemonic `???` and no operand.
- mnemonics.h is not part of this model: `MnemonicTable` is the three capitals of the instruction type's name.
- `QString::toUpper` is modelled for ASCII text only, which is all the disassembler produces.
- Disassembly.Disassembler.DumpWords: widens the 16-bit loop index so that `dumpWords(0xFFFF)` terminates (see Findings). `dumpBytes` needs no change, because its index stops at `n`.
- Emulation.System.LoadMemory: uses the clamped count without the 16-bit truncation (see Findings).
- Emulation.System.FillMemory, Emulation.System.SaveMemory: require `first <= last + 1`. With a larger `first`, `std::fill` and `std::copy` get a reversed range, which is undefined behaviour in C++.

## Findings

| source | as written | input that shows it | evidently intended | confidence | as-written member | corrected member |
|---|---|---|---|---|---|---|
| disassembler.cpp:48 | the word index `i` is a `uint16_t` stepping by 2 while `i < n` | `dumpWords(0xFFFF)`: `i` goes 0, 2, …, 0xFFFE, then wraps to 0, which is still below 0xFFFF, so the loop never ends | ceil(n/2) words, stopping after the last started pair | high (not executed) | Disassembly.WordIndexAsWrittenStaysBelow | Disassembly.Disassembler.DumpWords |
| system.cpp:14 | the clamped count `min(data.size(), 65536 - first)` is cast to `uint16_t` | a 65536-byte image loaded at 0: the count 65536 becomes 0, so nothing is copied and 0 is returned | copy and report all 65536 bytes | high (not executed) | Emulation.LoadCountAsWrittenWraps | Emulation.System.LoadMemory |
