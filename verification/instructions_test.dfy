/** The scenarios of test/instructionstest.cpp replayed on the CPU model: each method
    builds the fixture's state (zeroed memory, PC at the assembler origin, flags clear),
    performs the test's steps and promises the values the test compares. Where a test
    assembles an instruction, the method writes the opcode bytes the assembler emits;
    where it points `operandPtr_` at a local variable, the method puts that byte in memory. */
module InstructionsTest {
  import opened Common
  import opened InstructionTable
  import opened Processor

  /** `AsmOrigin`: where the tests assemble and start executing. */
  const AsmOrigin: Word := 0x800

  /** The fixture after `initTestCase` and `init`. */
  method NewFixture() returns (cpu: Cpu)
    ensures fresh(cpu) && fresh(cpu.memory) && cpu.Valid()
    ensures forall i :: 0 <= i < MemorySize ==> cpu.memory[i] == 0
    ensures cpu.pc == AsmOrigin && cpu.p == Cleared && cpu.cycles == 0
    ensures cpu.a == 0 && cpu.x == 0 && cpu.y == 0 && cpu.executionStatus == Stopped
  {
    var memory := new Byte[MemorySize](_ => 0);
    cpu := new Cpu(memory);
    cpu.pc := AsmOrigin;
  }

  /** `memory.write16`: a little-endian word. */
  method Write16(memory: array<Byte>, address: Word, value: Word)
    requires memory.Length == MemorySize && address < 0xFFFF
    modifies memory
    ensures memory[..] == old(memory[..])[address := value % 0x100][address + 1 := value / 0x100]
  {
    memory[address] := value % 0x100;
    memory[address + 1] := value / 0x100;
  }

  method TestReset() returns (cpu: Cpu)
    ensures cpu.Valid() && cpu.pc == 0xFCE2
  {
    cpu := NewFixture();
    Write16(cpu.memory, VectorReset, 0xFCE2);
    cpu.Reset();
  }

  method TestImpliedMode() returns (cpu: Cpu, outcome: Outcome)
    ensures cpu.Valid() && outcome == Completed
    ensures !cpu.p.interrupt && cpu.cycles == 2 && cpu.executionStatus == Stopped
  {
    cpu := NewFixture();
    cpu.p := cpu.p.(interrupt := true);
    cpu.memory[AsmOrigin] := 0x58;  // CLI
    CliStep(cpu.State());
    outcome := cpu.Execute();
  }

  method TestAccumulatorMode() returns (cpu: Cpu)
    ensures cpu.effectiveOperand == RegisterA
  {
    cpu := NewFixture();
    cpu.PrepAccumulatorMode();
  }

  method TestImmediateMode() returns (cpu: Cpu)
    ensures cpu.effectiveOperand == Memory(0x10)
  {
    cpu := NewFixture();
    cpu.operandAddress := 0x10;
    cpu.PrepImmediateMode();
  }

  method TestZeroPageMode() returns (cpu: Cpu)
    ensures cpu.Valid() && cpu.effectiveAddress == 0x40 && cpu.Operand() == 0xF8
  {
    cpu := NewFixture();
    cpu.memory[0xA0] := 0x40;
    cpu.memory[0x40] := 0xF8;
    cpu.operandAddress := 0xA0;
    cpu.PrepZeroPageMode();
  }

  method TestZeroPageXMode() returns (cpu: Cpu)
    ensures cpu.Valid() && cpu.effectiveAddress == 0x10 && cpu.Operand() == 0xE8
  {
    cpu := NewFixture();
    cpu.memory[0xA0] := 0x80;
    cpu.memory[0x10] := 0xE8;
    cpu.operandAddress := 0xA0;
    cpu.x := 0x90;
    cpu.PrepZeroPageXMode();
  }

  method TestZeroPageYMode() returns (cpu: Cpu)
    ensures cpu.Valid() && cpu.effectiveAddress == 0xB1 && cpu.Operand() == 0xE8
  {
    cpu := NewFixture();
    cpu.memory[0xA0] := 0x80;
    cpu.memory[0xB1] := 0xE8;
    cpu.operandAddress := 0xA0;
    cpu.y := 0x31;
    cpu.PrepZeroPageYMode();
  }

  method TestAbsoluteMode() returns (cpu: Cpu)
    ensures cpu.Valid() && cpu.effectiveAddress == 0x20FA && cpu.Operand() == 0xF0
  {
    cpu := NewFixture();
    cpu.memory[0x20FA] := 0xF0;
    Write16(cpu.memory, 0x1002, 0x20FA);
    cpu.operandAddress := 0x1002;
    cpu.PrepAbsoluteMode();
  }

  method TestAbsoluteXMode() returns (cpu: Cpu)
    ensures cpu.Valid() && cpu.effectiveAddress == 0x20B0 && cpu.Operand() == 0x34
  {
    cpu := NewFixture();
    cpu.memory[0x20B0] := 0x34;
    Write16(cpu.memory, 0x1002, 0x20A0);
    cpu.operandAddress := 0x1002;
    cpu.x := 0x10;
    cpu.PrepAbsoluteXMode();
  }

  method TestAbsoluteYMode() returns (cpu: Cpu)
    ensures cpu.Valid() && cpu.effectiveAddress == 0xA020 && cpu.Operand() == 0x84
  {
    cpu := NewFixture();
    cpu.memory[0xA020] := 0x84;
    Write16(cpu.memory, 0x2002, 0xA010);
    cpu.operandAddress := 0x2002;
    cpu.y := 0x10;
    cpu.PrepAbsoluteYMode();
  }

  method TestIndirectMode() returns (cpu: Cpu)
    ensures cpu.effectiveAddress == 0x34F0
  {
    cpu := NewFixture();
    Write16(cpu.memory, 0xFFF0, 0xFAB0);
    Write16(cpu.memory, 0xFAB0, 0x34F0);
    cpu.operandAddress := 0xFFF0;
    cpu.PrepIndirectMode();
  }

  method TestIndexedIndirectXMode() returns (cpu: Cpu)
    ensures cpu.effectiveAddress == 0xAF01 && cpu.effectiveOperand == Memory(0xAF01)
  {
    cpu := NewFixture();
    Write16(cpu.memory, 0x82, 0xAF01);
    cpu.memory[0x2001] := 0x70;
    cpu.operandAddress := 0x2001;
    cpu.x := 0x12;
    cpu.PrepIndexedIndirectXMode();
  }

  /** The test's local `vector` byte is placed at 0x0300. */
  method TestIndirectIndexedYMode() returns (cpu: Cpu)
    ensures cpu.Valid() && cpu.effectiveAddress == 0xD001 && cpu.Operand() == 0xEA
  {
    cpu := NewFixture();
    cpu.memory[0x0300] := 0x82;
    Write16(cpu.memory, 0x82, 0xCF81);
    cpu.memory[0xD001] := 0xEA;
    cpu.operandAddress := 0x0300;
    cpu.y := 0x80;
    cpu.PrepIndirectIndexedYMode();
  }

  method TestPageBoundaryCrossingDetection() returns (first: bool, second: bool, third: bool)
    ensures !first && second && !third
  {
    var cpu := NewFixture();
    cpu.pageBoundaryCrossed := false;
    cpu.CalculateEffectiveAddress(0x1080, 0x7F);
    first := cpu.pageBoundaryCrossed;
    cpu.CalculateEffectiveAddress(0x1080, 0x80);
    second := cpu.pageBoundaryCrossed;
    cpu.CalculateEffectiveAddress(0x3080, 0x02);
    third := cpu.pageBoundaryCrossed;
  }

  /** The branch tests' local displacement byte is placed at 0x0000. */
  method TestBranch(advance: nat, displacement: Byte) returns (cpu: Cpu)
    requires advance < 0x100
    ensures cpu.Valid() && cpu.pc == BranchTarget(AsmOrigin + advance, displacement)
    ensures cpu.cycles == BranchExtraCycles(AsmOrigin + advance, displacement)
  {
    cpu := NewFixture();
    cpu.pc := cpu.pc + advance;
    cpu.memory[0] := displacement;
    cpu.operandAddress := 0;
    cpu.ExecBranch();
  }

  /** Branch forward by 13, backward by 100 (the byte 0x9C) from 120 bytes further, and
      forward by 13 from 250 bytes further, which leaves the page. */
  lemma BranchTests()
    ensures BranchTarget(AsmOrigin, 13) == AsmOrigin + 13 && BranchExtraCycles(AsmOrigin, 13) == 1
    ensures BranchTarget(AsmOrigin + 120, 0x9C) == AsmOrigin + 20
    ensures BranchExtraCycles(AsmOrigin + 120, 0x9C) == 1
    ensures BranchTarget(AsmOrigin + 250, 13) == AsmOrigin + 263
    ensures BranchExtraCycles(AsmOrigin + 250, 13) == 2
  {
  }

  /** The first half of `testADC`. */
  method TestAdcImmediate() returns (cpu: Cpu)
    ensures cpu.Valid() && cpu.executionStatus == Stopped && cpu.a == 0xF3 && cpu.cycles == 2
    ensures cpu.p.negative && !cpu.p.zero && !cpu.p.carry && !cpu.p.overflow
  {
    cpu := NewFixture();
    cpu.a := 0x03;
    cpu.memory[0x800], cpu.memory[0x801] := 0x69, 0xF0;  // ADC #$f0
    AdcStep(cpu.State(), Instruction(ADC, Immediate, 2));
    var outcome := cpu.Execute();
  }

  /** The second half of `testADC`, assembled after the first instruction. */
  method TestAdcAbsolute() returns (cpu: Cpu)
    ensures cpu.Valid() && cpu.executionStatus == Stopped && cpu.a == 0x00 && cpu.cycles == 4
    ensures !cpu.p.negative && cpu.p.zero && cpu.p.carry && !cpu.p.overflow
  {
    cpu := NewFixture();
    cpu.pc := AsmOrigin + 2;
    cpu.p := Cleared.(carry := true);
    cpu.a := 0xF0;
    cpu.memory[0x2000] := 0x0F;
    cpu.memory[0x802], cpu.memory[0x803], cpu.memory[0x804] := 0x6D, 0x00, 0x20;  // ADC $2000
    AdcStep(cpu.State(), Instruction(ADC, Absolute, 4));
    var outcome := cpu.Execute();
  }

  /** The first half of `testAND`. */
  method TestAndImmediate() returns (cpu: Cpu)
    ensures cpu.Valid() && cpu.executionStatus == Stopped && cpu.a == 0x80 && cpu.cycles == 2
    ensures cpu.p.negative && !cpu.p.zero && !cpu.p.carry && !cpu.p.overflow
  {
    cpu := NewFixture();
    cpu.a := 0x84;
    cpu.memory[0x800], cpu.memory[0x801] := 0x29, 0xFB;  // AND #$fb
    AndImmediateStep(cpu.State());
    var outcome := cpu.Execute();
  }

  /** The step `TestAndImmediate` performs, on the machine state it sets up. */
  lemma AndImmediateStep(m: Machine)
    requires |m.mem| == MemorySize && m.pc == 0x800 && m.a == 0x84
    requires m.p == Cleared && m.cycles == 0
    requires m.mem[0x800] == 0x29 && m.mem[0x801] == 0xFB
    ensures var r := Step(m).machine;
      && r.a == 0x80 && r.cycles == 2
      && r.p.negative && !r.p.zero && !r.p.carry && !r.p.overflow
  {
    AndImmediateEffect(m);
    AndExample();
  }

  lemma AndImmediateEffect(m: Machine)
    requires |m.mem| == MemorySize && m.pc == 0x800 && m.a == 0x84
    requires m.p == Cleared && m.cycles == 0
    requires m.mem[0x800] == 0x29 && m.mem[0x801] == 0xFB
    ensures var r := Step(m).machine;
      && r.a == And(0x84, 0xFB) && r.cycles == 2
      && (r.p.negative <==> r.a >= 0x80) && (r.p.zero <==> r.a == 0)
      && !r.p.carry && !r.p.overflow
  {
    assert m.mem[m.pc] == 0x29;
    DecodeAndImmediate();
    assert Resolve(m.mem, Immediate, 0x801, m.x, m.y) == Target(Memory(0x801), false);
    AndStep(m, Instruction(AND, Immediate, 2));
  }

  lemma DecodeAndImmediate()
    ensures Decode(0x29) == Some(Instruction(AND, Immediate, 2))
  {
  }

  /** The second half of `testAND`: the pointer 0x20F0 plus Y = 0x12 crosses into page
      0x21, so the base 5 cycles become 6. */
  method TestAndIndirectIndexed() returns (cpu: Cpu)
    ensures cpu.Valid() && cpu.executionStatus == Stopped && cpu.a == 0x80 && cpu.cycles == 6
    ensures cpu.p.negative && !cpu.p.zero && !cpu.p.carry && !cpu.p.overflow
  {
    cpu := NewFixture();
    cpu.pc := AsmOrigin + 2;
    cpu.a := 0x84;
    cpu.y := 0x12;
    Write16(cpu.memory, 0x70, 0x20F0);
    cpu.memory[0x2102] := 0xFB;
    cpu.memory[0x802], cpu.memory[0x803] := 0x31, 0x70;  // AND ($70),Y
    AndIndirectIndexedStep(cpu.State());
    var outcome := cpu.Execute();
  }

  /** The step `TestAndIndirectIndexed` performs, on the machine state it sets up. */
  lemma AndIndirectIndexedStep(m: Machine)
    requires |m.mem| == MemorySize && m.pc == 0x802 && m.a == 0x84 && m.y == 0x12
    requires m.p == Cleared && m.cycles == 0
    requires m.mem[0x802] == 0x31 && m.mem[0x803] == 0x70
    requires m.mem[0x70] == 0xF0 && m.mem[0x71] == 0x20 && m.mem[0x2102] == 0xFB
    ensures var r := Step(m).machine;
      && r.a == 0x80 && r.cycles == 6
      && r.p.negative && !r.p.zero && !r.p.carry && !r.p.overflow
  {
    AndIndirectIndexedEffect(m);
    AndExample();
  }

  lemma AndIndirectIndexedEffect(m: Machine)
    requires |m.mem| == MemorySize && m.pc == 0x802 && m.a == 0x84 && m.y == 0x12
    requires m.p == Cleared && m.cycles == 0
    requires m.mem[0x802] == 0x31 && m.mem[0x803] == 0x70
    requires m.mem[0x70] == 0xF0 && m.mem[0x71] == 0x20 && m.mem[0x2102] == 0xFB
    ensures var r := Step(m).machine;
      && r.a == And(0x84, 0xFB) && r.cycles == 6
      && (r.p.negative <==> r.a >= 0x80) && (r.p.zero <==> r.a == 0)
      && !r.p.carry && !r.p.overflow
  {
    assert m.mem[m.pc] == 0x31;
    DecodeAndIndirectIndexed();
    AndIndirectIndexedTarget(m.mem, m.x);
    AndStep(m, Instruction(AND, IndirectIndexedY, 5));
  }

  /** `($70),Y` with 0x20F0 stored at 0x70 and Y = 0x12 reaches 0x2102 across a page. */
  lemma AndIndirectIndexedTarget(mem: seq<Byte>, x: Byte)
    requires |mem| == MemorySize && mem[0x803] == 0x70 && mem[0x70] == 0xF0 && mem[0x71] == 0x20
    ensures Resolve(mem, IndirectIndexedY, 0x803, x, 0x12) == Target(Memory(0x2102), true)
  {
    assert Read16(mem, 0x70) == 0x20F0;
  }

  lemma DecodeAndIndirectIndexed()
    ensures Decode(0x31) == Some(Instruction(AND, IndirectIndexedY, 5))
  {
  }

  /** 0x84 AND 0xFB, one bit at a time from the top. */
  lemma AndExample()
    ensures And(0x84, 0xFB) == 0x80
  {
    assert And(0x01, 0x01) == 0x01;
    assert And(0x02, 0x03) == 0x02;
    assert And(0x04, 0x07) == 0x04;
    assert And(0x08, 0x0F) == 0x08;
    assert And(0x10, 0x1F) == 0x10;
    assert And(0x21, 0x3E) == 0x20;
    assert And(0x42, 0x7D) == 0x40;
  }

  /** The first half of `testASL`. */
  method TestAslAccumulator() returns (cpu: Cpu)
    ensures cpu.Valid() && cpu.executionStatus == Stopped && cpu.a == 0x82 && cpu.cycles == 2
    ensures cpu.p.negative && !cpu.p.zero && cpu.p.carry && !cpu.p.overflow
  {
    cpu := NewFixture();
    cpu.a := 0xC1;
    cpu.memory[0x800] := 0x0A;  // ASL
    AslStep(cpu.State(), Instruction(ASL, ImpliedOrAccumulator, 2));
    var outcome := cpu.Execute();
  }

  /** The second half of `testASL`, with A as the first half leaves it: 0xEFF0 plus
      X = 0x12 crosses a page, and the read-modify-write cost stays 7. */
  method TestAslAbsoluteX() returns (cpu: Cpu)
    ensures cpu.Valid() && cpu.executionStatus == Stopped
    ensures cpu.a == 0x82 && cpu.memory[0xF002] == 0x82 && cpu.cycles == 7
    ensures cpu.p.negative && !cpu.p.zero && !cpu.p.carry && !cpu.p.overflow
  {
    cpu := NewFixture();
    cpu.pc := AsmOrigin + 1;
    cpu.a := 0x82;
    cpu.memory[0xF002] := 0x41;
    cpu.x := 0x12;
    cpu.memory[0x801], cpu.memory[0x802], cpu.memory[0x803] := 0x1E, 0xF0, 0xEF;  // ASL $eff0,X
    AslStep(cpu.State(), Instruction(ASL, AbsoluteX, 7));
    var outcome := cpu.Execute();
  }

  /** `testBCC` with displacement 3 and `testBCCNotTaken` with 13: with the carry clear
      both branches are taken, at 3 cycles. */
  method TestBcc(displacement: Byte) returns (cpu: Cpu)
    requires displacement < 0x80
    ensures cpu.Valid() && cpu.executionStatus == Stopped
    ensures cpu.pc == AsmOrigin + 2 + displacement && cpu.cycles == 3
  {
    cpu := NewFixture();
    cpu.p := cpu.p.(carry := false);
    cpu.memory[0x800], cpu.memory[0x801] := 0x90, displacement;  // BCC +displacement
    BccStep(cpu.State());
    var outcome := cpu.Execute();
  }
}
