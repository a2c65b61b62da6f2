/** The part of the 6502 CPU that test/instructionstest.cpp pins down: the operand
    resolvers of every addressing mode (`prep*Mode`), the page-crossing rule
    (`calculateEffectiveAddress`), the taken-branch rule (`execBranch`), `reset`, and the
    execution of ADC, AND, ASL, BCC and CLI with their cycle counts. */
module Processor {
  import opened Common
  import opened InstructionTable

  /** The status register `regs.p`, one named bit per flag. */
  datatype Flags = Flags(
    negative: bool, overflow: bool, brk: bool, decimal: bool,
    interrupt: bool, zero: bool, carry: bool)

  /** `regs.p = 0`: every flag clear. */
  const Cleared := Flags(false, false, false, false, false, false, false)

  /** The high nibble of the status byte: N V - B, the unused bit set. */
  function HighNibble(f: Flags): (n: nat)
    ensures n < 0x10 && (n / 0x02) % 2 == 1
  {
    0x08 * Bit(f.negative) + 0x04 * Bit(f.overflow) + 0x02 + Bit(f.brk)
  }

  /** The low nibble of the status byte: D I Z C. */
  function LowNibble(f: Flags): (n: nat)
    ensures n < 0x10
  {
    0x08 * Bit(f.decimal) + 0x04 * Bit(f.interrupt) + 0x02 * Bit(f.zero) + Bit(f.carry)
  }

  /** A byte made of two nibbles splits back into them; bit 5 is bit 1 of the high one. */
  lemma NibblesOfByte(high: nat, low: nat)
    requires high < 0x10 && low < 0x10
    ensures var b := 0x10 * high + low;
      && b < 0x100 && b / 0x10 == high && b % 0x10 == low && b / 0x20 == high / 0x02
  {
  }

  /** The status register read as a byte, in the 6502's layout from bit 7 down:
      N V - B D I Z C. The unused bit 5 always reads as set. */
  function FlagsToByte(f: Flags): (b: Byte)
    ensures (b / 0x20) % 2 == 1
  {
    NibblesOfByte(HighNibble(f), LowNibble(f));
    0x10 * HighNibble(f) + LowNibble(f)
  }

  /** The status register written as a byte: each flag takes its bit, bit 5 is ignored.
      The bits are read from the high nibble (N V - B) and the low nibble (D I Z C). */
  function FlagsFromByte(b: Byte): (f: Flags)
    ensures f.carry <==> b % 2 == 1
    ensures f.negative <==> b >= 0x80
  {
    var high := b / 0x10;
    var low := b % 0x10;
    Flags(negative := high / 0x08 == 1, overflow := (high / 0x04) % 2 == 1,
          brk := high % 2 == 1, decimal := low / 0x08 == 1,
          interrupt := (low / 0x04) % 2 == 1, zero := (low / 0x02) % 2 == 1, carry := low % 2 == 1)
  }

  /** Four bits put together read back one by one. */
  lemma BitsOfNibble(d3: nat, d2: nat, d1: nat, d0: nat)
    requires d3 <= 1 && d2 <= 1 && d1 <= 1 && d0 <= 1
    ensures var n := 0x08 * d3 + 0x04 * d2 + 0x02 * d1 + d0;
      && n / 0x08 == d3 && (n / 0x04) % 2 == d2 && (n / 0x02) % 2 == d1 && n % 2 == d0
  {
    var n := 0x08 * d3 + 0x04 * d2 + 0x02 * d1 + d0;
    assert n / 0x02 == 0x04 * d3 + 0x02 * d2 + d1;
    assert n / 0x04 == 0x02 * d3 + d2;
  }

  /** A nibble is the sum of its four bits. */
  lemma NibbleInBits(n: nat)
    requires n < 0x10
    ensures n == 0x08 * (n / 0x08) + 0x04 * ((n / 0x04) % 2) + 0x02 * ((n / 0x02) % 2) + n % 2
    ensures n / 0x08 <= 1
  {
  }

  /** The status byte splits back into the two nibbles it was made of. */
  lemma NibblesOfStatus(f: Flags)
    ensures FlagsToByte(f) / 0x10 == HighNibble(f) && FlagsToByte(f) % 0x10 == LowNibble(f)
  {
    NibblesOfByte(HighNibble(f), LowNibble(f));
  }

  /** N, V and B come back from the status byte's high nibble. */
  lemma HighFlagsBack(f: Flags)
    ensures var g := FlagsFromByte(FlagsToByte(f));
      g.negative == f.negative && g.overflow == f.overflow && g.brk == f.brk
  {
    NibblesOfStatus(f);
    BitsOfNibble(Bit(f.negative), Bit(f.overflow), 1, Bit(f.brk));
  }

  /** D, I, Z and C come back from the status byte's low nibble. */
  lemma LowFlagsBack(f: Flags)
    ensures var g := FlagsFromByte(FlagsToByte(f));
      g.decimal == f.decimal && g.interrupt == f.interrupt && g.zero == f.zero && g.carry == f.carry
  {
    NibblesOfStatus(f);
    BitsOfNibble(Bit(f.decimal), Bit(f.interrupt), Bit(f.zero), Bit(f.carry));
  }

  /** Writing the byte read from the flags gives the same flags back. */
  lemma FlagsByteRoundTrip(f: Flags)
    ensures FlagsFromByte(FlagsToByte(f)) == f
  {
    HighFlagsBack(f);
    LowFlagsBack(f);
  }

  /** The nibbles of the flags written from a byte: the low one is the byte's, the high
      one the byte's with bit 1 (the status byte's bit 5) set. */
  lemma NibblesOfFlags(b: Byte)
    ensures var high := b / 0x10;
      && HighNibble(FlagsFromByte(b)) == high + 0x02 - 0x02 * ((high / 0x02) % 2)
      && LowNibble(FlagsFromByte(b)) == b % 0x10
  {
    NibbleInBits(b / 0x10);
    NibbleInBits(b % 0x10);
  }

  /** Reading the flags written from a byte gives that byte back, with bit 5 set. */
  lemma ByteFlagsRoundTrip(b: Byte)
    ensures FlagsToByte(FlagsFromByte(b)) == if (b / 0x20) % 2 == 1 then b else b + 0x20
  {
    NibblesOfFlags(b);
    NibblesOfByte(b / 0x10, b % 0x10);
  }

  /** `regs.p = 0` clears every flag. */
  lemma ClearedFromZero()
    ensures FlagsFromByte(0) == Cleared && FlagsToByte(Cleared) == 0x20
  {
  }

  /** Address of the reset vector, `Cpu::VectorRESET`. */
  const VectorReset: Word := 0xFFFC

  /** Where an instruction's operand lives once its mode is resolved; this stands for
      the `effectiveOperandPtr_` pointer, which points either at `regs.a` or into memory. */
  datatype Location = RegisterA | Memory(address: Word)

  datatype ExecutionStatus = Stopped | Running

  /** What one call of `execute` did. `IllegalOpcode` is an unassigned table slot;
      `NotModelled` an instruction whose semantics this model does not give. */
  datatype Outcome = Completed | IllegalOpcode | NotModelled

  /** A zero-page address indexed by X or Y: the sum stays in page zero. */
  function ZeroPageIndexed(zp: Byte, index: Byte): (address: Word)
    ensures address < 0x100
    ensures (address - zp - index) % 0x100 == 0
  {
    (zp + index) % 0x100
  }

  /** Whether adding `index` to `base` leaves the base's page; the 16-bit wrap from
      0xFFxx to 0x00xx is a page change too. */
  function PageCrossed(base: Word, index: Byte): (crossed: bool)
    ensures crossed <==> base % 0x100 + index >= 0x100
  {
    Page(Wrap16(base + index)) != Page(base)
  }

  /** The destination of a taken branch: the address after the branch instruction plus
      the displacement read as a signed byte, within the 64 KiB address space. */
  function BranchTarget(pc: Word, displacement: Byte): (target: Word)
    ensures (target - pc - Signed(displacement)) % MemorySize == 0
  {
    Wrap16(pc + Signed(displacement))
  }

  /** Extra cycles of a taken branch: one, and one more when the target lies on
      another page. */
  function BranchExtraCycles(pc: Word, displacement: Byte): (n: nat)
    ensures n == 1 || n == 2
    ensures n == 2 <==> !(0 <= pc % 0x100 + Signed(displacement) < 0x100)
  {
    if Page(BranchTarget(pc, displacement)) == Page(pc) then 1 else 2
  }

  /** Result of an ALU operation: the 8-bit value and the carry and overflow it leaves. */
  datatype AluResult = AluResult(value: Byte, carry: bool, overflow: bool)

  function Bit(b: bool): (n: nat)
    ensures n <= 1 && (n == 1 <==> b)
  {
    if b then 1 else 0
  }

  /** Binary ADC: the sum modulo 256, the unsigned carry out of bit 7, and the overflow
      computed from the sign bits of the operands and of the sum. */
  function AddWithCarry(a: Byte, m: Byte, carry: bool): (r: AluResult)
    ensures r.value + 0x100 * Bit(r.carry) == a + m + Bit(carry)
    ensures r.overflow <==> !(-0x80 <= Signed(a) + Signed(m) + Bit(carry) < 0x80)
  {
    var sum := a + m + Bit(carry);
    var value := sum % 0x100;
    AluResult(value, sum >= 0x100, (a < 0x80) == (m < 0x80) && (value < 0x80) != (a < 0x80))
  }

  /** ASL: bit 7 goes to the carry, the byte moves one bit to the left. */
  function ShiftLeft(v: Byte): (r: AluResult)
    ensures r.value + 0x100 * Bit(r.carry) == 2 * v
    ensures r.value % 2 == 0
  {
    AluResult((2 * v) % 0x100, v >= 0x80, false)
  }

  /** Bitwise AND of two bytes, bit by bit from the lowest: a result bit is set only
      where both operands have it. */
  function And(a: Byte, m: Byte): (r: Byte)
    ensures r <= a && r <= m
    ensures r % 2 == 1 <==> a % 2 == 1 && m % 2 == 1
    decreases a
  {
    if a == 0 then 0
    else 2 * And(a / 2, m / 2) + (if a % 2 == 1 && m % 2 == 1 then 1 else 0)
  }

  /** Bit `k` of `v`, counted from the lowest: `(v >> k) & 1` read as a truth value. */
  predicate BitAt(v: nat, k: nat)
    decreases k
  {
    if k == 0 then v % 2 == 1 else BitAt(v / 2, k - 1)
  }

  /** Zero has no bit set. */
  lemma {:induction false} NoBitOfZero(k: nat)
    ensures !BitAt(0, k)
    decreases k
  {
    if k > 0 {
      NoBitOfZero(k - 1);
    }
  }

  /** `And` is the bitwise AND: each bit of the result, at every position, is set
      exactly when both operands have that bit set. */
  lemma {:induction false} AndBits(a: Byte, m: Byte, k: nat)
    ensures BitAt(And(a, m), k) <==> BitAt(a, k) && BitAt(m, k)
    decreases k
  {
    if a == 0 {
      NoBitOfZero(k);
    } else if k > 0 {
      AndBits(a / 2, m / 2, k - 1);
      assert And(a, m) / 2 == And(a / 2, m / 2);
    }
  }

  /** Flags after a result is loaded into a register: N is bit 7, Z says zero. */
  function WithResult(p: Flags, v: Byte): (q: Flags)
    ensures q.negative <==> v >= 0x80
    ensures q.zero <==> v == 0
    ensures q.(negative := p.negative, zero := p.zero) == p
  {
    p.(negative := v >= 0x80, zero := v == 0)
  }

  /** The instructions this model executes: the ones the tests run, ADC in binary mode only. */
  predicate Modelled(kind: InstructionType, p: Flags) {
    kind in {ADC, AND, ASL, BCC, CLI} && !(kind == ADC && p.decimal)
  }

  /** What the table guarantees of the modelled instructions' modes (`ModesOfModelled`):
      none is `Indirect`, and only BCC is a branch. */
  predicate Operational(ins: Instruction) {
    ins.mode != Indirect && (ins.mode == Branch <==> ins.kind == BCC)
  }

  /** The registers, cycle counter and memory that an instruction reads and writes. */
  datatype Machine = Machine(a: Byte, x: Byte, y: Byte, pc: Word, p: Flags, cycles: int, mem: seq<Byte>)

  /** An addressing mode resolved: where the operand is, and whether indexing crossed a page. */
  datatype Target = Target(operand: Location, crossed: bool)

  /** What each `prep*Mode` resolves the operand of an instruction to, given the address
      `at` of its operand bytes. Only the indexed modes that go through
      `calculateEffectiveAddress` (abs,X, abs,Y and (zp),Y) can report a page crossing. */
  function Resolve(mem: seq<Byte>, mode: AddressingMode, at: Word, x: Byte, y: Byte): (t: Target)
    requires |mem| == MemorySize
    ensures t.crossed ==> mode in {AbsoluteX, AbsoluteY, IndirectIndexedY}
    ensures mode == ImpliedOrAccumulator <==> t.operand == RegisterA
  {
    match mode
    case ImpliedOrAccumulator => Target(RegisterA, false)
    case Immediate => Target(Memory(at), false)
    case ZeroPage => Target(Memory(mem[at]), false)
    case ZeroPageX => Target(Memory(ZeroPageIndexed(mem[at], x)), false)
    case ZeroPageY => Target(Memory(ZeroPageIndexed(mem[at], y)), false)
    case Absolute => Target(Memory(Read16(mem, at)), false)
    case AbsoluteX =>
      var base := Read16(mem, at);
      Target(Memory(Wrap16(base + x)), PageCrossed(base, x))
    case AbsoluteY =>
      var base := Read16(mem, at);
      Target(Memory(Wrap16(base + y)), PageCrossed(base, y))
    case Indirect => Target(Memory(Read16(mem, Read16(mem, at))), false)
    case IndexedIndirectX => Target(Memory(Read16(mem, ZeroPageIndexed(mem[at], x))), false)
    case IndirectIndexedY =>
      var base := Read16(mem, mem[at]);
      Target(Memory(Wrap16(base + y)), PageCrossed(base, y))
    case Branch => Target(Memory(at), false)
  }

  function Load(m: Machine, loc: Location): Byte
    requires |m.mem| == MemorySize
  {
    match loc
    case RegisterA => m.a
    case Memory(address) => m.mem[address]
  }

  function Store(m: Machine, loc: Location, v: Byte): (r: Machine)
    requires |m.mem| == MemorySize
    ensures |r.mem| == MemorySize
  {
    match loc
    case RegisterA => m.(a := v)
    case Memory(address) => m.(mem := m.mem[address := v])
  }

  /** The page-crossing penalty: read instructions pay one cycle when indexing crossed a
      page; stores and read-modify-write instructions already carry the worst case. */
  function Penalty(kind: InstructionType, t: Target): (n: nat)
    ensures n <= 1
    ensures n == 1 <==> CategoryOf(kind) == Read && t.crossed
  {
    if CategoryOf(kind) == Read && t.crossed then 1 else 0
  }

  /** The operation of a modelled instruction on the state in which its base cost is
      already charged and its program counter advanced; `operand` is its resolved
      operand and `at` the address of its operand bytes. */
  function Operate(m: Machine, kind: InstructionType, operand: Location, at: Word): (r: Machine)
    requires |m.mem| == MemorySize && kind in {ADC, AND, ASL, BCC, CLI}
    ensures |r.mem| == MemorySize
    ensures r.x == m.x && r.y == m.y
  {
    match kind
    case ADC =>
      var r := AddWithCarry(m.a, Load(m, operand), m.p.carry);
      m.(a := r.value, p := WithResult(m.p, r.value).(carry := r.carry, overflow := r.overflow))
    case AND =>
      var v := And(m.a, Load(m, operand));
      m.(a := v, p := WithResult(m.p, v))
    case ASL =>
      var r := ShiftLeft(Load(m, operand));
      Store(m, operand, r.value).(p := WithResult(m.p, r.value).(carry := r.carry))
    case BCC =>
      if m.p.carry then m
      else m.(pc := BranchTarget(m.pc, m.mem[at]), cycles := m.cycles + BranchExtraCycles(m.pc, m.mem[at]))
    case _ => m.(p := m.p.(interrupt := false))
  }

  /** One modelled instruction: the operand address and next PC are taken from the
      current PC, the operand is resolved, the base cost is charged, the operation is
      applied, and the page-crossing penalty is added. */
  function Perform(m: Machine, ins: Instruction): (r: Machine)
    requires |m.mem| == MemorySize && Modelled(ins.kind, m.p)
    ensures |r.mem| == MemorySize
    ensures r.x == m.x && r.y == m.y
  {
    var at := Wrap16(m.pc + 1);
    var t := Resolve(m.mem, ins.mode, at, m.x, m.y);
    var next := m.(pc := Wrap16(m.pc + Size(ins.mode)), cycles := m.cycles + ins.cycles);
    var done := Operate(next, ins.kind, t.operand, at);
    done.(cycles := done.cycles + Penalty(ins.kind, t))
  }

  /** BCC works on the operand bytes, never on the resolved operand. */
  lemma BranchIgnoresOperand(m: Machine, one: Location, other: Location, at: Word)
    requires |m.mem| == MemorySize
    ensures Operate(m, BCC, one, at) == Operate(m, BCC, other, at)
  {
  }

  /** `Perform` as the three stages `execute` goes through: fetch, operate, charge the
      page-crossing penalty. */
  lemma PerformInStages(m: Machine, ins: Instruction)
    requires |m.mem| == MemorySize && Modelled(ins.kind, m.p)
    ensures var t := Resolve(m.mem, ins.mode, OperandAt(m), m.x, m.y);
      var next := m.(pc := NextPc(m, ins), cycles := m.cycles + ins.cycles);
      var done := Operate(next, ins.kind, t.operand, OperandAt(m));
      Perform(m, ins) == done.(cycles := done.cycles + Penalty(ins.kind, t))
  {
  }

  datatype StepResult = StepResult(outcome: Outcome, machine: Machine)

  /** One call of `execute` on the machine state `m`. */
  function Step(m: Machine): (r: StepResult)
    requires |m.mem| == MemorySize
    ensures |r.machine.mem| == MemorySize
    ensures r.outcome == IllegalOpcode <==> Decode(m.mem[m.pc]).None?
    ensures r.outcome != Completed ==> r.machine == m
  {
    match Decode(m.mem[m.pc])
    case None => StepResult(IllegalOpcode, m)
    case Some(ins) =>
      if Modelled(ins.kind, m.p) then StepResult(Completed, Perform(m, ins))
      else StepResult(NotModelled, m)
  }

  /** The address after the opcode and the program counter after the instruction. */
  function OperandAt(m: Machine): Word { Wrap16(m.pc + 1) }

  function NextPc(m: Machine, ins: Instruction): Word { Wrap16(m.pc + Size(ins.mode)) }

  /** The operand byte an instruction in `mode` works on in machine state `m`. */
  function OperandOf(m: Machine, mode: AddressingMode): Byte
    requires |m.mem| == MemorySize
  {
    Load(m, Resolve(m.mem, mode, OperandAt(m), m.x, m.y).operand)
  }

  /** ADC in binary mode adds the operand and the carry into A: the carry out is the
      ninth bit of the sum, V says the signed sum left -128..127, N and Z describe A, the
      memory is untouched, and the cost is the base plus the page-crossing penalty. */
  lemma AdcStep(m: Machine, ins: Instruction)
    requires |m.mem| == MemorySize && Decode(m.mem[m.pc]) == Some(ins)
    requires ins.kind == ADC && !m.p.decimal
    ensures var r := Step(m).machine; var v := OperandOf(m, ins.mode);
      && Step(m).outcome == Completed
      && r.a + 0x100 * Bit(r.p.carry) == m.a + v + Bit(m.p.carry)
      && (r.p.overflow <==> !(-0x80 <= Signed(m.a) + Signed(v) + Bit(m.p.carry) < 0x80))
      && (r.p.negative <==> r.a >= 0x80) && (r.p.zero <==> r.a == 0)
      && r.p.interrupt == m.p.interrupt && r.p.decimal == m.p.decimal
      && r.p.(negative := m.p.negative, zero := m.p.zero, carry := m.p.carry,
              overflow := m.p.overflow) == m.p
      && r.x == m.x && r.y == m.y
      && r.mem == m.mem && r.pc == NextPc(m, ins)
      && r.cycles == m.cycles + ins.cycles
         + Bit(Resolve(m.mem, ins.mode, OperandAt(m), m.x, m.y).crossed)
  {
  }

  /** AND leaves in A the bits set in both A and the operand, and charges the
      page-crossing penalty like every read instruction. */
  lemma AndStep(m: Machine, ins: Instruction)
    requires |m.mem| == MemorySize && Decode(m.mem[m.pc]) == Some(ins) && ins.kind == AND
    ensures var r := Step(m).machine; var v := OperandOf(m, ins.mode);
      && Step(m).outcome == Completed
      && r.a == And(m.a, v) && r.a <= m.a && r.a <= v
      && (forall k: nat :: BitAt(r.a, k) <==> BitAt(m.a, k) && BitAt(v, k))
      && (r.p.negative <==> r.a >= 0x80) && (r.p.zero <==> r.a == 0)
      && r.p.carry == m.p.carry && r.p.overflow == m.p.overflow
      && r.p.(negative := m.p.negative, zero := m.p.zero) == m.p
      && r.x == m.x && r.y == m.y
      && r.mem == m.mem && r.pc == NextPc(m, ins)
      && r.cycles == m.cycles + ins.cycles
         + Bit(Resolve(m.mem, ins.mode, OperandAt(m), m.x, m.y).crossed)
  {
    var v := OperandOf(m, ins.mode);
    forall k: nat
      ensures BitAt(And(m.a, v), k) <==> BitAt(m.a, k) && BitAt(v, k)
    {
      AndBits(m.a, v, k);
    }
  }

  /** ASL shifts its operand (A or a memory byte) in place, bit 7 into the carry; as a
      read-modify-write instruction it pays no page-crossing penalty. */
  lemma AslStep(m: Machine, ins: Instruction)
    requires |m.mem| == MemorySize && Decode(m.mem[m.pc]) == Some(ins) && ins.kind == ASL
    ensures var r := Step(m).machine; var v := OperandOf(m, ins.mode);
      var loc := Resolve(m.mem, ins.mode, OperandAt(m), m.x, m.y).operand;
      && Step(m).outcome == Completed
      && Load(r, loc) + 0x100 * Bit(r.p.carry) == 2 * v
      && (r.p.negative <==> Load(r, loc) >= 0x80) && (r.p.zero <==> Load(r, loc) == 0)
      && (loc == RegisterA ==> r.mem == m.mem)
      && (loc != RegisterA ==> r.a == m.a && r.mem == m.mem[loc.address := Load(r, loc)])
      && r.p.(negative := m.p.negative, zero := m.p.zero, carry := m.p.carry) == m.p
      && r.x == m.x && r.y == m.y
      && r.pc == NextPc(m, ins) && r.cycles == m.cycles + ins.cycles
  {
  }

  /** BCC: with the carry clear the branch is taken from the address after the
      instruction, at 2 + 1 cycles, or 2 + 2 across a page; with the carry set execution
      falls through at 2 cycles. Nothing else changes. */
  lemma BccStep(m: Machine)
    requires |m.mem| == MemorySize && m.mem[m.pc] == 0x90
    ensures var r := Step(m).machine; var next := Wrap16(m.pc + 2);
      var d := m.mem[OperandAt(m)];
      && Step(m).outcome == Completed
      && r.pc == (if m.p.carry then next else BranchTarget(next, d))
      && r.cycles == m.cycles + 2 + (if m.p.carry then 0 else BranchExtraCycles(next, d))
      && r.(pc := m.pc, cycles := m.cycles) == m
  {
    var ins := Instruction(BCC, Branch, 2);
    assert Decode(0x90) == Some(ins);
    PerformInStages(m, ins);
  }

  /** CLI clears the interrupt-disable flag, in 2 cycles. */
  lemma CliStep(m: Machine)
    requires |m.mem| == MemorySize && m.mem[m.pc] == 0x58
    ensures var r := Step(m).machine;
      && Step(m).outcome == Completed
      && r == m.(pc := Wrap16(m.pc + 1), cycles := m.cycles + 2, p := m.p.(interrupt := false))
  {
    var ins := Instruction(CLI, ImpliedOrAccumulator, 2);
    assert Decode(0x58) == Some(ins);
    PerformInStages(m, ins);
  }

  /** The CPU: registers, flags, cycle counter and the operand state of the instruction
      in flight, over a 64 KiB memory it shares with the rest of the system. */
  class Cpu {
    const memory: array<Byte>
    var a: Byte
    var x: Byte
    var y: Byte
    var pc: Word
    var p: Flags
    var cycles: int
    var executionStatus: ExecutionStatus
    /** `operandPtr_`: the address of the current instruction's operand bytes. */
    var operandAddress: Word
    var effectiveAddress: Word
    /** `effectiveOperandPtr_`. */
    var effectiveOperand: Location
    var pageBoundaryCrossed: bool

    predicate Valid() {
      memory.Length == MemorySize
    }

    /** The architectural state that `execute` reads and writes. */
    function State(): (m: Machine)
      reads this, memory
      requires Valid()
      ensures |m.mem| == MemorySize
    {
      Machine(a, x, y, pc, p, cycles, memory[..])
    }

    /** The byte the effective operand designates. */
    function Operand(): Byte
      reads this, memory
      requires Valid()
    {
      match effectiveOperand
      case RegisterA => a
      case Memory(address) => memory[address]
    }

    constructor (memory: array<Byte>)
      requires memory.Length == MemorySize
      ensures this.memory == memory && Valid()
      ensures a == 0 && x == 0 && y == 0 && pc == 0 && p == Cleared && cycles == 0
      ensures executionStatus == Stopped
    {
      this.memory := memory;
      a, x, y, pc, p, cycles := 0, 0, 0, 0, Cleared, 0;
      executionStatus := Stopped;
      operandAddress, effectiveAddress, effectiveOperand := 0, 0, RegisterA;
      pageBoundaryCrossed := false;
    }

    /** `reset`: the program counter is loaded from the reset vector. */
    method Reset()
      requires Valid()
      modifies this`pc
      ensures pc == Read16(memory[..], VectorReset)
    {
      pc := Read16(memory[..], VectorReset);
    }

    /** `calculateEffectiveAddress`: the indexed address, and whether it left the base's
        page; the flag is overwritten, never accumulated. */
    method CalculateEffectiveAddress(base: Word, index: Byte)
      modifies this`effectiveAddress, this`pageBoundaryCrossed
      ensures effectiveAddress == Wrap16(base + index)
      ensures pageBoundaryCrossed == PageCrossed(base, index)
    {
      effectiveAddress := Wrap16(base + index);
      pageBoundaryCrossed := Page(effectiveAddress) != Page(base);
    }

    method PrepAccumulatorMode()
      modifies this`effectiveOperand
      ensures effectiveOperand == RegisterA
    {
      effectiveOperand := RegisterA;
    }

    /** The operand is the byte after the opcode itself. */
    method PrepImmediateMode()
      modifies this`effectiveOperand
      ensures effectiveOperand == Memory(operandAddress)
    {
      effectiveOperand := Memory(operandAddress);
    }

    method PrepZeroPageMode()
      requires Valid()
      modifies this`effectiveAddress, this`effectiveOperand
      ensures effectiveAddress == memory[operandAddress]
      ensures effectiveOperand == Memory(effectiveAddress)
    {
      effectiveAddress := memory[operandAddress];
      effectiveOperand := Memory(effectiveAddress);
    }

    method PrepZeroPageXMode()
      requires Valid()
      modifies this`effectiveAddress, this`effectiveOperand
      ensures effectiveAddress == ZeroPageIndexed(memory[operandAddress], x)
      ensures effectiveOperand == Memory(effectiveAddress)
    {
      effectiveAddress := (memory[operandAddress] + x) % 0x100;
      effectiveOperand := Memory(effectiveAddress);
    }

    method PrepZeroPageYMode()
      requires Valid()
      modifies this`effectiveAddress, this`effectiveOperand
      ensures effectiveAddress == ZeroPageIndexed(memory[operandAddress], y)
      ensures effectiveOperand == Memory(effectiveAddress)
    {
      effectiveAddress := (memory[operandAddress] + y) % 0x100;
      effectiveOperand := Memory(effectiveAddress);
    }

    method PrepAbsoluteMode()
      requires Valid()
      modifies this`effectiveAddress, this`effectiveOperand
      ensures effectiveAddress == Read16(memory[..], operandAddress)
      ensures effectiveOperand == Memory(effectiveAddress)
    {
      effectiveAddress := Read16(memory[..], operandAddress);
      effectiveOperand := Memory(effectiveAddress);
    }

    method PrepAbsoluteXMode()
      requires Valid()
      modifies this`effectiveAddress, this`effectiveOperand, this`pageBoundaryCrossed
      ensures effectiveAddress == Wrap16(Read16(memory[..], operandAddress) + x)
      ensures pageBoundaryCrossed == PageCrossed(Read16(memory[..], operandAddress), x)
      ensures effectiveOperand == Memory(effectiveAddress)
    {
      CalculateEffectiveAddress(Read16(memory[..], operandAddress), x);
      effectiveOperand := Memory(effectiveAddress);
    }

    method PrepAbsoluteYMode()
      requires Valid()
      modifies this`effectiveAddress, this`effectiveOperand, this`pageBoundaryCrossed
      ensures effectiveAddress == Wrap16(Read16(memory[..], operandAddress) + y)
      ensures pageBoundaryCrossed == PageCrossed(Read16(memory[..], operandAddress), y)
      ensures effectiveOperand == Memory(effectiveAddress)
    {
      CalculateEffectiveAddress(Read16(memory[..], operandAddress), y);
      effectiveOperand := Memory(effectiveAddress);
    }

    /** JMP ($hhhh): the target is the 16-bit pointer stored at the operand address. */
    method PrepIndirectMode()
      requires Valid()
      modifies this`effectiveAddress
      ensures effectiveAddress == Read16(memory[..], Read16(memory[..], operandAddress))
    {
      effectiveAddress := Read16(memory[..], Read16(memory[..], operandAddress));
    }

    method PrepIndexedIndirectXMode()
      requires Valid()
      modifies this`effectiveAddress, this`effectiveOperand
      ensures effectiveAddress == Read16(memory[..], ZeroPageIndexed(memory[operandAddress], x))
      ensures effectiveOperand == Memory(effectiveAddress)
    {
      effectiveAddress := Read16(memory[..], (memory[operandAddress] + x) % 0x100);
      effectiveOperand := Memory(effectiveAddress);
    }

    method PrepIndirectIndexedYMode()
      requires Valid()
      modifies this`effectiveAddress, this`effectiveOperand, this`pageBoundaryCrossed
      ensures effectiveAddress == Wrap16(Read16(memory[..], memory[operandAddress]) + y)
      ensures pageBoundaryCrossed == PageCrossed(Read16(memory[..], memory[operandAddress]), y)
      ensures effectiveOperand == Memory(effectiveAddress)
    {
      CalculateEffectiveAddress(Read16(memory[..], memory[operandAddress]), y);
      effectiveOperand := Memory(effectiveAddress);
    }

    /** A taken branch: the displacement at the operand address moves the program counter,
        at a cost of one cycle, or two when the target is on another page. */
    method ExecBranch()
      requires Valid()
      modifies this`pc, this`cycles
      ensures pc == BranchTarget(old(pc), memory[operandAddress])
      ensures cycles == old(cycles) + BranchExtraCycles(old(pc), memory[operandAddress])
    {
      var target := BranchTarget(pc, memory[operandAddress]);
      cycles := cycles + (if Page(target) == Page(pc) then 1 else 2);
      pc := target;
    }

    method ExecAdc()
      requires Valid()
      modifies this`a, this`p
      ensures var r := AddWithCarry(old(a), old(Operand()), old(p.carry));
        a == r.value && p == WithResult(old(p), r.value).(carry := r.carry, overflow := r.overflow)
    {
      var r := AddWithCarry(a, Operand(), p.carry);
      a := r.value;
      p := WithResult(p, a).(carry := r.carry, overflow := r.overflow);
    }

    method ExecAnd()
      requires Valid()
      modifies this`a, this`p
      ensures a == And(old(a), old(Operand())) && p == WithResult(old(p), a)
    {
      a := And(a, Operand());
      p := WithResult(p, a);
    }

    /** ASL on the accumulator or on a memory byte, in place. */
    method ExecAsl()
      requires Valid()
      modifies this`a, this`p, memory
      ensures var r := ShiftLeft(old(Operand()));
        && p == WithResult(old(p), r.value).(carry := r.carry)
        && match effectiveOperand
           case RegisterA => a == r.value && memory[..] == old(memory[..])
           case Memory(address) => a == old(a) && memory[..] == old(memory[..])[address := r.value]
    {
      var r := ShiftLeft(Operand());
      match effectiveOperand {
        case RegisterA => a := r.value;
        case Memory(address) => memory[address] := r.value;
      }
      p := WithResult(p, r.value).(carry := r.carry);
    }

    method ExecCli()
      modifies this`p
      ensures p == old(p).(interrupt := false)
    {
      p := p.(interrupt := false);
    }

    /** The `exec*` call for a modelled instruction. */
    method ExecOperation(kind: InstructionType)
      requires Valid() && kind in {ADC, AND, ASL, BCC, CLI}
      modifies this`a, this`p, this`pc, this`cycles, memory
      ensures State() == Operate(old(State()), kind, effectiveOperand, operandAddress)
    {
      match kind {
        case ADC => ExecAdc();
        case AND => ExecAnd();
        case ASL => ExecAsl();
        case BCC =>
          if !p.carry {
            ExecBranch();
          }
        case CLI => ExecCli();
      }
    }

    /** The `prep*Mode` call for `mode`: every mode but JMP's `Indirect` and the
        branches' relative mode resolves the operand as `Resolve` says. */
    method PrepareOperand(mode: AddressingMode)
      requires Valid()
      modifies this`effectiveAddress, this`effectiveOperand, this`pageBoundaryCrossed
      ensures mode !in {Indirect, Branch} ==>
        var t := Resolve(memory[..], mode, operandAddress, x, y);
        && effectiveOperand == t.operand
        && (mode in {AbsoluteX, AbsoluteY, IndirectIndexedY} ==> pageBoundaryCrossed == t.crossed)
    {
      match mode {
        case ImpliedOrAccumulator => PrepAccumulatorMode();
        case Immediate => PrepImmediateMode();
        case ZeroPage => PrepZeroPageMode();
        case ZeroPageX => PrepZeroPageXMode();
        case ZeroPageY => PrepZeroPageYMode();
        case Absolute => PrepAbsoluteMode();
        case AbsoluteX => PrepAbsoluteXMode();
        case AbsoluteY => PrepAbsoluteYMode();
        case Indirect => PrepIndirectMode();
        case IndexedIndirectX => PrepIndexedIndirectXMode();
        case IndirectIndexedY => PrepIndirectIndexedYMode();
        case Branch =>
      }
    }

    /** The first half of `execute` for a decoded instruction: the operand address and
        the next PC, the operand resolved by its addressing mode, the base cost. */
    method Fetch(ins: Instruction)
      requires Valid() && Modelled(ins.kind, p) && Operational(ins)
      modifies this`pc, this`cycles, this`operandAddress
      modifies this`effectiveAddress, this`effectiveOperand, this`pageBoundaryCrossed
      ensures Valid()
      ensures State() == old(State()).(pc := NextPc(old(State()), ins), cycles := old(cycles) + ins.cycles)
      ensures operandAddress == OperandAt(old(State()))
      ensures var m := old(State());
        var t := Resolve(m.mem, ins.mode, OperandAt(m), m.x, m.y);
        && (ins.kind != BCC ==> effectiveOperand == t.operand)
        && ((CategoryOf(ins.kind) == Read && ins.mode in {AbsoluteX, AbsoluteY, IndirectIndexedY}
             && pageBoundaryCrossed) <==> Penalty(ins.kind, t) == 1)
    {
      operandAddress := Wrap16(pc + 1);
      pc := Wrap16(pc + Size(ins.mode));
      PrepareOperand(ins.mode);
      cycles := cycles + ins.cycles;
    }

    /** The part of `execute` after a modelled instruction is decoded. */
    method ExecuteInstruction(ins: Instruction)
      requires Valid() && Modelled(ins.kind, p) && Operational(ins)
      modifies this`a, this`p, this`pc, this`cycles, memory
      modifies this`operandAddress, this`effectiveAddress, this`effectiveOperand
      modifies this`pageBoundaryCrossed
      ensures Valid()
      ensures State() == Perform(old(State()), ins)
    {
      ghost var m := State();
      Fetch(ins);
      OperateAndCharge(ins, m);
    }

    /** The second half of `execute`: the operation on the fetched operand, then the
        page-crossing penalty; `m` is the state before the instruction was fetched. */
    method OperateAndCharge(ins: Instruction, ghost m: Machine)
      requires Valid() && |m.mem| == MemorySize && Modelled(ins.kind, m.p) && Operational(ins)
      requires State() == m.(pc := NextPc(m, ins), cycles := m.cycles + ins.cycles)
      requires operandAddress == OperandAt(m)
      requires var t := Resolve(m.mem, ins.mode, OperandAt(m), m.x, m.y);
        && (ins.kind != BCC ==> effectiveOperand == t.operand)
        && ((CategoryOf(ins.kind) == Read && ins.mode in {AbsoluteX, AbsoluteY, IndirectIndexedY}
             && pageBoundaryCrossed) <==> Penalty(ins.kind, t) == 1)
      modifies this`a, this`p, this`pc, this`cycles, memory
      ensures Valid()
      ensures State() == Perform(m, ins)
    {
      ghost var t := Resolve(m.mem, ins.mode, OperandAt(m), m.x, m.y);
      PerformInStages(m, ins);
      ghost var next := State();
      ExecOperation(ins.kind);
      if ins.kind == BCC {
        BranchIgnoresOperand(next, effectiveOperand, t.operand, operandAddress);
      }
      assert State() == Operate(next, ins.kind, t.operand, operandAddress);
      ChargePenalty(ins, t);
    }

    /** The last step of `execute`: one more cycle for a read instruction whose indexing
        crossed a page, which is `Penalty` of the resolved operand `t`. */
    method ChargePenalty(ins: Instruction, ghost t: Target)
      requires Valid()
      requires (CategoryOf(ins.kind) == Read && ins.mode in {AbsoluteX, AbsoluteY, IndirectIndexedY}
                && pageBoundaryCrossed) <==> Penalty(ins.kind, t) == 1
      modifies this`cycles
      ensures Valid()
      ensures State() == old(State()).(cycles := old(cycles) + Penalty(ins.kind, t))
    {
      if CategoryOf(ins.kind) == Read && ins.mode in {AbsoluteX, AbsoluteY, IndirectIndexedY}
         && pageBoundaryCrossed {
        cycles := cycles + 1;
      }
    }

    /** `execute`: one instruction at the program counter, as `Step` describes it. */
    method Execute() returns (outcome: Outcome)
      requires Valid()
      modifies this`a, this`p, this`pc, this`cycles, memory
      modifies this`operandAddress, this`effectiveAddress, this`effectiveOperand
      modifies this`pageBoundaryCrossed
      ensures Valid()
      ensures StepResult(outcome, State()) == old(Step(State()))
    {
      var entry := Decode(memory[pc]);
      if entry.None? {
        return IllegalOpcode;
      }
      var ins := entry.value;
      if !Modelled(ins.kind, p) {
        return NotModelled;
      }
      ModesOfModelled(memory[pc]);
      ExecuteInstruction(ins);
      outcome := Completed;
    }
  }
}
