/** The opcode descriptor table of main/instructiontable.h: a constant map from each of
    the 256 opcode bytes to an instruction type, an addressing mode and a base cycle
    count, together with the reverse lookup by (type, mode) that the assembler needs,
    and the facts about the table that the rest of the emulator relies on. */
module InstructionTable {
  import opened Common

  /** The 56 documented 6502 mnemonics. */
  datatype InstructionType =
    | ADC | AND | ASL | BCC | BCS | BEQ | BIT | BMI | BNE | BPL | BRK | BVC | BVS | CLC
    | CLD | CLI | CLV | CMP | CPX | CPY | DEC | DEX | DEY | EOR | INC | INX | INY | JMP
    | JSR | LDA | LDX | LDY | LSR | NOP | ORA | PHA | PHP | PLA | PLP | ROL | ROR | RTI
    | RTS | SBC | SEC | SED | SEI | STA | STX | STY | TAX | TAY | TSX | TXA | TXS | TYA

  /** The addressing modes as the table spells them: `ImpliedOrAccumulator` covers every
      instruction without an operand byte, `Branch` is the relative mode of Bxx. */
  datatype AddressingMode =
    | ImpliedOrAccumulator | Immediate | ZeroPage | ZeroPageX | ZeroPageY
    | Absolute | AbsoluteX | AbsoluteY | Indirect | IndexedIndirectX | IndirectIndexedY
    | Branch

  /** One slot of the table. */
  datatype Instruction = Instruction(kind: InstructionType, mode: AddressingMode, cycles: nat)

  /** Encoded length of an instruction: the opcode byte plus one operand byte for the
      8-bit modes and two for the 16-bit ones. */
  function Size(mode: AddressingMode): (n: nat)
    ensures 1 <= n <= 3
    ensures n == 1 <==> mode == ImpliedOrAccumulator
    ensures n == 3 <==> mode in {Absolute, AbsoluteX, AbsoluteY, Indirect}
  {
    match mode
    case ImpliedOrAccumulator => 1
    case Absolute | AbsoluteX | AbsoluteY | Indirect => 3
    case _ => 2
  }

  /** `InstructionTable[opcode]`: the descriptor in a defined slot, `None` in a slot the
      table leaves unassigned (an undocumented opcode). */
  function Decode(opcode: Byte): Option<Instruction> {
    var column := opcode % 0x10;
    match opcode / 0x10
    case 0x0 => Row0(column)
    case 0x1 => Row1(column)
    case 0x2 => Row2(column)
    case 0x3 => Row3(column)
    case 0x4 => Row4(column)
    case 0x5 => Row5(column)
    case 0x6 => Row6(column)
    case 0x7 => Row7(column)
    case 0x8 => Row8(column)
    case 0x9 => Row9(column)
    case 0xA => RowA(column)
    case 0xB => RowB(column)
    case 0xC => RowC(column)
    case 0xD => RowD(column)
    case 0xE => RowE(column)
    case _ => RowF(column)
  }

  /** The table's rows: row `r` holds opcodes 0xr0 .. 0xrF. */
  function Row0(column: int): Option<Instruction> {
    match column
    case 0x0 => Some(Instruction(BRK, ImpliedOrAccumulator, 7))
    case 0x1 => Some(Instruction(ORA, IndexedIndirectX, 6))
    case 0x5 => Some(Instruction(ORA, ZeroPage, 3))
    case 0x6 => Some(Instruction(ASL, ZeroPage, 5))
    case 0x8 => Some(Instruction(PHP, ImpliedOrAccumulator, 3))
    case 0x9 => Some(Instruction(ORA, Immediate, 2))
    case 0xA => Some(Instruction(ASL, ImpliedOrAccumulator, 2))
    case 0xD => Some(Instruction(ORA, Absolute, 4))
    case 0xE => Some(Instruction(ASL, Absolute, 6))
    case _ => None
  }

  function Row1(column: int): Option<Instruction> {
    match column
    case 0x0 => Some(Instruction(BPL, Branch, 2))
    case 0x1 => Some(Instruction(ORA, IndirectIndexedY, 5))
    case 0x5 => Some(Instruction(ORA, ZeroPageX, 4))
    case 0x6 => Some(Instruction(ASL, ZeroPageX, 6))
    case 0x8 => Some(Instruction(CLC, ImpliedOrAccumulator, 2))
    case 0x9 => Some(Instruction(ORA, AbsoluteY, 4))
    case 0xD => Some(Instruction(ORA, AbsoluteX, 4))
    case 0xE => Some(Instruction(ASL, AbsoluteX, 7))
    case _ => None
  }

  function Row2(column: int): Option<Instruction> {
    match column
    case 0x0 => Some(Instruction(JSR, Absolute, 6))
    case 0x1 => Some(Instruction(AND, IndexedIndirectX, 6))
    case 0x4 => Some(Instruction(BIT, ZeroPage, 3))
    case 0x5 => Some(Instruction(AND, ZeroPage, 3))
    case 0x6 => Some(Instruction(ROL, ZeroPage, 5))
    case 0x8 => Some(Instruction(PLP, ImpliedOrAccumulator, 4))
    case 0x9 => Some(Instruction(AND, Immediate, 2))
    case 0xA => Some(Instruction(ROL, ImpliedOrAccumulator, 2))
    case 0xC => Some(Instruction(BIT, Absolute, 4))
    case 0xD => Some(Instruction(AND, Absolute, 4))
    case 0xE => Some(Instruction(ROL, Absolute, 6))
    case _ => None
  }

  function Row3(column: int): Option<Instruction> {
    match column
    case 0x0 => Some(Instruction(BMI, Branch, 2))
    case 0x1 => Some(Instruction(AND, IndirectIndexedY, 5))
    case 0x5 => Some(Instruction(AND, ZeroPageX, 4))
    case 0x6 => Some(Instruction(ROL, ZeroPageX, 6))
    case 0x8 => Some(Instruction(SEC, ImpliedOrAccumulator, 2))
    case 0x9 => Some(Instruction(AND, AbsoluteY, 4))
    case 0xD => Some(Instruction(AND, AbsoluteX, 4))
    case 0xE => Some(Instruction(ROL, AbsoluteX, 7))
    case _ => None
  }

  function Row4(column: int): Option<Instruction> {
    match column
    case 0x0 => Some(Instruction(RTI, ImpliedOrAccumulator, 6))
    case 0x1 => Some(Instruction(EOR, IndexedIndirectX, 6))
    case 0x5 => Some(Instruction(EOR, ZeroPage, 3))
    case 0x6 => Some(Instruction(LSR, ZeroPage, 5))
    case 0x8 => Some(Instruction(PHA, ImpliedOrAccumulator, 3))
    case 0x9 => Some(Instruction(EOR, Immediate, 2))
    case 0xA => Some(Instruction(LSR, ImpliedOrAccumulator, 2))
    case 0xC => Some(Instruction(JMP, Absolute, 3))
    case 0xD => Some(Instruction(EOR, Absolute, 4))
    case 0xE => Some(Instruction(LSR, Absolute, 6))
    case _ => None
  }

  function Row5(column: int): Option<Instruction> {
    match column
    case 0x0 => Some(Instruction(BVC, Branch, 2))
    case 0x1 => Some(Instruction(EOR, IndirectIndexedY, 5))
    case 0x5 => Some(Instruction(EOR, ZeroPageX, 4))
    case 0x6 => Some(Instruction(LSR, ZeroPageX, 6))
    case 0x8 => Some(Instruction(CLI, ImpliedOrAccumulator, 2))
    case 0x9 => Some(Instruction(EOR, AbsoluteY, 4))
    case 0xD => Some(Instruction(EOR, AbsoluteX, 4))
    case 0xE => Some(Instruction(LSR, AbsoluteX, 7))
    case _ => None
  }

  function Row6(column: int): Option<Instruction> {
    match column
    case 0x0 => Some(Instruction(RTS, ImpliedOrAccumulator, 6))
    case 0x1 => Some(Instruction(ADC, IndexedIndirectX, 6))
    case 0x5 => Some(Instruction(ADC, ZeroPage, 3))
    case 0x6 => Some(Instruction(ROR, ZeroPage, 5))
    case 0x8 => Some(Instruction(PLA, ImpliedOrAccumulator, 4))
    case 0x9 => Some(Instruction(ADC, Immediate, 2))
    case 0xA => Some(Instruction(ROR, ImpliedOrAccumulator, 2))
    case 0xC => Some(Instruction(JMP, Indirect, 5))
    case 0xD => Some(Instruction(ADC, Absolute, 4))
    case 0xE => Some(Instruction(ROR, Absolute, 6))
    case _ => None
  }

  function Row7(column: int): Option<Instruction> {
    match column
    case 0x0 => Some(Instruction(BVS, Branch, 2))
    case 0x1 => Some(Instruction(ADC, IndirectIndexedY, 5))
    case 0x5 => Some(Instruction(ADC, ZeroPageX, 4))
    case 0x6 => Some(Instruction(ROR, ZeroPageX, 6))
    case 0x8 => Some(Instruction(SEI, ImpliedOrAccumulator, 2))
    case 0x9 => Some(Instruction(ADC, AbsoluteY, 4))
    case 0xD => Some(Instruction(ADC, AbsoluteX, 4))
    case 0xE => Some(Instruction(ROR, AbsoluteX, 7))
    case _ => None
  }

  function Row8(column: int): Option<Instruction> {
    match column
    case 0x1 => Some(Instruction(STA, IndexedIndirectX, 6))
    case 0x4 => Some(Instruction(STY, ZeroPage, 3))
    case 0x5 => Some(Instruction(STA, ZeroPage, 3))
    case 0x6 => Some(Instruction(STX, ZeroPage, 3))
    case 0x8 => Some(Instruction(DEY, ImpliedOrAccumulator, 2))
    case 0xA => Some(Instruction(TXA, ImpliedOrAccumulator, 2))
    case 0xC => Some(Instruction(STY, Absolute, 4))
    case 0xD => Some(Instruction(STA, Absolute, 4))
    case 0xE => Some(Instruction(STX, Absolute, 4))
    case _ => None
  }

  function Row9(column: int): Option<Instruction> {
    match column
    case 0x0 => Some(Instruction(BCC, Branch, 2))
    case 0x1 => Some(Instruction(STA, IndirectIndexedY, 6))
    case 0x4 => Some(Instruction(STY, ZeroPageX, 4))
    case 0x5 => Some(Instruction(STA, ZeroPageX, 4))
    case 0x6 => Some(Instruction(STX, ZeroPageY, 4))
    case 0x8 => Some(Instruction(TYA, ImpliedOrAccumulator, 2))
    case 0x9 => Some(Instruction(STA, AbsoluteY, 5))
    case 0xA => Some(Instruction(TXS, ImpliedOrAccumulator, 2))
    case 0xD => Some(Instruction(STA, AbsoluteX, 5))
    case _ => None
  }

  function RowA(column: int): Option<Instruction> {
    match column
    case 0x0 => Some(Instruction(LDY, Immediate, 2))
    case 0x1 => Some(Instruction(LDA, IndexedIndirectX, 6))
    case 0x2 => Some(Instruction(LDX, Immediate, 2))
    case 0x4 => Some(Instruction(LDY, ZeroPage, 3))
    case 0x5 => Some(Instruction(LDA, ZeroPage, 3))
    case 0x6 => Some(Instruction(LDX, ZeroPage, 3))
    case 0x8 => Some(Instruction(TAY, ImpliedOrAccumulator, 2))
    case 0x9 => Some(Instruction(LDA, Immediate, 2))
    case 0xA => Some(Instruction(TAX, ImpliedOrAccumulator, 2))
    case 0xC => Some(Instruction(LDY, Absolute, 4))
    case 0xD => Some(Instruction(LDA, Absolute, 4))
    case 0xE => Some(Instruction(LDX, Absolute, 4))
    case _ => None
  }

  function RowB(column: int): Option<Instruction> {
    match column
    case 0x0 => Some(Instruction(BCS, Branch, 2))
    case 0x1 => Some(Instruction(LDA, IndirectIndexedY, 5))
    case 0x4 => Some(Instruction(LDY, ZeroPageX, 4))
    case 0x5 => Some(Instruction(LDA, ZeroPageX, 4))
    case 0x6 => Some(Instruction(LDX, ZeroPageY, 4))
    case 0x8 => Some(Instruction(CLV, ImpliedOrAccumulator, 2))
    case 0x9 => Some(Instruction(LDA, AbsoluteY, 4))
    case 0xA => Some(Instruction(TSX, ImpliedOrAccumulator, 2))
    case 0xC => Some(Instruction(LDY, AbsoluteX, 4))
    case 0xD => Some(Instruction(LDA, AbsoluteX, 4))
    case 0xE => Some(Instruction(LDX, AbsoluteY, 4))
    case _ => None
  }

  function RowC(column: int): Option<Instruction> {
    match column
    case 0x0 => Some(Instruction(CPY, Immediate, 2))
    case 0x1 => Some(Instruction(CMP, IndexedIndirectX, 6))
    case 0x4 => Some(Instruction(CPY, ZeroPage, 3))
    case 0x5 => Some(Instruction(CMP, ZeroPage, 3))
    case 0x6 => Some(Instruction(DEC, ZeroPage, 5))
    case 0x8 => Some(Instruction(INY, ImpliedOrAccumulator, 2))
    case 0x9 => Some(Instruction(CMP, Immediate, 2))
    case 0xA => Some(Instruction(DEX, ImpliedOrAccumulator, 2))
    case 0xC => Some(Instruction(CPY, Absolute, 4))
    case 0xD => Some(Instruction(CMP, Absolute, 4))
    case 0xE => Some(Instruction(DEC, Absolute, 6))
    case _ => None
  }

  function RowD(column: int): Option<Instruction> {
    match column
    case 0x0 => Some(Instruction(BNE, Branch, 2))
    case 0x1 => Some(Instruction(CMP, IndirectIndexedY, 5))
    case 0x5 => Some(Instruction(CMP, ZeroPageX, 4))
    case 0x6 => Some(Instruction(DEC, ZeroPageX, 6))
    case 0x8 => Some(Instruction(CLD, ImpliedOrAccumulator, 2))
    case 0x9 => Some(Instruction(CMP, AbsoluteY, 4))
    case 0xE => Some(Instruction(CMP, AbsoluteX, 4))
    case 0xF => Some(Instruction(DEC, AbsoluteX, 7))
    case _ => None
  }

  function RowE(column: int): Option<Instruction> {
    match column
    case 0x0 => Some(Instruction(CPX, Immediate, 2))
    case 0x1 => Some(Instruction(SBC, IndexedIndirectX, 6))
    case 0x4 => Some(Instruction(CPX, ZeroPage, 3))
    case 0x5 => Some(Instruction(SBC, ZeroPage, 3))
    case 0x6 => Some(Instruction(INC, ZeroPage, 5))
    case 0x8 => Some(Instruction(INX, ImpliedOrAccumulator, 2))
    case 0x9 => Some(Instruction(SBC, Immediate, 2))
    case 0xA => Some(Instruction(NOP, ImpliedOrAccumulator, 2))
    case 0xC => Some(Instruction(CPX, Absolute, 4))
    case 0xD => Some(Instruction(SBC, Absolute, 4))
    case 0xE => Some(Instruction(INC, Absolute, 6))
    case _ => None
  }

  function RowF(column: int): Option<Instruction> {
    match column
    case 0x0 => Some(Instruction(BEQ, Branch, 2))
    case 0x1 => Some(Instruction(SBC, IndirectIndexedY, 5))
    case 0x5 => Some(Instruction(SBC, ZeroPageX, 4))
    case 0x6 => Some(Instruction(INC, ZeroPageX, 6))
    case 0x8 => Some(Instruction(SED, ImpliedOrAccumulator, 2))
    case 0x9 => Some(Instruction(SBC, AbsoluteY, 4))
    case 0xD => Some(Instruction(SBC, AbsoluteX, 4))
    case 0xE => Some(Instruction(INC, AbsoluteX, 7))
    case _ => None
  }

  /** The assembler's lookup from (type, mode) to opcode, written out by mode
      independently of `Decode`; `None` for a pair the 6502 does not have. */
  function Encode(kind: InstructionType, mode: AddressingMode): Option<Byte> {
    match mode
    case ImpliedOrAccumulator => (
      match kind
      case ASL => Some(0x0A)
      case BRK => Some(0x00)
      case CLC => Some(0x18)
      case CLD => Some(0xD8)
      case CLI => Some(0x58)
      case CLV => Some(0xB8)
      case DEX => Some(0xCA)
      case DEY => Some(0x88)
      case INX => Some(0xE8)
      case INY => Some(0xC8)
      case LSR => Some(0x4A)
      case NOP => Some(0xEA)
      case PHA => Some(0x48)
      case PHP => Some(0x08)
      case PLA => Some(0x68)
      case PLP => Some(0x28)
      case ROL => Some(0x2A)
      case ROR => Some(0x6A)
      case RTI => Some(0x40)
      case RTS => Some(0x60)
      case SEC => Some(0x38)
      case SED => Some(0xF8)
      case SEI => Some(0x78)
      case TAX => Some(0xAA)
      case TAY => Some(0xA8)
      case TSX => Some(0xBA)
      case TXA => Some(0x8A)
      case TXS => Some(0x9A)
      case TYA => Some(0x98)
      case _ => None)
    case Immediate => (
      match kind
      case ADC => Some(0x69)
      case AND => Some(0x29)
      case CMP => Some(0xC9)
      case CPX => Some(0xE0)
      case CPY => Some(0xC0)
      case EOR => Some(0x49)
      case LDA => Some(0xA9)
      case LDX => Some(0xA2)
      case LDY => Some(0xA0)
      case ORA => Some(0x09)
      case SBC => Some(0xE9)
      case _ => None)
    case ZeroPage => (
      match kind
      case ADC => Some(0x65)
      case AND => Some(0x25)
      case ASL => Some(0x06)
      case BIT => Some(0x24)
      case CMP => Some(0xC5)
      case CPX => Some(0xE4)
      case CPY => Some(0xC4)
      case DEC => Some(0xC6)
      case EOR => Some(0x45)
      case INC => Some(0xE6)
      case LDA => Some(0xA5)
      case LDX => Some(0xA6)
      case LDY => Some(0xA4)
      case LSR => Some(0x46)
      case ORA => Some(0x05)
      case ROL => Some(0x26)
      case ROR => Some(0x66)
      case SBC => Some(0xE5)
      case STA => Some(0x85)
      case STX => Some(0x86)
      case STY => Some(0x84)
      case _ => None)
    case ZeroPageX => (
      match kind
      case ADC => Some(0x75)
      case AND => Some(0x35)
      case ASL => Some(0x16)
      case CMP => Some(0xD5)
      case DEC => Some(0xD6)
      case EOR => Some(0x55)
      case INC => Some(0xF6)
      case LDA => Some(0xB5)
      case LDY => Some(0xB4)
      case LSR => Some(0x56)
      case ORA => Some(0x15)
      case ROL => Some(0x36)
      case ROR => Some(0x76)
      case SBC => Some(0xF5)
      case STA => Some(0x95)
      case STY => Some(0x94)
      case _ => None)
    case ZeroPageY => (
      match kind
      case LDX => Some(0xB6)
      case STX => Some(0x96)
      case _ => None)
    case Absolute => (
      match kind
      case ADC => Some(0x6D)
      case AND => Some(0x2D)
      case ASL => Some(0x0E)
      case BIT => Some(0x2C)
      case CMP => Some(0xCD)
      case CPX => Some(0xEC)
      case CPY => Some(0xCC)
      case DEC => Some(0xCE)
      case EOR => Some(0x4D)
      case INC => Some(0xEE)
      case JMP => Some(0x4C)
      case JSR => Some(0x20)
      case LDA => Some(0xAD)
      case LDX => Some(0xAE)
      case LDY => Some(0xAC)
      case LSR => Some(0x4E)
      case ORA => Some(0x0D)
      case ROL => Some(0x2E)
      case ROR => Some(0x6E)
      case SBC => Some(0xED)
      case STA => Some(0x8D)
      case STX => Some(0x8E)
      case STY => Some(0x8C)
      case _ => None)
    case AbsoluteX => (
      match kind
      case ADC => Some(0x7D)
      case AND => Some(0x3D)
      case ASL => Some(0x1E)
      case CMP => Some(0xDE)
      case DEC => Some(0xDF)
      case EOR => Some(0x5D)
      case INC => Some(0xFE)
      case LDA => Some(0xBD)
      case LDY => Some(0xBC)
      case LSR => Some(0x5E)
      case ORA => Some(0x1D)
      case ROL => Some(0x3E)
      case ROR => Some(0x7E)
      case SBC => Some(0xFD)
      case STA => Some(0x9D)
      case _ => None)
    case AbsoluteY => (
      match kind
      case ADC => Some(0x79)
      case AND => Some(0x39)
      case CMP => Some(0xD9)
      case EOR => Some(0x59)
      case LDA => Some(0xB9)
      case LDX => Some(0xBE)
      case ORA => Some(0x19)
      case SBC => Some(0xF9)
      case STA => Some(0x99)
      case _ => None)
    case Indirect => (
      match kind
      case JMP => Some(0x6C)
      case _ => None)
    case IndexedIndirectX => (
      match kind
      case ADC => Some(0x61)
      case AND => Some(0x21)
      case CMP => Some(0xC1)
      case EOR => Some(0x41)
      case LDA => Some(0xA1)
      case ORA => Some(0x01)
      case SBC => Some(0xE1)
      case STA => Some(0x81)
      case _ => None)
    case IndirectIndexedY => (
      match kind
      case ADC => Some(0x71)
      case AND => Some(0x31)
      case CMP => Some(0xD1)
      case EOR => Some(0x51)
      case LDA => Some(0xB1)
      case ORA => Some(0x11)
      case SBC => Some(0xF1)
      case STA => Some(0x91)
      case _ => None)
    case Branch => (
      match kind
      case BCC => Some(0x90)
      case BCS => Some(0xB0)
      case BEQ => Some(0xF0)
      case BMI => Some(0x30)
      case BNE => Some(0xD0)
      case BPL => Some(0x10)
      case BVC => Some(0x50)
      case BVS => Some(0x70)
      case _ => None)
  }

  /** How an instruction uses its operand; this decides its cost in each mode. */
  datatype Category = Read | Write | ReadModifyWrite | Branching | Jump | Control

  function CategoryOf(kind: InstructionType): Category {
    match kind
    case ADC | AND | BIT | CMP | CPX | CPY | EOR | LDA | LDX | LDY | ORA | SBC => Read
    case STA | STX | STY => Write
    case ASL | DEC | INC | LSR | ROL | ROR => ReadModifyWrite
    case BCC | BCS | BEQ | BMI | BNE | BPL | BVC | BVS => Branching
    case JMP | JSR => Jump
    case _ => Control
  }

  /** The documented base cost of the 6502, stated per category and mode, with no
      page-crossing or taken-branch penalty included. */
  function ExpectedCycles(kind: InstructionType, mode: AddressingMode): nat {
    var category := CategoryOf(kind);
    match mode
    case ImpliedOrAccumulator => (
      match kind
      case BRK => 7
      case PHA | PHP => 3
      case PLA | PLP => 4
      case RTI | RTS => 6
      case _ => 2)
    case Immediate => 2
    case ZeroPage => if category == ReadModifyWrite then 5 else 3
    case ZeroPageX | ZeroPageY => if category == ReadModifyWrite then 6 else 4
    case Absolute =>
      if kind == JMP then 3
      else if kind == JSR || category == ReadModifyWrite then 6
      else 4
    case AbsoluteX | AbsoluteY =>
      if category == ReadModifyWrite then 7 else if category == Write then 5 else 4
    case Indirect => 5
    case IndexedIndirectX => 6
    case IndirectIndexedY => if category == Write then 6 else 5
    case Branch => 2
  }

  predicate HasMode(opcode: Byte, mode: AddressingMode) {
    HoldsMode(Decode(opcode), mode)
  }

  /** What the table promises about the slot `opcode` holding `entry`: the documented
      base cost, the three modes that only a few opcodes have, and that the branches are
      exactly the instructions in `Branch` mode. */
  ghost predicate EntryFacts(opcode: int, entry: Option<Instruction>) {
    && (entry.Some? ==> entry.value.cycles == ExpectedCycles(entry.value.kind, entry.value.mode))
    && (HoldsMode(entry, Branch) <==> opcode in {0x10, 0x30, 0x50, 0x70, 0x90, 0xB0, 0xD0, 0xF0})
    && (HoldsMode(entry, Indirect) <==> opcode == 0x6C)
    && (HoldsMode(entry, Indirect) ==> entry.value.kind == JMP)
    && (entry.Some? ==> (entry.value.mode == Branch <==> CategoryOf(entry.value.kind) == Branching))
    && (HoldsMode(entry, ZeroPageY) <==> opcode == 0x96 || opcode == 0xB6)
  }

  /** The reverse lookup leads from the slot's (type, mode) back to the slot. */
  ghost predicate EncodesBack(opcode: int, entry: Option<Instruction>) {
    entry.Some? ==> Encode(entry.value.kind, entry.value.mode) == Some(opcode)
  }

  predicate HoldsMode(entry: Option<Instruction>, mode: AddressingMode) {
    entry.Some? && entry.value.mode == mode
  }

  // The facts are checked one row at a time: the cost and mode facts, then the reverse lookup.

  lemma Row0Facts(column: int)
    requires 0 <= column < 0x10
    ensures EntryFacts(0x00 + column, Row0(column))
  {
  }

  lemma Row0EncodesBack(column: int)
    requires 0 <= column < 0x10
    ensures EncodesBack(0x00 + column, Row0(column))
  {
  }

  lemma Row1Facts(column: int)
    requires 0 <= column < 0x10
    ensures EntryFacts(0x10 + column, Row1(column))
  {
  }

  lemma Row1EncodesBack(column: int)
    requires 0 <= column < 0x10
    ensures EncodesBack(0x10 + column, Row1(column))
  {
  }

  lemma Row2Facts(column: int)
    requires 0 <= column < 0x10
    ensures EntryFacts(0x20 + column, Row2(column))
  {
  }

  lemma Row2EncodesBack(column: int)
    requires 0 <= column < 0x10
    ensures EncodesBack(0x20 + column, Row2(column))
  {
  }

  lemma Row3Facts(column: int)
    requires 0 <= column < 0x10
    ensures EntryFacts(0x30 + column, Row3(column))
  {
  }

  lemma Row3EncodesBack(column: int)
    requires 0 <= column < 0x10
    ensures EncodesBack(0x30 + column, Row3(column))
  {
  }

  lemma Row4Facts(column: int)
    requires 0 <= column < 0x10
    ensures EntryFacts(0x40 + column, Row4(column))
  {
  }

  lemma Row4EncodesBack(column: int)
    requires 0 <= column < 0x10
    ensures EncodesBack(0x40 + column, Row4(column))
  {
  }

  lemma Row5Facts(column: int)
    requires 0 <= column < 0x10
    ensures EntryFacts(0x50 + column, Row5(column))
  {
  }

  lemma Row5EncodesBack(column: int)
    requires 0 <= column < 0x10
    ensures EncodesBack(0x50 + column, Row5(column))
  {
  }

  lemma Row6Facts(column: int)
    requires 0 <= column < 0x10
    ensures EntryFacts(0x60 + column, Row6(column))
  {
  }

  lemma Row6EncodesBack(column: int)
    requires 0 <= column < 0x10
    ensures EncodesBack(0x60 + column, Row6(column))
  {
  }

  lemma Row7Facts(column: int)
    requires 0 <= column < 0x10
    ensures EntryFacts(0x70 + column, Row7(column))
  {
  }

  lemma Row7EncodesBack(column: int)
    requires 0 <= column < 0x10
    ensures EncodesBack(0x70 + column, Row7(column))
  {
  }

  lemma Row8Facts(column: int)
    requires 0 <= column < 0x10
    ensures EntryFacts(0x80 + column, Row8(column))
  {
  }

  lemma Row8EncodesBack(column: int)
    requires 0 <= column < 0x10
    ensures EncodesBack(0x80 + column, Row8(column))
  {
  }

  lemma Row9Facts(column: int)
    requires 0 <= column < 0x10
    ensures EntryFacts(0x90 + column, Row9(column))
  {
  }

  lemma Row9EncodesBack(column: int)
    requires 0 <= column < 0x10
    ensures EncodesBack(0x90 + column, Row9(column))
  {
  }

  lemma RowAFacts(column: int)
    requires 0 <= column < 0x10
    ensures EntryFacts(0xA0 + column, RowA(column))
  {
  }

  lemma RowAEncodesBack(column: int)
    requires 0 <= column < 0x10
    ensures EncodesBack(0xA0 + column, RowA(column))
  {
  }

  lemma RowBFacts(column: int)
    requires 0 <= column < 0x10
    ensures EntryFacts(0xB0 + column, RowB(column))
  {
  }

  lemma RowBEncodesBack(column: int)
    requires 0 <= column < 0x10
    ensures EncodesBack(0xB0 + column, RowB(column))
  {
  }

  lemma RowCFacts(column: int)
    requires 0 <= column < 0x10
    ensures EntryFacts(0xC0 + column, RowC(column))
  {
  }

  lemma RowCEncodesBack(column: int)
    requires 0 <= column < 0x10
    ensures EncodesBack(0xC0 + column, RowC(column))
  {
  }

  lemma RowDFacts(column: int)
    requires 0 <= column < 0x10
    ensures EntryFacts(0xD0 + column, RowD(column))
  {
  }

  lemma RowDEncodesBack(column: int)
    requires 0 <= column < 0x10
    ensures EncodesBack(0xD0 + column, RowD(column))
  {
  }

  lemma RowEFacts(column: int)
    requires 0 <= column < 0x10
    ensures EntryFacts(0xE0 + column, RowE(column))
  {
  }

  lemma RowEEncodesBack(column: int)
    requires 0 <= column < 0x10
    ensures EncodesBack(0xE0 + column, RowE(column))
  {
  }

  lemma RowFFacts(column: int)
    requires 0 <= column < 0x10
    ensures EntryFacts(0xF0 + column, RowF(column))
  {
  }

  lemma RowFEncodesBack(column: int)
    requires 0 <= column < 0x10
    ensures EncodesBack(0xF0 + column, RowF(column))
  {
  }

  /** Every slot of the table satisfies `EntryFacts` and `EncodesBack`. */
  lemma AllSlotFacts(opcode: Byte)
    ensures EntryFacts(opcode, Decode(opcode))
    ensures EncodesBack(opcode, Decode(opcode))
  {
    var column := opcode % 0x10;
    match opcode / 0x10
    case 0x0 => Row0Facts(column); Row0EncodesBack(column);
    case 0x1 => Row1Facts(column); Row1EncodesBack(column);
    case 0x2 => Row2Facts(column); Row2EncodesBack(column);
    case 0x3 => Row3Facts(column); Row3EncodesBack(column);
    case 0x4 => Row4Facts(column); Row4EncodesBack(column);
    case 0x5 => Row5Facts(column); Row5EncodesBack(column);
    case 0x6 => Row6Facts(column); Row6EncodesBack(column);
    case 0x7 => Row7Facts(column); Row7EncodesBack(column);
    case 0x8 => Row8Facts(column); Row8EncodesBack(column);
    case 0x9 => Row9Facts(column); Row9EncodesBack(column);
    case 0xA => RowAFacts(column); RowAEncodesBack(column);
    case 0xB => RowBFacts(column); RowBEncodesBack(column);
    case 0xC => RowCFacts(column); RowCEncodesBack(column);
    case 0xD => RowDFacts(column); RowDEncodesBack(column);
    case 0xE => RowEFacts(column); RowEEncodesBack(column);
    case _ => RowFFacts(column); RowFEncodesBack(column);
  }

  /** The reverse lookup finds every defined slot again. */
  lemma ReverseLookup(opcode: Byte)
    ensures Decode(opcode).Some? ==>
      Encode(Decode(opcode).value.kind, Decode(opcode).value.mode) == Some(opcode)
  {
    AllSlotFacts(opcode);
  }

  /** No two defined slots share a (type, mode) pair, so assembling by (type, mode) is
      unambiguous. */
  lemma UniqueKindAndMode(op1: Byte, op2: Byte)
    requires Decode(op1).Some? && Decode(op2).Some?
    requires Decode(op1).value.kind == Decode(op2).value.kind
    requires Decode(op1).value.mode == Decode(op2).value.mode
    ensures op1 == op2
  {
    ReverseLookup(op1);
    ReverseLookup(op2);
  }

  /** Every defined slot carries the documented base cost of its type and mode: read
      instructions carry the cost without the page-crossing penalty (4 for absolute
      indexed, 5 for (zp),Y), stores carry 5 and 6, shifts, rotates, INC and DEC 5/6/6/7,
      branches 2, and the implied instructions 2 except BRK, PHA/PHP, PLA/PLP, RTI/RTS. */
  lemma CycleRule(opcode: Byte)
    requires Decode(opcode).Some?
    ensures Decode(opcode).value.cycles ==
      ExpectedCycles(Decode(opcode).value.kind, Decode(opcode).value.mode)
  {
    AllSlotFacts(opcode);
  }

  /** The eight branch opcodes are exactly the slots in `Branch` mode, and each costs 2
      before the taken-branch penalty. */
  lemma BranchSlots(opcode: Byte)
    ensures HasMode(opcode, Branch) <==> opcode in {0x10, 0x30, 0x50, 0x70, 0x90, 0xB0, 0xD0, 0xF0}
    ensures HasMode(opcode, Branch) ==> Decode(opcode).value.cycles == 2
  {
    AllSlotFacts(opcode);
  }

  /** `Indirect` appears only in JMP ($hhhh) at 0x6C; `ZeroPageY` only in STX and LDX. */
  lemma RareModes(opcode: Byte)
    ensures HasMode(opcode, Indirect) <==> opcode == 0x6C
    ensures HasMode(opcode, ZeroPageY) <==> opcode == 0x96 || opcode == 0xB6
    ensures HasMode(opcode, Indirect) ==> Decode(opcode).value.kind == JMP
    ensures HasMode(opcode, ZeroPageY) ==>
      Decode(opcode).value.kind == (if opcode == 0x96 then STX else LDX)
  {
    AllSlotFacts(opcode);
  }

  /** The table places CMP abs,X at 0xDE and DEC abs,X at 0xDF and leaves 0xDD empty,
      where the 6502 has CMP abs,X at 0xDD and DEC abs,X at 0xDE. */
  lemma DeviatingSlots()
    ensures Decode(0xDD) == None
    ensures Decode(0xDE) == Some(Instruction(CMP, AbsoluteX, 4))
    ensures Decode(0xDF) == Some(Instruction(DEC, AbsoluteX, 7))
    ensures Encode(CMP, AbsoluteX) == Some(0xDE) && Encode(DEC, AbsoluteX) == Some(0xDF)
  {
  }

  /** The modes of the instructions the CPU model executes: BCC is the only branch among
      them, and none of them is JMP's `Indirect`. */
  lemma ModesOfModelled(opcode: Byte)
    requires Decode(opcode).Some? && Decode(opcode).value.kind in {ADC, AND, ASL, BCC, CLI}
    ensures Decode(opcode).value.mode != Indirect
    ensures Decode(opcode).value.mode == Branch <==> Decode(opcode).value.kind == BCC
  {
    AllSlotFacts(opcode);
  }
}
