/** The disassembler of disassembler.cpp: it walks memory one instruction at a time
    and formats each as one line of text — the address, up to three instruction bytes,
    the mnemonic and the operand in the syntax of its addressing mode. */
module Disassembly {
  import opened Common
  import opened Text
  import opened InstructionTable

  /** `formatHex8`: two zero-padded lower-case hexadecimal digits. */
  function Hex8(v: Byte): (s: string)
    ensures |s| == 2
  {
    [HexDigit(v / 0x10), HexDigit(v % 0x10)]
  }

  /** The two digits read back as the byte, and hold no letter beyond `f`. */
  lemma Hex8RoundTrip(v: Byte)
    ensures ParseHex(Hex8(v)) == Some(v)
    ensures forall i :: 0 <= i < 2 ==> '0' <= Hex8(v)[i] <= '9' || 'a' <= Hex8(v)[i] <= 'f'
  {
    var s := Hex8(v);
    assert s[..1][..0] == [];
    assert ParseHex(s[..1]) == Some(v / 0x10);
  }

  /** `formatHex16`: four zero-padded lower-case hexadecimal digits, the high byte's
      first. */
  function Hex16(v: Word): (s: string)
    ensures |s| == 4
  {
    Hex8(v / 0x100) + Hex8(v % 0x100)
  }

  /** The four digits read back as the word, and hold no letter beyond `f`. */
  lemma Hex16RoundTrip(v: Word)
    ensures ParseHex(Hex16(v)) == Some(v)
    ensures forall i :: 0 <= i < 4 ==> '0' <= Hex16(v)[i] <= '9' || 'a' <= Hex16(v)[i] <= 'f'
  {
    var s := Hex16(v);
    var hi := Hex8(v / 0x100);
    Hex8RoundTrip(v / 0x100);
    Hex8RoundTrip(v % 0x100);
    assert s[..2] == hi && s[..3][..2] == hi;
    assert ParseHex(s[..3]) == Some(16 * (v / 0x100) + (v % 0x100) / 0x10);
  }

  /** The byte after the opcode, `memory_[address_ + 1]`. */
  function OperandByte(mem: seq<Byte>, address: Word): Byte
    requires |mem| == MemorySize
  {
    mem[Wrap16(address + 1)]
  }

  /** The two bytes after the opcode, `memory_.read16(address_ + 1)`. */
  function OperandWord(mem: seq<Byte>, address: Word): Word
    requires |mem| == MemorySize
  {
    Read16(mem, Wrap16(address + 1))
  }

  /** `formatOperand8`: the operand byte as `$hh`. */
  function FormatOperand8(mem: seq<Byte>, address: Word): (s: string)
    requires |mem| == MemorySize
    ensures |s| == 3 && s[0] == '$'
  {
    "$" + Hex8(OperandByte(mem, address))
  }

  /** `formatOperand16`: the 16-bit operand as `$hhhh`. */
  function FormatOperand16(mem: seq<Byte>, address: Word): (s: string)
    requires |mem| == MemorySize
    ensures |s| == 5 && s[0] == '$'
  {
    "$" + Hex16(OperandWord(mem, address))
  }

  /** A branch displacement as a signed decimal number: `+` before a forward one,
      `-` before a backward one and no sign for 0. */
  function RelativeText(displacement: Byte): (s: string)
    ensures |s| >= 1
    ensures s[0] == '+' <==> Signed(displacement) > 0
    ensures s[0] == '-' <==> Signed(displacement) < 0
    ensures Signed(displacement) == 0 ==> s == "0"
  {
    var d := Signed(displacement);
    if d > 0 then "+" + SignedDecimal(d) else SignedDecimal(d)
  }

  /** The displacement text reads back as the signed displacement. */
  lemma RelativeRoundTrip(displacement: Byte)
    ensures ParseSigned(RelativeText(displacement)) == Some(Signed(displacement))
    ensures forall i :: 0 <= i < |RelativeText(displacement)| ==> !IsLower(RelativeText(displacement)[i])
  {
    SignedRoundTrip(Signed(displacement));
  }

  /** The mnemonic column: the three capital letters of the instruction type. */
  function Mnemonic(kind: InstructionType): (s: string)
    ensures |s| == 3 && forall i :: 0 <= i < 3 ==> 'A' <= s[i] <= 'Z'
  {
    match kind
    case ADC => "ADC" case AND => "AND" case ASL => "ASL" case BCC => "BCC"
    case BCS => "BCS" case BEQ => "BEQ" case BIT => "BIT" case BMI => "BMI"
    case BNE => "BNE" case BPL => "BPL" case BRK => "BRK" case BVC => "BVC"
    case BVS => "BVS" case CLC => "CLC" case CLD => "CLD" case CLI => "CLI"
    case CLV => "CLV" case CMP => "CMP" case CPX => "CPX" case CPY => "CPY"
    case DEC => "DEC" case DEX => "DEX" case DEY => "DEY" case EOR => "EOR"
    case INC => "INC" case INX => "INX" case INY => "INY" case JMP => "JMP"
    case JSR => "JSR" case LDA => "LDA" case LDX => "LDX" case LDY => "LDY"
    case LSR => "LSR" case NOP => "NOP" case ORA => "ORA" case PHA => "PHA"
    case PHP => "PHP" case PLA => "PLA" case PLP => "PLP" case ROL => "ROL"
    case ROR => "ROR" case RTI => "RTI" case RTS => "RTS" case SBC => "SBC"
    case SEC => "SEC" case SED => "SED" case SEI => "SEI" case STA => "STA"
    case STX => "STX" case STY => "STY" case TAX => "TAX" case TAY => "TAY"
    case TSX => "TSX" case TXA => "TXA" case TXS => "TXS" case TYA => "TYA"
  }

  /** The mnemonic of a slot; an undefined slot shows `???`. */
  function MnemonicOf(entry: Option<Instruction>): (s: string)
    ensures |s| == 3 && forall i :: 0 <= i < 3 ==> !IsLower(s[i])
  {
    match entry
    case None => "???"
    case Some(ins) => Mnemonic(ins.kind)
  }

  /** Reads a mnemonic column back as the instruction type it names, letter by letter;
      `???` and any other text name none. */
  function MnemonicType(s: string): (k: Option<InstructionType>)
    ensures k.Some? ==> |s| == 3 && forall i :: 0 <= i < 3 ==> 'A' <= s[i] <= 'Z'
  {
    if |s| != 3 then None
    else if s[0] == 'A' then
      if s[1] == 'D' && s[2] == 'C' then Some(ADC)
      else if s[1] == 'N' && s[2] == 'D' then Some(AND)
      else if s[1] == 'S' && s[2] == 'L' then Some(ASL)
      else None
    else if s[0] == 'B' then
      if s[1] == 'C' && s[2] == 'C' then Some(BCC)
      else if s[1] == 'C' && s[2] == 'S' then Some(BCS)
      else if s[1] == 'E' && s[2] == 'Q' then Some(BEQ)
      else if s[1] == 'I' && s[2] == 'T' then Some(BIT)
      else if s[1] == 'M' && s[2] == 'I' then Some(BMI)
      else if s[1] == 'N' && s[2] == 'E' then Some(BNE)
      else if s[1] == 'P' && s[2] == 'L' then Some(BPL)
      else if s[1] == 'R' && s[2] == 'K' then Some(BRK)
      else if s[1] == 'V' && s[2] == 'C' then Some(BVC)
      else if s[1] == 'V' && s[2] == 'S' then Some(BVS)
      else None
    else if s[0] == 'C' then
      if s[1] == 'L' && s[2] == 'C' then Some(CLC)
      else if s[1] == 'L' && s[2] == 'D' then Some(CLD)
      else if s[1] == 'L' && s[2] == 'I' then Some(CLI)
      else if s[1] == 'L' && s[2] == 'V' then Some(CLV)
      else if s[1] == 'M' && s[2] == 'P' then Some(CMP)
      else if s[1] == 'P' && s[2] == 'X' then Some(CPX)
      else if s[1] == 'P' && s[2] == 'Y' then Some(CPY)
      else None
    else if s[0] == 'D' then
      if s[1] == 'E' && s[2] == 'C' then Some(DEC)
      else if s[1] == 'E' && s[2] == 'X' then Some(DEX)
      else if s[1] == 'E' && s[2] == 'Y' then Some(DEY)
      else None
    else if s[0] == 'E' then
      if s[1] == 'O' && s[2] == 'R' then Some(EOR)
      else None
    else if s[0] == 'I' then
      if s[1] == 'N' && s[2] == 'C' then Some(INC)
      else if s[1] == 'N' && s[2] == 'X' then Some(INX)
      else if s[1] == 'N' && s[2] == 'Y' then Some(INY)
      else None
    else if s[0] == 'J' then
      if s[1] == 'M' && s[2] == 'P' then Some(JMP)
      else if s[1] == 'S' && s[2] == 'R' then Some(JSR)
      else None
    else if s[0] == 'L' then
      if s[1] == 'D' && s[2] == 'A' then Some(LDA)
      else if s[1] == 'D' && s[2] == 'X' then Some(LDX)
      else if s[1] == 'D' && s[2] == 'Y' then Some(LDY)
      else if s[1] == 'S' && s[2] == 'R' then Some(LSR)
      else None
    else if s[0] == 'N' then
      if s[1] == 'O' && s[2] == 'P' then Some(NOP)
      else None
    else if s[0] == 'O' then
      if s[1] == 'R' && s[2] == 'A' then Some(ORA)
      else None
    else if s[0] == 'P' then
      if s[1] == 'H' && s[2] == 'A' then Some(PHA)
      else if s[1] == 'H' && s[2] == 'P' then Some(PHP)
      else if s[1] == 'L' && s[2] == 'A' then Some(PLA)
      else if s[1] == 'L' && s[2] == 'P' then Some(PLP)
      else None
    else if s[0] == 'R' then
      if s[1] == 'O' && s[2] == 'L' then Some(ROL)
      else if s[1] == 'O' && s[2] == 'R' then Some(ROR)
      else if s[1] == 'T' && s[2] == 'I' then Some(RTI)
      else if s[1] == 'T' && s[2] == 'S' then Some(RTS)
      else None
    else if s[0] == 'S' then
      if s[1] == 'B' && s[2] == 'C' then Some(SBC)
      else if s[1] == 'E' && s[2] == 'C' then Some(SEC)
      else if s[1] == 'E' && s[2] == 'D' then Some(SED)
      else if s[1] == 'E' && s[2] == 'I' then Some(SEI)
      else if s[1] == 'T' && s[2] == 'A' then Some(STA)
      else if s[1] == 'T' && s[2] == 'X' then Some(STX)
      else if s[1] == 'T' && s[2] == 'Y' then Some(STY)
      else None
    else if s[0] == 'T' then
      if s[1] == 'A' && s[2] == 'X' then Some(TAX)
      else if s[1] == 'A' && s[2] == 'Y' then Some(TAY)
      else if s[1] == 'S' && s[2] == 'X' then Some(TSX)
      else if s[1] == 'X' && s[2] == 'A' then Some(TXA)
      else if s[1] == 'X' && s[2] == 'S' then Some(TXS)
      else if s[1] == 'Y' && s[2] == 'A' then Some(TYA)
      else None
    else None
  }

  /** The mnemonic names its instruction type: distinct types show distinct mnemonics. */
  lemma MnemonicReadsBack(kind: InstructionType)
    ensures MnemonicType(Mnemonic(kind)) == Some(kind)
  {
    if kind in {ADC, AND, ASL, BCC, BCS, BEQ, BIT, BMI, BNE, BPL, BRK, BVC, BVS,
                  CLC, CLD, CLI, CLV, CMP, CPX, CPY} {
      MnemonicReadsBackAC(kind);
    } else if kind in {DEC, DEX, DEY, EOR, INC, INX, INY, JMP, JSR, LDA, LDX, LDY, LSR,
                  NOP, ORA} {
      MnemonicReadsBackDO(kind);
    } else if kind in {PHA, PHP, PLA, PLP, ROL, ROR, RTI, RTS} {
      MnemonicReadsBackPR(kind);
    } else if kind in {SBC, SEC, SED, SEI, STA, STX, STY} {
      MnemonicReadsBackS(kind);
    } else {
      MnemonicReadsBackT(kind);
    }
  }

  // The letter ranges of the mnemonics, each read back on its own.

  lemma MnemonicReadsBackAC(kind: InstructionType)
    requires kind in {ADC, AND, ASL, BCC, BCS, BEQ, BIT, BMI, BNE, BPL, BRK, BVC, BVS,
             CLC, CLD, CLI, CLV, CMP, CPX, CPY}
    ensures MnemonicType(Mnemonic(kind)) == Some(kind)
  {
  }

  lemma MnemonicReadsBackDO(kind: InstructionType)
    requires kind in {DEC, DEX, DEY, EOR, INC, INX, INY, JMP, JSR, LDA, LDX, LDY, LSR,
             NOP, ORA}
    ensures MnemonicType(Mnemonic(kind)) == Some(kind)
  {
  }

  lemma MnemonicReadsBackPR(kind: InstructionType)
    requires kind in {PHA, PHP, PLA, PLP, ROL, ROR, RTI, RTS}
    ensures MnemonicType(Mnemonic(kind)) == Some(kind)
  {
  }

  lemma MnemonicReadsBackS(kind: InstructionType)
    requires kind in {SBC, SEC, SED, SEI, STA, STX, STY}
    ensures MnemonicType(Mnemonic(kind)) == Some(kind)
  {
  }

  lemma MnemonicReadsBackT(kind: InstructionType)
    requires kind in {TAX, TAY, TSX, TXA, TXS, TYA}
    ensures MnemonicType(Mnemonic(kind)) == Some(kind)
  {
  }

  /** The mnemonic column of a slot reads back as the slot's type, and as none for an
      undefined slot. */
  lemma MnemonicOfReadsBack(entry: Option<Instruction>)
    ensures MnemonicType(MnemonicOf(entry)) == if entry.None? then None else Some(entry.value.kind)
  {
    if entry.Some? {
      MnemonicReadsBack(entry.value.kind);
    } else {
      assert MnemonicOf(entry)[0] == '?';
    }
  }

  /** The length of the instruction in a slot; an undefined slot takes one byte. */
  function EntrySize(entry: Option<Instruction>): (n: nat)
    ensures 1 <= n <= 3
    ensures entry.None? ==> n == 1
  {
    match entry
    case None => 1
    case Some(ins) => Size(ins.mode)
  }

  /** The operand text that the `switch` on the addressing mode appends. */
  function OperandField(mode: AddressingMode, mem: seq<Byte>, address: Word): string
    requires |mem| == MemorySize
  {
    match mode
    case ImpliedOrAccumulator => ""
    case Immediate => "#" + FormatOperand8(mem, address)
    case Absolute => FormatOperand16(mem, address)
    case AbsoluteX => FormatOperand16(mem, address) + ",X"
    case AbsoluteY => FormatOperand16(mem, address) + ",Y"
    case ZeroPage => FormatOperand8(mem, address)
    case ZeroPageX => FormatOperand8(mem, address) + ",X"
    case ZeroPageY => FormatOperand8(mem, address) + ",Y"
    case IndexedIndirectX => "(" + FormatOperand8(mem, address) + ",X)"
    case IndirectIndexedY => "(" + FormatOperand8(mem, address) + "),Y"
    case Indirect => "(" + FormatOperand16(mem, address) + ")"
    case Branch => RelativeText(OperandByte(mem, address))
  }

  /** The operand text of a slot; an undefined slot has none. */
  function OperandText(mem: seq<Byte>, address: Word, entry: Option<Instruction>): string
    requires |mem| == MemorySize
  {
    match entry
    case None => ""
    case Some(ins) => OperandField(ins.mode, mem, address)
  }

  /** The `k`-th byte column: the byte and a space when the instruction is longer than
      `k`, three spaces otherwise. */
  function Slot(mem: seq<Byte>, address: Word, size: nat, k: nat): (s: string)
    requires |mem| == MemorySize
    ensures |s| == 3
  {
    if k < size then Hex8(mem[Wrap16(address + k)]) + " " else "   "
  }

  /** The first `count` byte columns. */
  function Columns(mem: seq<Byte>, address: Word, size: nat, count: nat): (s: string)
    requires |mem| == MemorySize
    ensures |s| == 3 * count
  {
    if count == 0 then "" else Columns(mem, address, size, count - 1) + Slot(mem, address, size, count - 1)
  }

  /** The line `disassemble` builds before upper-casing it. */
  function Line(mem: seq<Byte>, address: Word, entry: Option<Instruction>): string
    requires |mem| == MemorySize
  {
    Hex16(address) + " " + Columns(mem, address, EntrySize(entry), 3) + " "
    + MnemonicOf(entry) + " " + OperandText(mem, address, entry)
  }

  /** A decoded operand: the addressing mode and the value written after the mnemonic
      (a byte, a word or a signed displacement). */
  datatype Operand = Operand(mode: AddressingMode, value: int)

  /** The value the operand text of `mode` shows. */
  function OperandValue(mode: AddressingMode, mem: seq<Byte>, address: Word): int
    requires |mem| == MemorySize
  {
    match mode
    case ImpliedOrAccumulator => 0
    case Absolute | AbsoluteX | AbsoluteY | Indirect => OperandWord(mem, address)
    case Branch => Signed(OperandByte(mem, address))
    case _ => OperandByte(mem, address)
  }

  function WithHex(digits: string, mode: AddressingMode): Option<Operand> {
    match ParseHex(digits)
    case None => None
    case Some(v) => Some(Operand(mode, v))
  }

  /** Reads back an upper-cased operand field in the syntax of the assembler. */
  function ParseOperand(t: string): Option<Operand> {
    if |t| == 0 then Some(Operand(ImpliedOrAccumulator, 0))
    else if t[0] == '#' then
      if |t| == 4 && t[1] == '$' then WithHex(t[2..], Immediate) else None
    else if t[0] == '(' then
      if |t| == 7 && t[1] == '$' && t[4..] == ",X)" then WithHex(t[2..4], IndexedIndirectX)
      else if |t| == 7 && t[1] == '$' && t[4..] == "),Y" then WithHex(t[2..4], IndirectIndexedY)
      else if |t| == 7 && t[1] == '$' && t[6] == ')' then WithHex(t[2..6], Indirect)
      else None
    else if t[0] == '$' then
      if |t| == 3 then WithHex(t[1..], ZeroPage)
      else if |t| == 5 && t[3..] == ",X" then WithHex(t[1..3], ZeroPageX)
      else if |t| == 5 && t[3..] == ",Y" then WithHex(t[1..3], ZeroPageY)
      else if |t| == 5 then WithHex(t[1..], Absolute)
      else if |t| == 7 && t[5..] == ",X" then WithHex(t[1..5], AbsoluteX)
      else if |t| == 7 && t[5..] == ",Y" then WithHex(t[1..5], AbsoluteY)
      else None
    else
      match ParseSigned(t)
      case None => None
      case Some(d) => Some(Operand(Branch, d))
  }

  /** A hexadecimal digit as it appears after upper-casing. */
  predicate IsUpperHex(c: char) {
    '0' <= c <= '9' || 'A' <= c <= 'F'
  }

  /** The upper-cased form of formatted hexadecimal text keeps its value and holds only
      digits and the capitals A-F. */
  lemma UpperHexText(s: string, v: nat)
    requires ParseHex(s) == Some(v)
    requires forall i :: 0 <= i < |s| ==> '0' <= s[i] <= '9' || 'a' <= s[i] <= 'f'
    ensures ParseHex(Upper(s)) == Some(v)
    ensures forall i :: 0 <= i < |s| ==> IsUpperHex(Upper(s)[i])
  {
    ParseHexUpper(s);
  }

  /** The upper-cased operand byte `$hh`. */
  lemma UpperOperand8(mem: seq<Byte>, address: Word) returns (h: string)
    requires |mem| == MemorySize
    ensures Upper(FormatOperand8(mem, address)) == "$" + h
    ensures |h| == 2 && ParseHex(h) == Some(OperandByte(mem, address))
    ensures forall i :: 0 <= i < |h| ==> IsUpperHex(h[i])
  {
    var digits := Hex8(OperandByte(mem, address));
    Hex8RoundTrip(OperandByte(mem, address));
    h := Upper(digits);
    UpperHexText(digits, OperandByte(mem, address));
    UpperConcat("$", digits);
  }

  /** The upper-cased operand word `$hhhh`. */
  lemma UpperOperand16(mem: seq<Byte>, address: Word) returns (h: string)
    requires |mem| == MemorySize
    ensures Upper(FormatOperand16(mem, address)) == "$" + h
    ensures |h| == 4 && ParseHex(h) == Some(OperandWord(mem, address))
    ensures forall i :: 0 <= i < |h| ==> IsUpperHex(h[i])
  {
    var digits := Hex16(OperandWord(mem, address));
    Hex16RoundTrip(OperandWord(mem, address));
    h := Upper(digits);
    UpperHexText(digits, OperandWord(mem, address));
    UpperConcat("$", digits);
  }

  /** The assembler syntax reads every upper-cased operand field back as the mode it
      was written for and the value it shows. */
  lemma OperandRoundTrip(mode: AddressingMode, mem: seq<Byte>, address: Word)
    requires |mem| == MemorySize
    ensures ParseOperand(Upper(OperandField(mode, mem, address)))
         == Some(Operand(mode, OperandValue(mode, mem, address)))
  {
    match mode {
      case ImpliedOrAccumulator =>
      case Immediate => RoundTripImmediate(mem, address);
      case ZeroPage => RoundTripZeroPage(mem, address);
      case ZeroPageX => RoundTripZeroPageX(mem, address);
      case ZeroPageY => RoundTripZeroPageY(mem, address);
      case Absolute => RoundTripAbsolute(mem, address);
      case AbsoluteX => RoundTripAbsoluteX(mem, address);
      case AbsoluteY => RoundTripAbsoluteY(mem, address);
      case IndexedIndirectX => RoundTripIndexedIndirectX(mem, address);
      case IndirectIndexedY => RoundTripIndirectIndexedY(mem, address);
      case Indirect => RoundTripIndirect(mem, address);
      case Branch => RoundTripBranch(mem, address);
    }
  }

  lemma RoundTripImmediate(mem: seq<Byte>, address: Word)
    requires |mem| == MemorySize
    ensures ParseOperand(Upper(OperandField(Immediate, mem, address)))
         == Some(Operand(Immediate, OperandValue(Immediate, mem, address)))
  {
    var h := UpperOperand8(mem, address);
    UpperConcat("#", FormatOperand8(mem, address));
    assert Upper(OperandField(Immediate, mem, address)) == "#" + "$" + h;
    ParseImmediate(h);
  }

  lemma RoundTripZeroPage(mem: seq<Byte>, address: Word)
    requires |mem| == MemorySize
    ensures ParseOperand(Upper(OperandField(ZeroPage, mem, address)))
         == Some(Operand(ZeroPage, OperandValue(ZeroPage, mem, address)))
  {
    var h := UpperOperand8(mem, address);
    assert Upper(OperandField(ZeroPage, mem, address)) == "$" + h;
    ParseZeroPage(h);
  }

  lemma RoundTripZeroPageX(mem: seq<Byte>, address: Word)
    requires |mem| == MemorySize
    ensures ParseOperand(Upper(OperandField(ZeroPageX, mem, address)))
         == Some(Operand(ZeroPageX, OperandValue(ZeroPageX, mem, address)))
  {
    var h := UpperOperand8(mem, address);
    UpperConcat(FormatOperand8(mem, address), ",X");
    assert Upper(OperandField(ZeroPageX, mem, address)) == "$" + h + ",X";
    ParseZeroPageX(h);
  }

  lemma RoundTripZeroPageY(mem: seq<Byte>, address: Word)
    requires |mem| == MemorySize
    ensures ParseOperand(Upper(OperandField(ZeroPageY, mem, address)))
         == Some(Operand(ZeroPageY, OperandValue(ZeroPageY, mem, address)))
  {
    var h := UpperOperand8(mem, address);
    UpperConcat(FormatOperand8(mem, address), ",Y");
    assert Upper(OperandField(ZeroPageY, mem, address)) == "$" + h + ",Y";
    ParseZeroPageY(h);
  }

  lemma RoundTripAbsolute(mem: seq<Byte>, address: Word)
    requires |mem| == MemorySize
    ensures ParseOperand(Upper(OperandField(Absolute, mem, address)))
         == Some(Operand(Absolute, OperandValue(Absolute, mem, address)))
  {
    var h := UpperOperand16(mem, address);
    assert Upper(OperandField(Absolute, mem, address)) == "$" + h;
    ParseAbsolute(h);
  }

  lemma RoundTripAbsoluteX(mem: seq<Byte>, address: Word)
    requires |mem| == MemorySize
    ensures ParseOperand(Upper(OperandField(AbsoluteX, mem, address)))
         == Some(Operand(AbsoluteX, OperandValue(AbsoluteX, mem, address)))
  {
    var h := UpperOperand16(mem, address);
    UpperConcat(FormatOperand16(mem, address), ",X");
    assert Upper(OperandField(AbsoluteX, mem, address)) == "$" + h + ",X";
    ParseAbsoluteX(h);
  }

  lemma RoundTripAbsoluteY(mem: seq<Byte>, address: Word)
    requires |mem| == MemorySize
    ensures ParseOperand(Upper(OperandField(AbsoluteY, mem, address)))
         == Some(Operand(AbsoluteY, OperandValue(AbsoluteY, mem, address)))
  {
    var h := UpperOperand16(mem, address);
    UpperConcat(FormatOperand16(mem, address), ",Y");
    assert Upper(OperandField(AbsoluteY, mem, address)) == "$" + h + ",Y";
    ParseAbsoluteY(h);
  }

  lemma RoundTripIndexedIndirectX(mem: seq<Byte>, address: Word)
    requires |mem| == MemorySize
    ensures ParseOperand(Upper(OperandField(IndexedIndirectX, mem, address)))
         == Some(Operand(IndexedIndirectX, OperandValue(IndexedIndirectX, mem, address)))
  {
    var h := UpperOperand8(mem, address);
    UpperConcat("(" + FormatOperand8(mem, address), ",X)");
    UpperConcat("(", FormatOperand8(mem, address));
    assert Upper(OperandField(IndexedIndirectX, mem, address)) == "(" + "$" + h + ",X)";
    ParseIndexedIndirectX(h);
  }

  lemma RoundTripIndirectIndexedY(mem: seq<Byte>, address: Word)
    requires |mem| == MemorySize
    ensures ParseOperand(Upper(OperandField(IndirectIndexedY, mem, address)))
         == Some(Operand(IndirectIndexedY, OperandValue(IndirectIndexedY, mem, address)))
  {
    var h := UpperOperand8(mem, address);
    UpperConcat("(" + FormatOperand8(mem, address), "),Y");
    UpperConcat("(", FormatOperand8(mem, address));
    assert Upper(OperandField(IndirectIndexedY, mem, address)) == "(" + "$" + h + "),Y";
    ParseIndirectIndexedY(h);
  }

  lemma RoundTripIndirect(mem: seq<Byte>, address: Word)
    requires |mem| == MemorySize
    ensures ParseOperand(Upper(OperandField(Indirect, mem, address)))
         == Some(Operand(Indirect, OperandValue(Indirect, mem, address)))
  {
    var h := UpperOperand16(mem, address);
    UpperConcat("(" + FormatOperand16(mem, address), ")");
    UpperConcat("(", FormatOperand16(mem, address));
    assert Upper(OperandField(Indirect, mem, address)) == "(" + "$" + h + ")";
    ParseIndirect(h);
  }

  lemma RoundTripBranch(mem: seq<Byte>, address: Word)
    requires |mem| == MemorySize
    ensures ParseOperand(Upper(OperandField(Branch, mem, address)))
         == Some(Operand(Branch, OperandValue(Branch, mem, address)))
  {
    var r := RelativeText(OperandByte(mem, address));
    RelativeRoundTrip(OperandByte(mem, address));
    UpperUnchanged(r);
    assert r[0] != '#' && r[0] != '(' && r[0] != '$';
  }

  /** The operand shapes the assembler syntax recognises, one per addressing mode. */
  lemma ParseImmediate(h: string)
    requires |h| == 2 && forall i :: 0 <= i < |h| ==> IsUpperHex(h[i])
    ensures ParseOperand("#" + "$" + h) == WithHex(h, Immediate)
  {
    var t := "#" + "$" + h;
    assert t[2..] == h;
  }

  lemma ParseZeroPage(h: string)
    requires |h| == 2 && forall i :: 0 <= i < |h| ==> IsUpperHex(h[i])
    ensures ParseOperand("$" + h) == WithHex(h, ZeroPage)
  {
    var t := "$" + h;
    assert t[1..] == h;
  }

  lemma ParseZeroPageX(h: string)
    requires |h| == 2 && forall i :: 0 <= i < |h| ==> IsUpperHex(h[i])
    ensures ParseOperand("$" + h + ",X") == WithHex(h, ZeroPageX)
  {
    var t := "$" + h + ",X";
    assert t[1..3] == h && t[3..] == ",X";
  }

  lemma ParseZeroPageY(h: string)
    requires |h| == 2 && forall i :: 0 <= i < |h| ==> IsUpperHex(h[i])
    ensures ParseOperand("$" + h + ",Y") == WithHex(h, ZeroPageY)
  {
    var t := "$" + h + ",Y";
    assert t[1..3] == h && t[3..] == ",Y";
  }

  lemma ParseAbsolute(h: string)
    requires |h| == 4 && forall i :: 0 <= i < |h| ==> IsUpperHex(h[i])
    ensures ParseOperand("$" + h) == WithHex(h, Absolute)
  {
    var t := "$" + h;
    assert t[1..] == h && t[3] != ',';
  }

  lemma ParseAbsoluteX(h: string)
    requires |h| == 4 && forall i :: 0 <= i < |h| ==> IsUpperHex(h[i])
    ensures ParseOperand("$" + h + ",X") == WithHex(h, AbsoluteX)
  {
    var t := "$" + h + ",X";
    assert t[1..5] == h && t[5..] == ",X";
  }

  lemma ParseAbsoluteY(h: string)
    requires |h| == 4 && forall i :: 0 <= i < |h| ==> IsUpperHex(h[i])
    ensures ParseOperand("$" + h + ",Y") == WithHex(h, AbsoluteY)
  {
    var t := "$" + h + ",Y";
    assert t[1..5] == h && t[5..] == ",Y";
  }

  lemma ParseIndexedIndirectX(h: string)
    requires |h| == 2 && forall i :: 0 <= i < |h| ==> IsUpperHex(h[i])
    ensures ParseOperand("(" + "$" + h + ",X)") == WithHex(h, IndexedIndirectX)
  {
    var t := "(" + "$" + h + ",X)";
    assert t[2..4] == h && t[4..] == ",X)";
  }

  lemma ParseIndirectIndexedY(h: string)
    requires |h| == 2 && forall i :: 0 <= i < |h| ==> IsUpperHex(h[i])
    ensures ParseOperand("(" + "$" + h + "),Y") == WithHex(h, IndirectIndexedY)
  {
    var t := "(" + "$" + h + "),Y";
    assert t[2..4] == h && t[4..] == "),Y";
  }

  lemma ParseIndirect(h: string)
    requires |h| == 4 && forall i :: 0 <= i < |h| ==> IsUpperHex(h[i])
    ensures ParseOperand("(" + "$" + h + ")") == WithHex(h, Indirect)
  {
    var t := "(" + "$" + h + ")";
    assert t[2..6] == h && t[6..] == ")" && t[4] != ',' && t[4] != ')';
  }

  /** One byte column of a line: two digits that read back as the byte and a space
      when the column is in use, three spaces when it is not. */
  predicate ShowsByte(column: string, used: bool, b: Byte) {
    |column| == 3
    && (used ==> ParseHex(column[..2]) == Some(b) && column[2] == ' ')
    && (!used ==> column == "   ")
  }

  lemma UpperSlot(mem: seq<Byte>, address: Word, size: nat, k: nat)
    requires |mem| == MemorySize
    ensures ShowsByte(Upper(Slot(mem, address, size, k)), k < size, mem[Wrap16(address + k)])
  {
    var b := mem[Wrap16(address + k)];
    if k < size {
      Hex8RoundTrip(b);
      UpperHexText(Hex8(b), b);
      UpperConcat(Hex8(b), " ");
      assert Upper(Slot(mem, address, size, k))[..2] == Upper(Hex8(b));
    } else {
      UpperUnchanged("   ");
    }
  }

  /** The upper-cased byte columns show the instruction's bytes, one per column, in as
      many columns as the instruction is long, and leave the other columns blank. */
  lemma UpperColumns(mem: seq<Byte>, address: Word, size: nat)
    requires |mem| == MemorySize
    ensures var c := Upper(Columns(mem, address, size, 3));
      && |c| == 9
      && ShowsByte(c[0..3], 0 < size, mem[address])
      && ShowsByte(c[3..6], 1 < size, mem[Wrap16(address + 1)])
      && ShowsByte(c[6..9], 2 < size, mem[Wrap16(address + 2)])
  {
    UpperColumnsSplit(mem, address, size);
    UpperSlot(mem, address, size, 0);
    UpperSlot(mem, address, size, 1);
    UpperSlot(mem, address, size, 2);
    ThreeColumns(Upper(Slot(mem, address, size, 0)), Upper(Slot(mem, address, size, 1)),
                 Upper(Slot(mem, address, size, 2)), 0 < size, 1 < size, 2 < size,
                 mem[address], mem[Wrap16(address + 1)], mem[Wrap16(address + 2)]);
  }

  lemma UpperColumnsSplit(mem: seq<Byte>, address: Word, size: nat)
    requires |mem| == MemorySize
    ensures Upper(Columns(mem, address, size, 3))
         == Upper(Slot(mem, address, size, 0)) + Upper(Slot(mem, address, size, 1))
            + Upper(Slot(mem, address, size, 2))
  {
    var s0, s1, s2 := Slot(mem, address, size, 0), Slot(mem, address, size, 1), Slot(mem, address, size, 2);
    assert Columns(mem, address, size, 1) == s0;
    assert Columns(mem, address, size, 2) == s0 + s1;
    assert Columns(mem, address, size, 3) == s0 + s1 + s2;
    UpperConcat(s0 + s1, s2);
    UpperConcat(s0, s1);
  }

  /** Three columns side by side, each still showing its byte. */
  lemma ThreeColumns(u0: string, u1: string, u2: string, used0: bool, used1: bool, used2: bool,
                     b0: Byte, b1: Byte, b2: Byte)
    requires ShowsByte(u0, used0, b0) && ShowsByte(u1, used1, b1) && ShowsByte(u2, used2, b2)
    ensures var c := u0 + u1 + u2;
      && |c| == 9
      && ShowsByte(c[0..3], used0, b0) && ShowsByte(c[3..6], used1, b1) && ShowsByte(c[6..9], used2, b2)
  {
    var c := u0 + u1 + u2;
    assert c[0..3] == u0 && c[3..6] == u1 && c[6..9] == u2;
  }

  /** Where the fields sit in an upper-cased line: four address digits, nine column
      characters, the three-letter mnemonic and the operand, with a space between. */
  lemma LineLayout(mem: seq<Byte>, address: Word, entry: Option<Instruction>)
    requires |mem| == MemorySize
    ensures var u := Upper(Line(mem, address, entry));
      && |u| == 19 + |OperandText(mem, address, entry)|
      && u[..4] == Upper(Hex16(address)) && u[4] == ' '
      && u[5..14] == Upper(Columns(mem, address, EntrySize(entry), 3)) && u[14] == ' '
      && u[15..18] == MnemonicOf(entry) && u[18] == ' '
      && u[19..] == Upper(OperandText(mem, address, entry))
  {
    var line := Line(mem, address, entry);
    LineSlices(mem, address, entry);
    UpperSlice(line, 0, 4);
    UpperSlice(line, 5, 14);
    UpperSlice(line, 15, 18);
    UpperSlice(line, 19, |line|);
    UpperUnchanged(MnemonicOf(entry));
  }

  lemma LineSlices(mem: seq<Byte>, address: Word, entry: Option<Instruction>)
    requires |mem| == MemorySize
    ensures var line := Line(mem, address, entry);
      && |line| == 19 + |OperandText(mem, address, entry)|
      && line[..4] == Hex16(address) && line[4] == ' '
      && line[5..14] == Columns(mem, address, EntrySize(entry), 3) && line[14] == ' '
      && line[15..18] == MnemonicOf(entry) && line[18] == ' '
      && line[19..] == OperandText(mem, address, entry)
  {
    LineFieldsAt(Hex16(address), Columns(mem, address, EntrySize(entry), 3), MnemonicOf(entry),
                 OperandText(mem, address, entry));
  }

  lemma LineFieldsAt(a: string, c: string, n: string, o: string)
    requires |a| == 4 && |c| == 9 && |n| == 3
    ensures var line := a + " " + c + " " + n + " " + o;
      && |line| == 19 + |o|
      && line[..4] == a && line[4] == ' ' && line[5..14] == c && line[14] == ' '
      && line[15..18] == n && line[18] == ' ' && line[19..] == o
  {
  }

  /** Every field of a disassembled line reads back: the address, the bytes of the
      instruction in as many columns as it is long, the mnemonic and the operand in the
      syntax of its mode; and the line holds no lower-case letter. */
  lemma LineFields(mem: seq<Byte>, address: Word, entry: Option<Instruction>)
    requires |mem| == MemorySize
    ensures var u := Upper(Line(mem, address, entry)); var size := EntrySize(entry);
      && |u| >= 19
      && ParseHex(u[..4]) == Some(address) && u[4] == ' '
      && ShowsByte(u[5..8], 0 < size, mem[address])
      && ShowsByte(u[8..11], 1 < size, mem[Wrap16(address + 1)])
      && ShowsByte(u[11..14], 2 < size, mem[Wrap16(address + 2)])
      && u[14] == ' ' && u[15..18] == MnemonicOf(entry) && u[18] == ' '
      && MnemonicType(u[15..18]) == (if entry.None? then None else Some(entry.value.kind))
      && (entry.None? ==> |u| == 19)
      && (entry.Some? ==> ParseOperand(u[19..])
                          == Some(Operand(entry.value.mode, OperandValue(entry.value.mode, mem, address))))
      && forall i :: 0 <= i < |u| ==> !IsLower(u[i])
  {
    LineLayout(mem, address, entry);
    LineAddress(mem, address, entry);
    LineColumns(mem, address, entry);
    MnemonicOfReadsBack(entry);
    UpperIdempotent(Line(mem, address, entry));
    if entry.Some? {
      OperandRoundTrip(entry.value.mode, mem, address);
    }
  }

  lemma LineAddress(mem: seq<Byte>, address: Word, entry: Option<Instruction>)
    requires |mem| == MemorySize
    ensures |Upper(Line(mem, address, entry))| >= 4
    ensures ParseHex(Upper(Line(mem, address, entry))[..4]) == Some(address)
  {
    LineLayout(mem, address, entry);
    Hex16RoundTrip(address);
    UpperHexText(Hex16(address), address);
  }

  lemma LineColumns(mem: seq<Byte>, address: Word, entry: Option<Instruction>)
    requires |mem| == MemorySize
    ensures var u := Upper(Line(mem, address, entry)); var size := EntrySize(entry);
      && |u| >= 14
      && ShowsByte(u[5..8], 0 < size, mem[address])
      && ShowsByte(u[8..11], 1 < size, mem[Wrap16(address + 1)])
      && ShowsByte(u[11..14], 2 < size, mem[Wrap16(address + 2)])
  {
    var size := EntrySize(entry);
    LineLayout(mem, address, entry);
    UpperColumns(mem, address, size);
    ColumnsInLine(Upper(Line(mem, address, entry)), 0 < size, 1 < size, 2 < size,
                  mem[address], mem[Wrap16(address + 1)], mem[Wrap16(address + 2)]);
  }

  /** Columns that show their bytes still show them at their place in the line. */
  lemma ColumnsInLine(u: string, used0: bool, used1: bool, used2: bool, b0: Byte, b1: Byte, b2: Byte)
    requires |u| >= 14
    requires ShowsByte(u[5..14][0..3], used0, b0) && ShowsByte(u[5..14][3..6], used1, b1)
    requires ShowsByte(u[5..14][6..9], used2, b2)
    ensures ShowsByte(u[5..8], used0, b0) && ShowsByte(u[8..11], used1, b1)
    ensures ShowsByte(u[11..14], used2, b2)
  {
    SliceOfSlice(u, 5, 14, 0, 3);
    SliceOfSlice(u, 5, 14, 3, 6);
    SliceOfSlice(u, 5, 14, 6, 9);
  }

  lemma SliceOfSlice(u: string, a: nat, b: nat, i: nat, j: nat)
    requires a <= b <= |u| && i <= j <= b - a
    ensures u[a..b][i..j] == u[a + i..a + j]
  {
    assert forall k :: 0 <= k < j - i ==> u[a..b][i..j][k] == u[a + i + k];
  }

  /** The disassembler's cursor over memory: the address of the current instruction,
      its opcode byte and the table slot of that opcode. */
  class Disassembler {
    const memory: array<Byte>
    var address: Word
    var opcode: Byte
    var instruction: Option<Instruction>

    predicate Valid()
      reads this
    {
      memory.Length == MemorySize && instruction == Decode(opcode)
    }

    constructor (memory: array<Byte>, pc: Word)
      requires memory.Length == MemorySize
      ensures this.memory == memory && Valid()
      ensures address == pc && opcode == memory[pc]
    {
      this.memory := memory;
      new;
      SetOrigin(pc);
    }

    /** `setOrigin`: the cursor moves to `addr` and decodes the opcode there; nothing
        else changes. */
    method SetOrigin(addr: Word)
      requires memory.Length == MemorySize
      modifies this
      ensures Valid() && address == addr && opcode == memory[addr]
    {
      address := addr;
      opcode := memory[addr];
      instruction := Decode(opcode);
    }

    /** `nextInstruction`: the cursor skips the current instruction, wrapping at the
        top of memory. */
    method NextInstruction()
      requires Valid()
      modifies this
      ensures Valid()
      ensures address == Wrap16(old(address) + EntrySize(old(instruction)))
      ensures opcode == memory[address]
    {
      SetOrigin(Wrap16(address + EntrySize(instruction)));
    }

    /** `dumpBytes`: `n` bytes from the cursor on, each as two digits and a space. */
    method DumpBytes(n: Word) returns (s: string)
      requires Valid()
      ensures s == BytesText(memory[..], address, n)
    {
      s := "";
      var i := 0;
      while i < n
        invariant 0 <= i <= n
        invariant s == BytesText(memory[..], address, i)
      {
        BytesTextStep(memory[..], address, i);
        s := s + Hex8(memory[Wrap16(address + i)]) + " ";
        i := i + 1;
      }
    }

    /** `dumpWords` with its index widened beyond 16 bits: the little-endian words at
        every second address from the cursor, one for each started pair of the `n`
        bytes, each as four digits and a space. */
    method DumpWords(n: Word) returns (s: string)
      requires Valid()
      ensures s == WordsText(memory[..], address, (n + 1) / 2)
    {
      ghost var mem := memory[..];
      ghost var count := 0;
      s := "";
      var i := 0;
      while i < n
        invariant i == 2 * count && i <= n + 1
        invariant s == WordsText(mem, address, count)
      {
        WordsTextStep(mem, address, count);
        s := s + Hex16(Read16(memory[..], Wrap16(address + i))) + " ";
        i := i + 2;
        count := count + 1;
      }
      assert count == (n + 1) / 2;
    }

    /** `disassemble`: the current instruction as one upper-case line. */
    method Disassemble() returns (s: string)
      requires Valid()
      ensures s == Upper(Line(memory[..], address, instruction))
    {
      var mem := memory[..];
      var size := EntrySize(instruction);
      var columns := ByteColumns(mem, address, size);
      var line := Hex16(address) + " " + columns + " ";
      line := line + MnemonicOf(instruction) + " " + OperandText(mem, address, instruction);
      assert line == Line(mem, address, instruction);
      s := Upper(line);
    }
  }

  /** The three byte columns of a line: the instruction's bytes, blanks after them. */
  method ByteColumns(mem: seq<Byte>, address: Word, size: nat) returns (columns: string)
    requires |mem| == MemorySize
    ensures columns == Columns(mem, address, size, 3)
  {
    columns := "";
    var i := 0;
    while i < 3
      invariant 0 <= i <= 3
      invariant columns == Columns(mem, address, size, i)
    {
      var column := if i < size then Hex8(mem[Wrap16(address + i)]) + " " else "   ";
      assert column == Slot(mem, address, size, i);
      columns := columns + column;
      i := i + 1;
    }
  }

  /** The entries of `dumpBytes(n)`: byte `k` places after the start, as two digits
      and a space. */
  function ByteEntries(mem: seq<Byte>, address: Word, n: nat): (e: seq<string>)
    requires |mem| == MemorySize
    ensures |e| == n
    ensures forall k :: 0 <= k < n ==> |e[k]| == 3
  {
    var e := seq(n, k requires 0 <= k < n => ByteEntry(mem[Wrap16(address + k)]));
    assert forall k :: 0 <= k < n ==> e[k] == ByteEntry(mem[Wrap16(address + k)]);
    e
  }

  /** One entry of a byte dump: the byte as two digits and a space. */
  function ByteEntry(b: Byte): (s: string)
    ensures |s| == 3
  {
    Hex8(b) + " "
  }

  lemma ByteEntryAt(mem: seq<Byte>, address: Word, n: nat, k: nat)
    requires |mem| == MemorySize && k < n
    ensures ByteEntries(mem, address, n)[k] == ByteEntry(mem[Wrap16(address + k)])
  {
  }

  /** The text of `dumpBytes(n)`. */
  function BytesText(mem: seq<Byte>, address: Word, n: nat): string
    requires |mem| == MemorySize
  {
    Join(ByteEntries(mem, address, n))
  }

  /** One more byte adds its own entry at the end of the dump. */
  lemma BytesTextStep(mem: seq<Byte>, address: Word, n: nat)
    requires |mem| == MemorySize
    ensures BytesText(mem, address, n + 1)
         == BytesText(mem, address, n) + ByteEntry(mem[Wrap16(address + n)])
  {
    var e, f := ByteEntries(mem, address, n + 1), ByteEntries(mem, address, n);
    forall k | 0 <= k < n
      ensures e[k] == f[k]
    {
      ByteEntryAt(mem, address, n + 1, k);
      ByteEntryAt(mem, address, n, k);
    }
    ByteEntryAt(mem, address, n + 1, n);
    assert e == f + [e[n]];
    JoinAppend(f, e[n]);
  }

  /** A byte dump has three characters per byte, and entry `k` is the byte `k` places
      after the start, as two digits and a space. */
  lemma BytesTextEntry(mem: seq<Byte>, address: Word, n: nat, k: nat)
    requires |mem| == MemorySize && k < n
    ensures |BytesText(mem, address, n)| == 3 * n
    ensures BytesText(mem, address, n)[3 * k .. 3 * k + 3] == ByteEntry(mem[Wrap16(address + k)])
  {
    ByteEntryAt(mem, address, n, k);
    JoinEntry(ByteEntries(mem, address, n), 3, k);
  }

  /** Every entry of a byte dump reads back as the byte it shows. */
  lemma BytesTextReadsBack(mem: seq<Byte>, address: Word, n: nat, k: nat)
    requires |mem| == MemorySize && k < n
    ensures var s := BytesText(mem, address, n);
      |s| == 3 * n &&
      ParseHex(s[3 * k .. 3 * k + 2]) == Some(mem[Wrap16(address + k)]) && s[3 * k + 2] == ' '
  {
    var s := BytesText(mem, address, n);
    BytesTextEntry(mem, address, n, k);
    Hex8RoundTrip(mem[Wrap16(address + k)]);
    SliceOfSlice(s, 3 * k, 3 * k + 3, 0, 2);
  }

  /** The entries of a word dump: the little-endian word `2 k` places after the start,
      as four digits and a space. */
  function WordEntries(mem: seq<Byte>, address: Word, count: nat): (e: seq<string>)
    requires |mem| == MemorySize
    ensures |e| == count
    ensures forall k :: 0 <= k < count ==> |e[k]| == 5
  {
    seq(count, k requires 0 <= k < count => WordEntry(Read16(mem, Wrap16(address + 2 * k))))
  }

  /** One entry of a word dump: the word as four digits and a space. */
  function WordEntry(w: Word): (s: string)
    ensures |s| == 5
  {
    Hex16(w) + " "
  }

  /** The text of `count` words of a word dump. */
  function WordsText(mem: seq<Byte>, address: Word, count: nat): string
    requires |mem| == MemorySize
  {
    Join(WordEntries(mem, address, count))
  }

  /** One more word adds its own entry at the end of the dump. */
  lemma WordsTextStep(mem: seq<Byte>, address: Word, count: nat)
    requires |mem| == MemorySize
    ensures WordsText(mem, address, count + 1)
         == WordsText(mem, address, count) + WordEntry(Read16(mem, Wrap16(address + 2 * count)))
  {
    var e, f := WordEntries(mem, address, count + 1), WordEntries(mem, address, count);
    forall k | 0 <= k < count
      ensures e[k] == f[k]
    {
      WordEntryAt(mem, address, count + 1, k);
      WordEntryAt(mem, address, count, k);
    }
    WordEntryAt(mem, address, count + 1, count);
    assert e == f + [e[count]];
    JoinAppend(f, e[count]);
  }

  /** A word dump has five characters per word, and entry `k` is the little-endian
      word `2 k` places after the start, as four digits and a space. */
  lemma WordsTextEntry(mem: seq<Byte>, address: Word, count: nat, k: nat)
    requires |mem| == MemorySize && k < count
    ensures |WordsText(mem, address, count)| == 5 * count
    ensures WordsText(mem, address, count)[5 * k .. 5 * k + 5]
         == WordEntry(Read16(mem, Wrap16(address + 2 * k)))
  {
    WordEntryAt(mem, address, count, k);
    JoinEntry(WordEntries(mem, address, count), 5, k);
  }

  lemma WordEntryAt(mem: seq<Byte>, address: Word, count: nat, k: nat)
    requires |mem| == MemorySize && k < count
    ensures WordEntries(mem, address, count)[k] == WordEntry(Read16(mem, Wrap16(address + 2 * k)))
  {
  }

  /** Every entry of a word dump reads back as the word it shows. */
  lemma WordsTextReadsBack(mem: seq<Byte>, address: Word, count: nat, k: nat)
    requires |mem| == MemorySize && k < count
    ensures var s := WordsText(mem, address, count);
      |s| == 5 * count &&
      ParseHex(s[5 * k .. 5 * k + 4]) == Some(Read16(mem, Wrap16(address + 2 * k))) && s[5 * k + 4] == ' '
  {
    var s := WordsText(mem, address, count);
    WordsTextEntry(mem, address, count, k);
    Hex16RoundTrip(Read16(mem, Wrap16(address + 2 * k)));
    SliceOfSlice(s, 5 * k, 5 * k + 5, 0, 4);
  }

  /** The index of `dumpWords` as written is a `uint16_t`: its value after `k` steps. */
  function WordIndexAsWritten(k: nat): (i: Word) {
    if k == 0 then 0 else Wrap16(WordIndexAsWritten(k - 1) + 2)
  }

  /** With `n` = 0xFFFF the written loop never ends: the 16-bit index stays even, so it
      is below `n` after every step and wraps from 0xFFFE back to 0. */
  lemma {:induction false} WordIndexAsWrittenStaysBelow(k: nat)
    ensures WordIndexAsWritten(k) % 2 == 0 && WordIndexAsWritten(k) < 0xFFFF
    ensures WordIndexAsWritten(k) == (2 * k) % MemorySize
  {
    if k > 0 {
      WordIndexAsWrittenStaysBelow(k - 1);
    }
  }
}
