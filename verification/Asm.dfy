/** m80asm: lines of operand tokens, the code generator, the label table and the two passes. */
module Asm {
  import opened Machine

  // ---- tokens ------------------------------------------------------------------------------------

  datatype Word =
    | A | B | C | D | E | H | L | BC | DE | HL | SP | AF | AF' | IX | IY | NZ | Z | NC | PO | PE | P | M

  /** A bare name in the source: an operand keyword or any other identifier. */
  datatype Name = Kw(w: Word) | Id(s: string)

  /** An operand as the tokenizer leaves it; numbers carry the value `strtol` gives. */
  datatype Operand =
    | None
    | Bare(n: Name)
    | Paren(n: Name)
    | Num(v: int)
    | ParenNum(v: int)
    | Indexed(reg: Word, disp: int)

  datatype Op =
    | NOP | HALT | DI | EI | CPL | SCF | CCF | DAA | RLCA | RRCA | RLA | RRA | EXX
    | LD | INC | DEC | ADD | ADC | SUB | SBC | AND | OR | XOR | CP | PUSH | POP | RST
    | JP | JR | CALL | RET | IN | OUT | DJNZ | EX | Unknown

  datatype Line = Blank | Label(n: Name) | Ins(op: Op, a1: Operand, a2: Operand)

  // ---- operand helpers --------------------------------------------------------------------------------

  /** A `long` stored in a 16-bit `int`. */
  function ToInt(v: int): int { Int16(v % 0x1_0000) }

  function Strtol(a: Operand): int { if a.Num? then ToInt(a.v) else 0 }

  function Reg8(a: Operand): int {
    if a == Bare(Kw(B)) then 0 else if a == Bare(Kw(C)) then 1 else if a == Bare(Kw(D)) then 2
    else if a == Bare(Kw(E)) then 3 else if a == Bare(Kw(H)) then 4 else if a == Bare(Kw(L)) then 5
    else if a == Paren(Kw(HL)) then 6 else if a == Bare(Kw(A)) then 7 else -1
  }

  function Reg16(a: Operand): int {
    if a == Bare(Kw(BC)) then 0 else if a == Bare(Kw(DE)) then 1 else if a == Bare(Kw(HL)) then 2
    else if a == Bare(Kw(SP)) || a == Bare(Kw(AF)) then 3 else -1
  }

  function IndexPrefix(a: Operand): int {
    if a == Bare(Kw(IX)) then 0xDD else if a == Bare(Kw(IY)) then 0xFD else -1
  }

  function JpCond(a: Operand): int {
    if a == Bare(Kw(NZ)) then 0 else if a == Bare(Kw(Z)) then 1 else if a == Bare(Kw(NC)) then 2
    else if a == Bare(Kw(C)) then 3 else if a == Bare(Kw(PO)) then 4 else if a == Bare(Kw(PE)) then 5
    else if a == Bare(Kw(P)) then 6 else if a == Bare(Kw(M)) then 7 else -1
  }

  function JrCond(a: Operand): int { if JpCond(a) < 4 then JpCond(a) else -1 }

  /** Anything in parentheses counts as an address; a name inside reads as 0. */
  function MemAddr(a: Operand): int {
    match a
    case ParenNum(v) => ToInt(v)
    case Paren(_) => 0
    case Indexed(_, _) => 0
    case _ => -1
  }

  /** An index register with a displacement that fits a signed byte. */
  predicate IsIndexed(a: Operand) {
    a.Indexed? && a.reg in {IX, IY} && -128 <= a.disp <= 127
  }

  function Prefix(a: Operand): byte
    requires IsIndexed(a)
  {
    if a.reg == IX then 0xDD else 0xFD
  }

  // ---- code generation -------------------------------------------------------------------------------

  datatype Out = Err | Code(bytes: seq<byte>)

  function Byte(v: int): byte { v % 0x100 }

  function Word16(v: int): seq<byte> { [Lo(v % 0x1_0000), Hi(v % 0x1_0000)] }

  /** `emit_rel`: a placeholder in the first pass; in the second a raw byte or a distance. */
  function Rel(second: bool, a: Operand, at: u16): Out {
    if !second then Code([0])
    else
      var num := Strtol(a);
      if -128 <= num <= 0xFF then Code([Byte(num)])
      else
        var offset := ToInt(num - (at + 2));
        if -128 <= offset <= 127 then Code([Byte(offset)]) else Err
  }

  function Then(first: seq<byte>, rest: Out): Out {
    if rest.Err? then Err else Code(first + rest.bytes)
  }

  function SimpleCode(op: Op): int {
    match op
    case NOP => 0x00 case HALT => 0x76 case DI => 0xF3 case EI => 0xFB case CPL => 0x2F
    case SCF => 0x37 case CCF => 0x3F case DAA => 0x27 case RLCA => 0x07 case RRCA => 0x0F
    case RLA => 0x17 case RRA => 0x1F case EXX => 0xD9
    case _ => -1
  }

  function GenLd16(a1: Operand, a2: Operand): Out {
    if a1 == Bare(Kw(SP)) && IndexPrefix(a2) != -1 then Code([IndexPrefix(a2), 0xF9])
    else if Reg16(a1) != -1 then Code([0x01 + 16 * Reg16(a1)] + Word16(Strtol(a2)))
    else if IndexPrefix(a1) != -1 then Code([IndexPrefix(a1), 0x21] + Word16(Strtol(a2)))
    else Err
  }

  function GenLd(a1: Operand, a2: Operand): Out {
    var r1, r2 := Reg8(a1), Reg8(a2);
    if IsIndexed(a2) && r1 != -1 && r1 != 6 then Code([Prefix(a2), 0x46 + 8 * r1, Byte(a2.disp)])
    else if IsIndexed(a1) then
      if r2 != -1 && r2 != 6 then Code([Prefix(a1), 0x70 + r2, Byte(a1.disp)])
      else Code([Prefix(a1), 0x36, Byte(a1.disp), Byte(Strtol(a2))])
    else GenLdMem(a1, a2)
  }

  /** Loads through a pair or an absolute address. */
  function GenLdMem(a1: Operand, a2: Operand): Out {
    if a1 == Bare(Kw(A)) && a2 == Paren(Kw(BC)) then Code([0x0A])
    else if a1 == Bare(Kw(A)) && a2 == Paren(Kw(DE)) then Code([0x1A])
    else if a1 == Paren(Kw(BC)) && a2 == Bare(Kw(A)) then Code([0x02])
    else if a1 == Paren(Kw(DE)) && a2 == Bare(Kw(A)) then Code([0x12])
    else if a1 == Bare(Kw(A)) && MemAddr(a2) >= 0 then Code([0x3A] + Word16(MemAddr(a2)))
    else if a1 == Bare(Kw(HL)) && MemAddr(a2) >= 0 then Code([0x2A] + Word16(MemAddr(a2)))
    else if a2 == Bare(Kw(A)) && MemAddr(a1) >= 0 then Code([0x32] + Word16(MemAddr(a1)))
    else if a2 == Bare(Kw(HL)) && MemAddr(a1) >= 0 then Code([0x22] + Word16(MemAddr(a1)))
    else if IndexPrefix(a2) != -1 && MemAddr(a1) >= 0 then Code([IndexPrefix(a2), 0x22] + Word16(MemAddr(a1)))
    else GenLdReg(a1, a2)
  }

  /** Register loads and immediates. */
  function GenLdReg(a1: Operand, a2: Operand): Out {
    var r1, r2 := Reg8(a1), Reg8(a2);
    if a1 == Bare(Kw(SP)) && a2 == Bare(Kw(HL)) then Code([0xF9])
    else if r1 != -1 && r2 != -1 then if r1 == 6 && r2 == 6 then Err else Code([0x40 + 8 * r1 + r2])
    else if r1 != -1 then Code([0x06 + 8 * r1, Byte(Strtol(a2))])
    else GenLd16(a1, a2)
  }

  /** INC and DEC: an 8-bit base, a 16-bit base, an indexed opcode. */
  function GenCount(a1: Operand, base8: int, base16: int, idx: byte): Out
    requires base8 in {4, 5} && base16 in {3, 0x0B}
  {
    if Reg8(a1) != -1 then Code([base8 + 8 * Reg8(a1)])
    else if Reg16(a1) != -1 then Code([base16 + 16 * Reg16(a1)])
    else if IndexPrefix(a1) != -1 then Code([IndexPrefix(a1), idx])
    else Err
  }

  /** An ALU operation on A, register or immediate. */
  function GenAlu(op: int, a: Operand): Out
    requires 0 <= op < 8
  {
    if Reg8(a) != -1 then Code([0x80 + 8 * op + Reg8(a)]) else Code([0xC6 + 8 * op, Byte(Strtol(a))])
  }

  function GenAdd(a1: Operand, a2: Operand): Out {
    if a1 == Bare(Kw(A)) then GenAlu(0, a2)
    else if a1 == Bare(Kw(HL)) && Reg16(a2) != -1 then Code([0x09 + 16 * Reg16(a2)])
    else if IndexPrefix(a1) != -1 && Reg16(a2) != -1 then Code([IndexPrefix(a1), 0x09 + 16 * Reg16(a2)])
    else Err
  }

  function GenStack(a1: Operand, base: int, idx: byte): Out
    requires base in {0xC5, 0xC1}
  {
    if Reg16(a1) != -1 then Code([base + 16 * Reg16(a1)])
    else if IndexPrefix(a1) != -1 then Code([IndexPrefix(a1), idx])
    else Err
  }

  function GenJp(a1: Operand, a2: Operand): Out {
    if a1 == Paren(Kw(HL)) then Code([0xE9])
    else if a2 != None then if JpCond(a1) == -1 then Err else Code([0xC2 + 8 * JpCond(a1)] + Word16(Strtol(a2)))
    else if a1 != None then Code([0xC3] + Word16(Strtol(a1)))
    else Err
  }

  function GenCall(a1: Operand, a2: Operand): Out {
    if a2 != None then if JpCond(a1) == -1 then Err else Code([0xC4 + 8 * JpCond(a1)] + Word16(Strtol(a2)))
    else if a1 != None then Code([0xCD] + Word16(Strtol(a1)))
    else Err
  }

  function GenJr(second: bool, at: u16, a1: Operand, a2: Operand): Out {
    if a2 != None then if JrCond(a1) == -1 then Err else Then([0x20 + 8 * JrCond(a1)], Rel(second, a2, at))
    else if a1 != None then Then([0x18], Rel(second, a1, at))
    else Err
  }

  function GenEx(a1: Operand, a2: Operand): Out {
    if a1 == Bare(Kw(AF)) && a2 == Bare(Kw(AF')) then Code([0x08])
    else if a1 == Bare(Kw(DE)) && a2 == Bare(Kw(HL)) then Code([0xEB])
    else if a1 == Paren(Kw(SP)) && a2 == Bare(Kw(HL)) then Code([0xE3])
    else Err
  }

  /** The codegen part of `line_codegen`, on operands whose labels are already resolved. */
  function Gen(second: bool, at: u16, op: Op, a1: Operand, a2: Operand): Out {
    if SimpleCode(op) != -1 then Code([SimpleCode(op)])
    else match op
      case LD => GenLd(a1, a2)
      case INC => GenCount(a1, 4, 3, 0x23)
      case DEC => GenCount(a1, 5, 0x0B, 0x2B)
      case ADD => GenAdd(a1, a2)
      case ADC => if a1 != Bare(Kw(A)) then Err else GenAlu(1, a2)
      case SUB => GenAlu(2, a1)
      case SBC => if a1 != Bare(Kw(A)) then Err else GenAlu(3, a2)
      case AND => GenAlu(4, a1)
      case XOR => GenAlu(5, a1)
      case OR => GenAlu(6, a1)
      case CP => GenAlu(7, a1)
      case PUSH => GenStack(a1, 0xC5, 0xE5)
      case POP => GenStack(a1, 0xC1, 0xE1)
      case RST => if 0 <= Strtol(a1) <= 0x38 then Code([0xC7 + Strtol(a1)]) else Err
      case JP => GenJp(a1, a2)
      case JR => GenJr(second, at, a1, a2)
      case CALL => GenCall(a1, a2)
      case RET =>
        if a1 == None then Code([0xC9]) else if JpCond(a1) == -1 then Err else Code([0xC0 + 8 * JpCond(a1)])
      case IN => if a1 == Bare(Kw(A)) && a2 != None then Code([0xDB, Byte(MemAddr(a2))]) else Err
      case OUT => if a2 == Bare(Kw(A)) && a1 != None then Code([0xD3, Byte(MemAddr(a1))]) else Err
      case DJNZ => Then([0x10], Rel(second, a1, at))
      case EX => GenEx(a1, a2)
      case _ => Err
  }

  // ---- labels ----------------------------------------------------------------------------------------------

  datatype Entry = Entry(name: Name, address: u16)

  const MAX_LABELS := 32

  /** The first entry of that name; its address as a 16-bit `int`, -1 when there is none. */
  function LabelAddr(labels: seq<Entry>, n: Name): int
    decreases |labels|
  {
    if labels == [] then -1
    else if labels[0].name == n then Int16(labels[0].address)
    else LabelAddr(labels[1..], n)
  }

  /** `is_label` and `is_label_ptr`: a label's name, bare or in parentheses, becomes its address. */
  function Resolve(labels: seq<Entry>, a: Operand): Operand {
    match a
    case Bare(n) => if LabelAddr(labels, n) != -1 then Num(LabelAddr(labels, n)) else a
    case Paren(n) => if LabelAddr(labels, n) != -1 then ParenNum(LabelAddr(labels, n)) else a
    case _ => a
  }

  // ---- the passes -------------------------------------------------------------------------------------------

  function Advance(pc: u16, n: nat): u16 { (pc + n) % 0x1_0000 }

  datatype Pass = Failed | Passed(pc: u16, labels: seq<Entry>, bytes: seq<byte>)

  /** One line of the first pass: sizes and labels. */
  function Line0(l: Line, pc: u16, labels: seq<Entry>): Pass {
    match l
    case Blank => Passed(pc, labels, [])
    case Label(n) => if |labels| >= MAX_LABELS then Failed else Passed(pc, labels + [Entry(n, pc)], [])
    case Ins(op, a1, a2) =>
      match Gen(false, pc, op, a1, a2)
      case Err => Failed
      case Code(b) => Passed(Advance(pc, |b|), labels, b)
  }

  /** One line of the second pass: code. */
  function Line1(l: Line, pc: u16, labels: seq<Entry>): Pass {
    match l
    case Blank => Passed(pc, labels, [])
    case Label(n) => Passed(pc, labels, [])
    case Ins(op, a1, a2) =>
      match Gen(true, pc, op, Resolve(labels, a1), Resolve(labels, a2))
      case Err => Failed
      case Code(b) => Passed(Advance(pc, |b|), labels, b)
  }

  function Pass0(lines: seq<Line>, pc: u16, labels: seq<Entry>): Pass
    decreases |lines|
  {
    if lines == [] then Passed(pc, labels, [])
    else match Line0(lines[0], pc, labels)
      case Failed => Failed
      case Passed(pc', labels', _) => Pass0(lines[1..], pc', labels')
  }

  function Pass1(lines: seq<Line>, pc: u16, labels: seq<Entry>): Pass
    decreases |lines|
  {
    if lines == [] then Passed(pc, labels, [])
    else match Line1(lines[0], pc, labels)
      case Failed => Failed
      case Passed(pc', _, b) =>
        match Pass1(lines[1..], pc', labels)
        case Failed => Failed
        case Passed(end, _, rest) => Passed(end, labels, b + rest)
  }
}
