/**
 The assembler against the emulator's decoder, which was written independently of it: every line's
 bytes are fetched as one instruction, the one the assembler picked.
 */
module AsmDecode {
  import opened Machine
  import Asm
  import opened Z80

  predicate Holds(mem: Mem, a: nat, b: seq<byte>) {
    a + |b| <= MEM_SIZE && forall j :: 0 <= j < |b| ==> mem[a + j] == b[j]
  }

  /** The first byte and the operands after it, as the decoder sees them. */
  lemma Fetches(mem: Mem, a: u16, b: seq<byte>)
    requires Holds(mem, a, b) && b != []
    ensures B(mem, a) == b[0]
    ensures |b| > 1 ==> B(mem, a + 1) == b[1]
    ensures |b| > 2 ==> B(mem, a + 2) == b[2] && W(mem, a + 1) == b[1] as int + 256 * (b[2] as int)
    ensures |b| > 3 ==> B(mem, a + 3) == b[3] && W(mem, a + 2) == b[2] as int + 256 * (b[3] as int)
  {
    assert mem[a] == b[0];
    if |b| > 1 { assert mem[a + 1] == b[1]; }
    if |b| > 2 { assert mem[a + 2] == b[2]; }
    if |b| > 3 { assert mem[a + 3] == b[3]; }
  }

  function U16(v: int): u16 { v % 0x1_0000 }

  lemma WordBytes(v: int)
    ensures var w := Asm.Word16(v); |w| == 2 && w[0] as int + 256 * (w[1] as int) == U16(v)
  {
  }

  // ---- what the decoder makes of each opcode family ----------------------------------------------------

  lemma DecodesRegister(mem: Mem, a: u16, r: int, s: int)
    requires 0 <= r < 8 && 0 <= s < 8 && !(r == 6 && s == 6) && B(mem, a) == 0x40 + 8 * r + s
    ensures Decode(mem, a) == Fetched(Ld(r, s), 1)
  {
    assert (0x40 + 8 * r + s) / 64 == 1 && (0x40 + 8 * r + s) / 8 % 8 == r && (0x40 + 8 * r + s) % 8 == s;
  }

  lemma DecodesAlu(mem: Mem, a: u16, op: int, s: int)
    requires 0 <= op < 8 && 0 <= s < 8 && B(mem, a) == 0x80 + 8 * op + s
    ensures Decode(mem, a) == Fetched(Alu(op, s), 1)
  {
    assert (0x80 + 8 * op + s) / 64 == 2 && (0x80 + 8 * op + s) / 8 % 8 == op && (0x80 + 8 * op + s) % 8 == s;
  }

  /** Opcodes below 0x40, by their low three bits. */
  lemma DecodesLow(mem: Mem, a: u16, y: int, z: int)
    requires 0 <= y < 8 && 0 <= z < 8 && B(mem, a) == 8 * y + z
    ensures Decode(mem, a) == Group0(8 * y + z, mem, a + 1)
    ensures (8 * y + z) / 8 % 8 == y && (8 * y + z) % 8 == z
  {
    assert (8 * y + z) / 64 == 0 && (8 * y + z) / 8 % 8 == y && (8 * y + z) % 8 == z;
  }

  lemma DecodesHigh(mem: Mem, a: u16, y: int, z: int)
    requires 0 <= y < 8 && 0 <= z < 8 && B(mem, a) == 0xC0 + 8 * y + z
    ensures Decode(mem, a) == Group3(0xC0 + 8 * y + z, mem, a + 1)
    ensures (0xC0 + 8 * y + z) / 8 % 8 == y && (0xC0 + 8 * y + z) % 8 == z
  {
    assert (0xC0 + 8 * y + z) / 64 == 3 && (0xC0 + 8 * y + z) / 8 % 8 == y && (0xC0 + 8 * y + z) % 8 == z;
  }

  function IndexOf(prefix: int): IndexReg { if prefix == 0xDD then IX else IY }

  /** A prefixed instruction is decoded from its second byte. */
  lemma DecodesPrefix(mem: Mem, a: u16, prefix: byte)
    requires prefix in {0xDD, 0xFD} && B(mem, a) == prefix
    ensures Decode(mem, a) == Indexed(IndexOf(prefix), DecodeIndex(B(mem, a + 1), mem, a + 2))
  {
    DecodesHigh(mem, a, if prefix == 0xDD then 3 else 7, 5);
  }

  // ---- what each generated line encodes -----------------------------------------------------------------

  function SimpleInstr(op: Asm.Op): Instr {
    match op
    case HALT => Halt case DI => Di case EI => Ei case CPL => AccOp(5) case SCF => AccOp(6)
    case CCF => AccOp(7) case DAA => AccOp(4) case RLCA => AccOp(0) case RRCA => AccOp(1)
    case RLA => AccOp(2) case RRA => AccOp(3) case EXX => Exx
    case _ => Nop
  }

  function EncLd16(a1: Asm.Operand, a2: Asm.Operand): Instr {
    if a1 == Asm.Bare(Asm.Kw(Asm.SP)) && Asm.IndexPrefix(a2) != -1 then Index(IndexOf(Asm.IndexPrefix(a2)), XLdSp)
    else if Asm.Reg16(a1) != -1 then LdPair(Asm.Reg16(a1), U16(Asm.Strtol(a2)))
    else Index(IndexOf(Asm.IndexPrefix(a1)), XLd(U16(Asm.Strtol(a2))))
  }

  function EncLdReg(a1: Asm.Operand, a2: Asm.Operand): Instr {
    var r1, r2 := Asm.Reg8(a1), Asm.Reg8(a2);
    if a1 == Asm.Bare(Asm.Kw(Asm.SP)) && a2 == Asm.Bare(Asm.Kw(Asm.HL)) then LdSpHl
    else if r1 != -1 && r2 != -1 then Ld(r1, r2)
    else if r1 != -1 then LdImm(r1, Asm.Byte(Asm.Strtol(a2)))
    else EncLd16(a1, a2)
  }

  function EncLdMem(a1: Asm.Operand, a2: Asm.Operand): Instr {
    var acc, hl := Asm.Bare(Asm.Kw(Asm.A)), Asm.Bare(Asm.Kw(Asm.HL));
    if a1 == acc && a2 == Asm.Paren(Asm.Kw(Asm.BC)) then LdAInd(0)
    else if a1 == acc && a2 == Asm.Paren(Asm.Kw(Asm.DE)) then LdAInd(1)
    else if a1 == Asm.Paren(Asm.Kw(Asm.BC)) && a2 == acc then StAInd(0)
    else if a1 == Asm.Paren(Asm.Kw(Asm.DE)) && a2 == acc then StAInd(1)
    else if a1 == acc && Asm.MemAddr(a2) >= 0 then LdAMem(U16(Asm.MemAddr(a2)))
    else if a1 == hl && Asm.MemAddr(a2) >= 0 then LdHlMem(U16(Asm.MemAddr(a2)))
    else if a2 == acc && Asm.MemAddr(a1) >= 0 then StAMem(U16(Asm.MemAddr(a1)))
    else if a2 == hl && Asm.MemAddr(a1) >= 0 then StHlMem(U16(Asm.MemAddr(a1)))
    else if Asm.IndexPrefix(a2) != -1 && Asm.MemAddr(a1) >= 0
      then Index(IndexOf(Asm.IndexPrefix(a2)), XSt(U16(Asm.MemAddr(a1))))
    else EncLdReg(a1, a2)
  }

  function EncLd(a1: Asm.Operand, a2: Asm.Operand): Instr {
    var r1, r2 := Asm.Reg8(a1), Asm.Reg8(a2);
    if Asm.IsIndexed(a2) && r1 != -1 && r1 != 6 then Index(IndexOf(Asm.Prefix(a2)), XLdR(r1, Asm.Byte(a2.disp)))
    else if Asm.IsIndexed(a1) then
      if r2 != -1 && r2 != 6 then Index(IndexOf(Asm.Prefix(a1)), XStR(Asm.Byte(a1.disp), r2))
      else Index(IndexOf(Asm.Prefix(a1)), XLdMImm(Asm.Byte(a1.disp), Asm.Byte(Asm.Strtol(a2))))
    else EncLdMem(a1, a2)
  }

  lemma DecPairLoad(mem: Mem, a: u16, p: int, b: seq<byte>, v: int)
    requires 0 <= p < 4 && b == [0x01 + 16 * p] + Asm.Word16(v) && Holds(mem, a, b)
    ensures Decode(mem, a) == Fetched(LdPair(p, U16(v)), |b|)
  {
    Fetches(mem, a, b);
    WordBytes(v);
    DecodesLow(mem, a, 2 * p, 1);
  }

  lemma DecIndexLoad(mem: Mem, a: u16, prefix: byte, b: seq<byte>, v: int)
    requires prefix in {0xDD, 0xFD} && b == [prefix, 0x21] + Asm.Word16(v) && Holds(mem, a, b)
    ensures Decode(mem, a) == Fetched(Index(IndexOf(prefix), XLd(U16(v))), |b|)
  {
    Fetches(mem, a, b);
    WordBytes(v);
    DecodesPrefix(mem, a, prefix);
  }

  lemma DecIndexSp(mem: Mem, a: u16, prefix: byte)
    requires prefix in {0xDD, 0xFD} && Holds(mem, a, [prefix, 0xF9])
    ensures Decode(mem, a) == Fetched(Index(IndexOf(prefix), XLdSp), 2)
  {
    Fetches(mem, a, [prefix, 0xF9]);
    DecodesPrefix(mem, a, prefix);
  }

  lemma DecLd16(mem: Mem, a: u16, a1: Asm.Operand, a2: Asm.Operand)
    requires Asm.GenLd16(a1, a2).Code? && Holds(mem, a, Asm.GenLd16(a1, a2).bytes)
    ensures Decode(mem, a) == Fetched(EncLd16(a1, a2), |Asm.GenLd16(a1, a2).bytes|)
  {
    var b := Asm.GenLd16(a1, a2).bytes;
    if a1 == Asm.Bare(Asm.Kw(Asm.SP)) && Asm.IndexPrefix(a2) != -1 {
      DecIndexSp(mem, a, Asm.IndexPrefix(a2));
    } else if Asm.Reg16(a1) != -1 {
      DecPairLoad(mem, a, Asm.Reg16(a1), b, Asm.Strtol(a2));
    } else {
      DecIndexLoad(mem, a, Asm.IndexPrefix(a1), b, Asm.Strtol(a2));
    }
  }

  lemma DecLdReg(mem: Mem, a: u16, a1: Asm.Operand, a2: Asm.Operand)
    requires Asm.GenLdReg(a1, a2).Code? && Holds(mem, a, Asm.GenLdReg(a1, a2).bytes)
    ensures Decode(mem, a) == Fetched(EncLdReg(a1, a2), |Asm.GenLdReg(a1, a2).bytes|)
  {
    var b := Asm.GenLdReg(a1, a2).bytes;
    var r1, r2 := Asm.Reg8(a1), Asm.Reg8(a2);
    Fetches(mem, a, b);
    if a1 == Asm.Bare(Asm.Kw(Asm.SP)) && a2 == Asm.Bare(Asm.Kw(Asm.HL)) {
      DecodesHigh(mem, a, 7, 1);
    } else if r1 != -1 && r2 != -1 {
      DecodesRegister(mem, a, r1, r2);
    } else if r1 != -1 {
      DecodesLow(mem, a, r1, 6);
    } else {
      DecLd16(mem, a, a1, a2);
    }
  }

  /** Opcodes 0x02 to 0x3A that move A or HL through memory. */
  function Indirect(y: int, nn: u16): Instr {
    if y == 0 then StAInd(0) else if y == 1 then LdAInd(0) else if y == 2 then StAInd(1)
    else if y == 3 then LdAInd(1) else if y == 4 then StHlMem(nn) else if y == 5 then LdHlMem(nn)
    else if y == 6 then StAMem(nn) else LdAMem(nn)
  }

  lemma DecIndirect(mem: Mem, a: u16, y: int, b: seq<byte>, v: int)
    requires 0 <= y < 8 && b == (if y < 4 then [8 * y + 2] else [8 * y + 2] + Asm.Word16(v)) && Holds(mem, a, b)
    ensures Decode(mem, a) == Fetched(Indirect(y, U16(v)), |b|)
  {
    Fetches(mem, a, b);
    WordBytes(v);
    DecodesLow(mem, a, y, 2);
  }

  lemma DecStIndex(mem: Mem, a: u16, prefix: byte, b: seq<byte>, v: int)
    requires prefix in {0xDD, 0xFD} && b == [prefix, 0x22] + Asm.Word16(v) && Holds(mem, a, b)
    ensures Decode(mem, a) == Fetched(Index(IndexOf(prefix), XSt(U16(v))), |b|)
  {
    Fetches(mem, a, b);
    WordBytes(v);
    DecodesPrefix(mem, a, prefix);
  }

  lemma DecLdMem(mem: Mem, a: u16, a1: Asm.Operand, a2: Asm.Operand)
    requires Asm.GenLdMem(a1, a2).Code? && Holds(mem, a, Asm.GenLdMem(a1, a2).bytes)
    ensures Decode(mem, a) == Fetched(EncLdMem(a1, a2), |Asm.GenLdMem(a1, a2).bytes|)
  {
    var b := Asm.GenLdMem(a1, a2).bytes;
    var acc, hl, m1, m2 := Asm.Bare(Asm.Kw(Asm.A)), Asm.Bare(Asm.Kw(Asm.HL)), Asm.MemAddr(a1), Asm.MemAddr(a2);
    if a1 == acc && a2 == Asm.Paren(Asm.Kw(Asm.BC)) { DecIndirect(mem, a, 1, b, 0); }
    else if a1 == acc && a2 == Asm.Paren(Asm.Kw(Asm.DE)) { DecIndirect(mem, a, 3, b, 0); }
    else if a1 == Asm.Paren(Asm.Kw(Asm.BC)) && a2 == acc { DecIndirect(mem, a, 0, b, 0); }
    else if a1 == Asm.Paren(Asm.Kw(Asm.DE)) && a2 == acc { DecIndirect(mem, a, 2, b, 0); }
    else if a1 == acc && m2 >= 0 { DecIndirect(mem, a, 7, b, m2); }
    else if a1 == hl && m2 >= 0 { DecIndirect(mem, a, 5, b, m2); }
    else if a2 == acc && m1 >= 0 { DecIndirect(mem, a, 6, b, m1); }
    else if a2 == hl && m1 >= 0 { DecIndirect(mem, a, 4, b, m1); }
    else if Asm.IndexPrefix(a2) != -1 && m1 >= 0 { DecStIndex(mem, a, Asm.IndexPrefix(a2), b, m1); }
    else { DecLdReg(mem, a, a1, a2); }
  }

  lemma DecodesIndexLoad(mem: Mem, a: u16, prefix: byte, b: seq<byte>, r: int)
    requires prefix in {0xDD, 0xFD} && 0 <= r < 8 && r != 6 && Holds(mem, a, b) && |b| == 3
    requires b[0] == prefix && b[1] == 0x46 + 8 * r
    ensures Decode(mem, a) == Fetched(Index(IndexOf(prefix), XLdR(r, b[2])), 3)
  {
    Fetches(mem, a, b);
    DecodesPrefix(mem, a, prefix);
    assert (0x46 + 8 * r) / 64 == 1 && (0x46 + 8 * r) / 8 % 8 == r && (0x46 + 8 * r) % 8 == 6;
  }

  lemma DecodesIndexStore(mem: Mem, a: u16, prefix: byte, b: seq<byte>, r: int)
    requires prefix in {0xDD, 0xFD} && 0 <= r < 8 && r != 6 && Holds(mem, a, b) && |b| == 3
    requires b[0] == prefix && b[1] == 0x70 + r
    ensures Decode(mem, a) == Fetched(Index(IndexOf(prefix), XStR(b[2], r)), 3)
  {
    Fetches(mem, a, b);
    DecodesPrefix(mem, a, prefix);
    assert (0x70 + r) / 64 == 1 && (0x70 + r) / 8 % 8 == 6 && (0x70 + r) % 8 == r;
  }

  lemma DecodesIndexImm(mem: Mem, a: u16, prefix: byte, b: seq<byte>)
    requires prefix in {0xDD, 0xFD} && Holds(mem, a, b) && |b| == 4 && b[0] == prefix && b[1] == 0x36
    ensures Decode(mem, a) == Fetched(Index(IndexOf(prefix), XLdMImm(b[2], b[3])), 4)
  {
    Fetches(mem, a, b);
    DecodesPrefix(mem, a, prefix);
  }

  lemma DecLd(mem: Mem, a: u16, a1: Asm.Operand, a2: Asm.Operand)
    requires Asm.GenLd(a1, a2).Code? && Holds(mem, a, Asm.GenLd(a1, a2).bytes)
    ensures Decode(mem, a) == Fetched(EncLd(a1, a2), |Asm.GenLd(a1, a2).bytes|)
  {
    var b := Asm.GenLd(a1, a2).bytes;
    var r1, r2 := Asm.Reg8(a1), Asm.Reg8(a2);
    if Asm.IsIndexed(a2) && r1 != -1 && r1 != 6 {
      DecodesIndexLoad(mem, a, Asm.Prefix(a2), b, r1);
    } else if Asm.IsIndexed(a1) {
      if r2 != -1 && r2 != 6 { DecodesIndexStore(mem, a, Asm.Prefix(a1), b, r2); }
      else { DecodesIndexImm(mem, a, Asm.Prefix(a1), b); }
    } else {
      DecLdMem(mem, a, a1, a2);
    }
  }

  // ---- arithmetic, stack and jumps -----------------------------------------------------------------------

  function EncCount(a1: Asm.Operand, down: bool): Instr {
    if Asm.Reg8(a1) != -1 then if down then Dec(Asm.Reg8(a1)) else Inc(Asm.Reg8(a1))
    else if Asm.Reg16(a1) != -1 then if down then DecPair(Asm.Reg16(a1)) else IncPair(Asm.Reg16(a1))
    else Index(IndexOf(Asm.IndexPrefix(a1)), if down then XDec else XInc)
  }

  function EncAlu(op: int, a: Asm.Operand): Instr {
    if Asm.Reg8(a) != -1 then Alu(op, Asm.Reg8(a)) else AluImm(op, Asm.Byte(Asm.Strtol(a)))
  }

  function EncAdd(a1: Asm.Operand, a2: Asm.Operand): Instr {
    if a1 == Asm.Bare(Asm.Kw(Asm.A)) then EncAlu(0, a2)
    else if a1 == Asm.Bare(Asm.Kw(Asm.HL)) then AddHl(Asm.Reg16(a2))
    else Index(IndexOf(Asm.IndexPrefix(a1)), XAdd(Asm.Reg16(a2)))
  }

  function EncStack(a1: Asm.Operand, push: bool): Instr {
    if Asm.Reg16(a1) != -1 then if push then Push(Asm.Reg16(a1)) else Pop(Asm.Reg16(a1))
    else Index(IndexOf(Asm.IndexPrefix(a1)), if push then XPush else XPop)
  }

  function EncJp(a1: Asm.Operand, a2: Asm.Operand): Instr {
    if a1 == Asm.Paren(Asm.Kw(Asm.HL)) then JpHl
    else if a2 != Asm.None then JpIf(Asm.JpCond(a1), U16(Asm.Strtol(a2)))
    else Jp(U16(Asm.Strtol(a1)))
  }

  function EncCall(a1: Asm.Operand, a2: Asm.Operand): Instr {
    if a2 != Asm.None then CallIf(Asm.JpCond(a1), U16(Asm.Strtol(a2))) else Call(U16(Asm.Strtol(a1)))
  }

  /** The displacement byte for a numeric operand: itself when it fits a byte, else the distance. */
  function Displacement(num: int, at: u16): byte {
    if -128 <= num <= 0xFF then num % 0x100 else (num - (at + 2)) % 0x100
  }

  function EncJr(at: u16, a1: Asm.Operand, a2: Asm.Operand): Instr {
    if a2 != Asm.None then JrIf(Asm.JrCond(a1), Displacement(Asm.Strtol(a2), at))
    else Jr(Displacement(Asm.Strtol(a1), at))
  }

  function EncRet(a1: Asm.Operand): Instr { if a1 == Asm.None then Ret else RetIf(Asm.JpCond(a1)) }

  function EncEx(a1: Asm.Operand): Instr {
    if a1 == Asm.Bare(Asm.Kw(Asm.AF)) then ExAf else if a1 == Asm.Bare(Asm.Kw(Asm.DE)) then ExDeHl else ExSpHl
  }

  /** The instruction the assembler picks for a line at address `at`. */
  function Encoded(at: u16, op: Asm.Op, a1: Asm.Operand, a2: Asm.Operand): Instr {
    match op
    case LD => EncLd(a1, a2)
    case INC => EncCount(a1, false)
    case DEC => EncCount(a1, true)
    case ADD => EncAdd(a1, a2)
    case ADC => EncAlu(1, a2)
    case SUB => EncAlu(2, a1)
    case SBC => EncAlu(3, a2)
    case AND => EncAlu(4, a1)
    case XOR => EncAlu(5, a1)
    case OR => EncAlu(6, a1)
    case CP => EncAlu(7, a1)
    case PUSH => EncStack(a1, true)
    case POP => EncStack(a1, false)
    case RST => Rst(Asm.Strtol(a1) / 8)
    case JP => EncJp(a1, a2)
    case JR => EncJr(at, a1, a2)
    case CALL => EncCall(a1, a2)
    case RET => EncRet(a1)
    case IN => InN(Asm.Byte(Asm.MemAddr(a2)))
    case OUT => OutN(Asm.Byte(Asm.MemAddr(a1)))
    case DJNZ => Djnz(Displacement(Asm.Strtol(a1), at))
    case EX => EncEx(a1)
    case _ => SimpleInstr(op)
  }

  lemma DecSimple(mem: Mem, a: u16, op: Asm.Op)
    requires Asm.SimpleCode(op) != -1 && Holds(mem, a, [Asm.SimpleCode(op)])
    ensures Decode(mem, a) == Fetched(SimpleInstr(op), 1)
  {
    Fetches(mem, a, [Asm.SimpleCode(op)]);
  }

  lemma DecIndexPlain(mem: Mem, a: u16, prefix: byte, op: byte)
    requires prefix in {0xDD, 0xFD} && op in {0x23, 0x2B, 0xE5, 0xE1} && Holds(mem, a, [prefix, op])
    ensures Decode(mem, a) == Fetched(Index(IndexOf(prefix),
      if op == 0x23 then XInc else if op == 0x2B then XDec else if op == 0xE5 then XPush else XPop), 2)
  {
    Fetches(mem, a, [prefix, op]);
    DecodesPrefix(mem, a, prefix);
  }

  lemma DecIndexAdd(mem: Mem, a: u16, prefix: byte, p: int)
    requires prefix in {0xDD, 0xFD} && 0 <= p < 4 && Holds(mem, a, [prefix, 0x09 + 16 * p])
    ensures Decode(mem, a) == Fetched(Index(IndexOf(prefix), XAdd(p)), 2)
  {
    Fetches(mem, a, [prefix, 0x09 + 16 * p]);
    DecodesPrefix(mem, a, prefix);
  }

  lemma DecCountByte(mem: Mem, a: u16, r: int, down: bool)
    requires 0 <= r < 8 && Holds(mem, a, [(if down then 5 else 4) + 8 * r])
    ensures Decode(mem, a) == Fetched(if down then Dec(r) else Inc(r), 1)
  {
    Fetches(mem, a, [(if down then 5 else 4) + 8 * r]);
    DecodesLow(mem, a, r, if down then 5 else 4);
  }

  lemma DecCountPair(mem: Mem, a: u16, p: int, down: bool)
    requires 0 <= p < 4 && Holds(mem, a, [(if down then 0x0B else 3) + 16 * p])
    ensures Decode(mem, a) == Fetched(if down then DecPair(p) else IncPair(p), 1)
  {
    Fetches(mem, a, [(if down then 0x0B else 3) + 16 * p]);
    DecodesLow(mem, a, 2 * p + if down then 1 else 0, 3);
  }

  lemma DecCountIndex(mem: Mem, a: u16, prefix: byte, down: bool)
    requires prefix in {0xDD, 0xFD} && Holds(mem, a, [prefix, if down then 0x2B else 0x23])
    ensures Decode(mem, a) == Fetched(Index(IndexOf(prefix), if down then XDec else XInc), 2)
  {
    Fetches(mem, a, [prefix, if down then 0x2B else 0x23]);
    DecIndexPlain(mem, a, prefix, if down then 0x2B else 0x23);
  }

  lemma DecCount(mem: Mem, a: u16, a1: Asm.Operand, down: bool)
    requires var o := Asm.GenCount(a1, if down then 5 else 4, if down then 0x0B else 3, if down then 0x2B else 0x23);
             o.Code? && Holds(mem, a, o.bytes)
    ensures var b :=
              Asm.GenCount(a1, if down then 5 else 4, if down then 0x0B else 3, if down then 0x2B else 0x23).bytes;
            Decode(mem, a) == Fetched(EncCount(a1, down), |b|)
  {
    if Asm.Reg8(a1) != -1 { DecCountByte(mem, a, Asm.Reg8(a1), down); }
    else if Asm.Reg16(a1) != -1 { DecCountPair(mem, a, Asm.Reg16(a1), down); }
    else { DecCountIndex(mem, a, Asm.IndexPrefix(a1), down); }
  }

  lemma DecAlu(mem: Mem, a: u16, op: int, a1: Asm.Operand)
    requires 0 <= op < 8 && Holds(mem, a, Asm.GenAlu(op, a1).bytes)
    ensures Decode(mem, a) == Fetched(EncAlu(op, a1), |Asm.GenAlu(op, a1).bytes|)
  {
    Fetches(mem, a, Asm.GenAlu(op, a1).bytes);
    if Asm.Reg8(a1) != -1 { DecodesAlu(mem, a, op, Asm.Reg8(a1)); } else { DecodesHigh(mem, a, op, 6); }
  }

  lemma DecAdd(mem: Mem, a: u16, a1: Asm.Operand, a2: Asm.Operand)
    requires Asm.GenAdd(a1, a2).Code? && Holds(mem, a, Asm.GenAdd(a1, a2).bytes)
    ensures Decode(mem, a) == Fetched(EncAdd(a1, a2), |Asm.GenAdd(a1, a2).bytes|)
  {
    if a1 == Asm.Bare(Asm.Kw(Asm.A)) {
      DecAlu(mem, a, 0, a2);
    } else if a1 == Asm.Bare(Asm.Kw(Asm.HL)) {
      Fetches(mem, a, Asm.GenAdd(a1, a2).bytes);
      DecodesLow(mem, a, 2 * Asm.Reg16(a2) + 1, 1);
    } else {
      DecIndexAdd(mem, a, Asm.IndexPrefix(a1), Asm.Reg16(a2));
    }
  }

  lemma DecStack(mem: Mem, a: u16, a1: Asm.Operand, push: bool)
    requires var o := Asm.GenStack(a1, if push then 0xC5 else 0xC1, if push then 0xE5 else 0xE1);
             o.Code? && Holds(mem, a, o.bytes)
    ensures var b := Asm.GenStack(a1, if push then 0xC5 else 0xC1, if push then 0xE5 else 0xE1).bytes;
            Decode(mem, a) == Fetched(EncStack(a1, push), |b|)
  {
    var b := Asm.GenStack(a1, if push then 0xC5 else 0xC1, if push then 0xE5 else 0xE1).bytes;
    if Asm.Reg16(a1) != -1 {
      Fetches(mem, a, b);
      DecodesHigh(mem, a, 2 * Asm.Reg16(a1), if push then 5 else 1);
    } else {
      DecIndexPlain(mem, a, Asm.IndexPrefix(a1), b[1]);
    }
  }

  lemma DecJp(mem: Mem, a: u16, a1: Asm.Operand, a2: Asm.Operand)
    requires Asm.GenJp(a1, a2).Code? && Holds(mem, a, Asm.GenJp(a1, a2).bytes)
    ensures Decode(mem, a) == Fetched(EncJp(a1, a2), |Asm.GenJp(a1, a2).bytes|)
  {
    Fetches(mem, a, Asm.GenJp(a1, a2).bytes);
    if a1 == Asm.Paren(Asm.Kw(Asm.HL)) {
      DecodesHigh(mem, a, 5, 1);
    } else if a2 != Asm.None {
      WordBytes(Asm.Strtol(a2));
      DecodesHigh(mem, a, Asm.JpCond(a1), 2);
    } else {
      WordBytes(Asm.Strtol(a1));
      DecodesHigh(mem, a, 0, 3);
    }
  }

  lemma DecCall(mem: Mem, a: u16, a1: Asm.Operand, a2: Asm.Operand)
    requires Asm.GenCall(a1, a2).Code? && Holds(mem, a, Asm.GenCall(a1, a2).bytes)
    ensures Decode(mem, a) == Fetched(EncCall(a1, a2), |Asm.GenCall(a1, a2).bytes|)
  {
    Fetches(mem, a, Asm.GenCall(a1, a2).bytes);
    if a2 != Asm.None {
      WordBytes(Asm.Strtol(a2));
      DecodesHigh(mem, a, Asm.JpCond(a1), 4);
    } else {
      WordBytes(Asm.Strtol(a1));
      DecodesHigh(mem, a, 1, 5);
    }
  }

  lemma RelByte(a: Asm.Operand, at: u16)
    ensures var o := Asm.Rel(true, a, at); o.Code? ==> o.bytes == [Displacement(Asm.Strtol(a), at)]
  {
    var d := Asm.Strtol(a) - (at + 2);
    assert Asm.Byte(Asm.ToInt(d)) == d % 0x100 by { assert d % 0x1_0000 % 0x100 == d % 0x100; }
  }

  lemma DecJr(mem: Mem, a: u16, a1: Asm.Operand, a2: Asm.Operand)
    requires Asm.GenJr(true, a, a1, a2).Code? && Holds(mem, a, Asm.GenJr(true, a, a1, a2).bytes)
    ensures Decode(mem, a) == Fetched(EncJr(a, a1, a2), |Asm.GenJr(true, a, a1, a2).bytes|)
  {
    Fetches(mem, a, Asm.GenJr(true, a, a1, a2).bytes);
    if a2 != Asm.None {
      RelByte(a2, a);
      DecodesLow(mem, a, 4 + Asm.JrCond(a1), 0);
    } else {
      RelByte(a1, a);
      DecodesLow(mem, a, 3, 0);
    }
  }

  lemma DecDjnz(mem: Mem, a: u16, a1: Asm.Operand)
    requires var o := Asm.Then([0x10], Asm.Rel(true, a1, a)); o.Code? && Holds(mem, a, o.bytes)
    ensures Decode(mem, a) ==
            Fetched(Djnz(Displacement(Asm.Strtol(a1), a)), |Asm.Then([0x10], Asm.Rel(true, a1, a)).bytes|)
  {
    Fetches(mem, a, Asm.Then([0x10], Asm.Rel(true, a1, a)).bytes);
    RelByte(a1, a);
    DecodesLow(mem, a, 2, 0);
  }

  lemma DecPort(mem: Mem, a: u16, read: bool, n: byte)
    requires Holds(mem, a, [if read then 0xDB else 0xD3, n])
    ensures Decode(mem, a) == Fetched(if read then InN(n) else OutN(n), 2)
  {
    Fetches(mem, a, [if read then 0xDB else 0xD3, n]);
    DecodesHigh(mem, a, if read then 3 else 2, 3);
  }

  lemma DecRet(mem: Mem, a: u16, a1: Asm.Operand)
    requires a1 == Asm.None || Asm.JpCond(a1) != -1
    requires Holds(mem, a, [if a1 == Asm.None then 0xC9 else 0xC0 + 8 * Asm.JpCond(a1)])
    ensures Decode(mem, a) == Fetched(EncRet(a1), 1)
  {
    Fetches(mem, a, [if a1 == Asm.None then 0xC9 else 0xC0 + 8 * Asm.JpCond(a1)]);
    if a1 == Asm.None { DecodesHigh(mem, a, 1, 1); } else { DecodesHigh(mem, a, Asm.JpCond(a1), 0); }
  }

  lemma DecRst(mem: Mem, a: u16, y: int)
    requires 0 <= y < 8 && Holds(mem, a, [0xC7 + 8 * y])
    ensures Decode(mem, a) == Fetched(Rst(y), 1)
  {
    Fetches(mem, a, [0xC7 + 8 * y]);
    DecodesHigh(mem, a, y, 7);
  }

  lemma DecEx(mem: Mem, a: u16, a1: Asm.Operand, a2: Asm.Operand)
    requires Asm.GenEx(a1, a2).Code? && Holds(mem, a, Asm.GenEx(a1, a2).bytes)
    ensures Decode(mem, a) == Fetched(EncEx(a1), |Asm.GenEx(a1, a2).bytes|)
  {
    Fetches(mem, a, Asm.GenEx(a1, a2).bytes);
    if a1 == Asm.Bare(Asm.Kw(Asm.AF)) { DecodesLow(mem, a, 1, 0); }
    else if a1 == Asm.Bare(Asm.Kw(Asm.DE)) { DecodesHigh(mem, a, 5, 3); }
    else { DecodesHigh(mem, a, 4, 3); }
  }

  // ---- one line, one fetch ------------------------------------------------------------------------------

  /** RST operands name a vector: a multiple of 8. */
  predicate VectorOk(op: Asm.Op, a1: Asm.Operand) { op == Asm.RST ==> Asm.Strtol(a1) % 8 == 0 }

  lemma DecTransfer(mem: Mem, at: u16, op: Asm.Op, a1: Asm.Operand, a2: Asm.Operand)
    requires op in {Asm.PUSH, Asm.POP, Asm.RST, Asm.JP, Asm.JR, Asm.CALL, Asm.RET, Asm.IN, Asm.OUT, Asm.DJNZ, Asm.EX}
    requires Asm.Gen(true, at, op, a1, a2).Code? && VectorOk(op, a1)
    requires Holds(mem, at, Asm.Gen(true, at, op, a1, a2).bytes)
    ensures Decode(mem, at) == Fetched(Encoded(at, op, a1, a2), |Asm.Gen(true, at, op, a1, a2).bytes|)
  {
    match op
    case PUSH => DecStack(mem, at, a1, true);
    case POP => DecStack(mem, at, a1, false);
    case RST => DecRst(mem, at, Asm.Strtol(a1) / 8);
    case JP => DecJp(mem, at, a1, a2);
    case JR => DecJr(mem, at, a1, a2);
    case CALL => DecCall(mem, at, a1, a2);
    case RET => DecRet(mem, at, a1);
    case IN => DecPort(mem, at, true, Asm.Byte(Asm.MemAddr(a2)));
    case OUT => DecPort(mem, at, false, Asm.Byte(Asm.MemAddr(a1)));
    case DJNZ => DecDjnz(mem, at, a1);
    case EX => DecEx(mem, at, a1, a2);
  }

  lemma LineDecodes(mem: Mem, at: u16, op: Asm.Op, a1: Asm.Operand, a2: Asm.Operand)
    requires Asm.Gen(true, at, op, a1, a2).Code? && VectorOk(op, a1)
    requires Holds(mem, at, Asm.Gen(true, at, op, a1, a2).bytes)
    ensures Decode(mem, at) == Fetched(Encoded(at, op, a1, a2), |Asm.Gen(true, at, op, a1, a2).bytes|)
  {
    match op
    case LD => DecLd(mem, at, a1, a2);
    case INC => DecCount(mem, at, a1, false);
    case DEC => DecCount(mem, at, a1, true);
    case ADD => DecAdd(mem, at, a1, a2);
    case ADC => DecAlu(mem, at, 1, a2);
    case SUB => DecAlu(mem, at, 2, a1);
    case SBC => DecAlu(mem, at, 3, a2);
    case AND => DecAlu(mem, at, 4, a1);
    case XOR => DecAlu(mem, at, 5, a1);
    case OR => DecAlu(mem, at, 6, a1);
    case CP => DecAlu(mem, at, 7, a1);
    case PUSH | POP | RST | JP | JR | CALL | RET | IN | OUT | DJNZ | EX => DecTransfer(mem, at, op, a1, a2);
    case _ => DecSimple(mem, at, op);
  }
}
