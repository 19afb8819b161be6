/**
 What an assembly line means, by the Z80's own assembly language, and which lines m80asm turns into
 something else.
 */
module AsmMeaning {
  import opened Machine
  import Asm
  import opened Z80
  import opened AsmDecode

  // ---- what a line means ---------------------------------------------------------------------------------

  /** When a relative jump is taken. */
  datatype Branch = Always | When(c: int) | Looping

  /** Relative jumps are known by where they go, other instructions by their fields. */
  datatype Meaning = Nothing | Means(i: Instr) | BranchesTo(b: Branch, to: u16)

  /** Where a relative jump at `at` with displacement `d` goes. */
  function Target(at: u16, d: byte): u16 { Wrap(at + 2 + Disp(d)) }

  predicate Branches(i: Instr, b: Branch, at: u16, to: u16) {
    match i
    case Jr(d) => b == Always && Target(at, d) == to
    case JrIf(c, d) => b == When(c) && Target(at, d) == to
    case Djnz(d) => b == Looping && Target(at, d) == to
    case _ => false
  }

  function Pairing(a: Asm.Operand): int {
    if a == Asm.Bare(Asm.Kw(Asm.BC)) then 0 else if a == Asm.Bare(Asm.Kw(Asm.DE)) then 1
    else if a == Asm.Bare(Asm.Kw(Asm.SP)) then 3 else -1
  }

  function XReg(a: Asm.Operand): IndexReg {
    if a == Asm.Bare(Asm.Kw(Asm.IX)) || (a.Indexed? && a.reg == Asm.IX) || a == Asm.Paren(Asm.Kw(Asm.IX)) then IX
    else IY
  }

  predicate IsX(a: Asm.Operand) { a == Asm.Bare(Asm.Kw(Asm.IX)) || a == Asm.Bare(Asm.Kw(Asm.IY)) }

  /** The Z80's numbering of registers, 6 being the byte at HL. */
  function RegNo(a: Asm.Operand): int {
    match a
    case Bare(Kw(w)) =>
      (match w
       case B => 0 case C => 1 case D => 2 case E => 3 case H => 4 case L => 5 case A => 7
       case _ => -1)
    case Paren(Kw(w)) => if w == Asm.HL then 6 else -1
    case _ => -1
  }

  /** The Z80's numbering of conditions. */
  function CondNo(a: Asm.Operand): int {
    match a
    case Bare(Kw(w)) =>
      (match w
       case NZ => 0 case Z => 1 case NC => 2 case C => 3 case PO => 4 case PE => 5 case P => 6 case M => 7
       case _ => -1)
    case _ => -1
  }

  /** A byte at an index register and a signed 8-bit displacement. */
  predicate AtIndex(a: Asm.Operand) { a.Indexed? && (a.reg == Asm.IX || a.reg == Asm.IY) && -0x80 <= a.disp < 0x80 }

  /** The instructions without operands. */
  function MeanPlain(op: Asm.Op): Meaning {
    match op
    case NOP => Means(Nop) case HALT => Means(Halt) case DI => Means(Di) case EI => Means(Ei)
    case RLCA => Means(AccOp(0)) case RRCA => Means(AccOp(1)) case RLA => Means(AccOp(2)) case RRA => Means(AccOp(3))
    case DAA => Means(AccOp(4)) case CPL => Means(AccOp(5)) case SCF => Means(AccOp(6)) case CCF => Means(AccOp(7))
    case EXX => Means(Exx)
    case _ => Nothing
  }

  /** Loads into a register or the byte at HL or an index, by the Z80's assembly language. */
  function Load8(a1: Asm.Operand, a2: Asm.Operand): Meaning {
    var r, s := RegNo(a1), RegNo(a2);
    if r != -1 && s != -1 then if r == 6 && s == 6 then Nothing else Means(Ld(r, s))
    else if r != -1 && a2.Num? then Means(LdImm(r, a2.v % 0x100))
    else if r != -1 && r != 6 && AtIndex(a2) then Means(Index(XReg(a2), XLdR(r, a2.disp % 0x100)))
    else if AtIndex(a1) && s != -1 && s != 6 then Means(Index(XReg(a1), XStR(a1.disp % 0x100, s)))
    else if AtIndex(a1) && a2.Num? then Means(Index(XReg(a1), XLdMImm(a1.disp % 0x100, a2.v % 0x100)))
    else LoadA(a1, a2)
  }

  function LoadA(a1: Asm.Operand, a2: Asm.Operand): Meaning {
    var acc := Asm.Bare(Asm.Kw(Asm.A));
    if a1 == acc then
      if a2 == Asm.Paren(Asm.Kw(Asm.BC)) then Means(LdAInd(0))
      else if a2 == Asm.Paren(Asm.Kw(Asm.DE)) then Means(LdAInd(1))
      else if a2.ParenNum? then Means(LdAMem(a2.v % 0x1_0000))
      else Nothing
    else if a2 == acc then
      if a1 == Asm.Paren(Asm.Kw(Asm.BC)) then Means(StAInd(0))
      else if a1 == Asm.Paren(Asm.Kw(Asm.DE)) then Means(StAInd(1))
      else if a1.ParenNum? then Means(StAMem(a1.v % 0x1_0000))
      else Nothing
    else Load16(a1, a2)
  }

  function Load16(a1: Asm.Operand, a2: Asm.Operand): Meaning {
    var hl, sp := Asm.Bare(Asm.Kw(Asm.HL)), Asm.Bare(Asm.Kw(Asm.SP));
    if a2.Num? then
      if a1 == hl then Means(LdPair(2, a2.v % 0x1_0000))
      else if Pairing(a1) != -1 then Means(LdPair(Pairing(a1), a2.v % 0x1_0000))
      else if IsX(a1) then Means(Index(XReg(a1), XLd(a2.v % 0x1_0000)))
      else Nothing
    else if a2.ParenNum? then
      if a1 == hl then Means(LdHlMem(a2.v % 0x1_0000))
      else if Pairing(a1) != -1 then Means(LdPairMem(Pairing(a1), a2.v % 0x1_0000))
      else if IsX(a1) then Means(Index(XReg(a1), XLdMem(a2.v % 0x1_0000)))
      else Nothing
    else if a1.ParenNum? then
      if a2 == hl then Means(StHlMem(a1.v % 0x1_0000))
      else if Pairing(a2) != -1 then Means(StPairMem(Pairing(a2), a1.v % 0x1_0000))
      else if IsX(a2) then Means(Index(XReg(a2), XSt(a1.v % 0x1_0000)))
      else Nothing
    else if a1 == sp && a2 == hl then Means(LdSpHl)
    else if a1 == sp && IsX(a2) then Means(Index(XReg(a2), XLdSp))
    else Nothing
  }

  function MeanCount(a: Asm.Operand, down: bool): Meaning {
    if RegNo(a) != -1 then Means(if down then Dec(RegNo(a)) else Inc(RegNo(a)))
    else if a == Asm.Bare(Asm.Kw(Asm.HL)) then Means(if down then DecPair(2) else IncPair(2))
    else if Pairing(a) != -1 then Means(if down then DecPair(Pairing(a)) else IncPair(Pairing(a)))
    else if IsX(a) then Means(Index(XReg(a), if down then XDec else XInc))
    else if AtIndex(a) then
      Means(Index(XReg(a), if down then XDecM(a.disp % 0x100) else XIncM(a.disp % 0x100)))
    else Nothing
  }

  function MeanAlu(op: int, a: Asm.Operand): Meaning {
    if RegNo(a) != -1 then Means(Alu(op, RegNo(a)))
    else if a.Num? then Means(AluImm(op, a.v % 0x100))
    else if AtIndex(a) then Means(Index(XReg(a), XAluM(op, a.disp % 0x100)))
    else Nothing
  }

  function MeanAdd(a1: Asm.Operand, a2: Asm.Operand): Meaning {
    if a1 == Asm.Bare(Asm.Kw(Asm.A)) then MeanAlu(0, a2)
    else if a1 == Asm.Bare(Asm.Kw(Asm.HL)) then
      if a2 == Asm.Bare(Asm.Kw(Asm.HL)) then Means(AddHl(2))
      else if Pairing(a2) != -1 then Means(AddHl(Pairing(a2)))
      else Nothing
    else if IsX(a1) then
      if a2 == a1 then Means(Index(XReg(a1), XAdd(2)))
      else if Pairing(a2) != -1 then Means(Index(XReg(a1), XAdd(Pairing(a2))))
      else Nothing
    else Nothing
  }

  function MeanStack(a: Asm.Operand, push: bool): Meaning {
    if a == Asm.Bare(Asm.Kw(Asm.BC)) then Means(if push then Push(0) else Pop(0))
    else if a == Asm.Bare(Asm.Kw(Asm.DE)) then Means(if push then Push(1) else Pop(1))
    else if a == Asm.Bare(Asm.Kw(Asm.HL)) then Means(if push then Push(2) else Pop(2))
    else if a == Asm.Bare(Asm.Kw(Asm.AF)) then Means(if push then Push(3) else Pop(3))
    else if IsX(a) then Means(Index(XReg(a), if push then XPush else XPop))
    else Nothing
  }

  function MeanJp(a1: Asm.Operand, a2: Asm.Operand): Meaning {
    if a2 == Asm.None then
      if a1 == Asm.Paren(Asm.Kw(Asm.HL)) then Means(JpHl)
      else if a1 in {Asm.Paren(Asm.Kw(Asm.IX)), Asm.Paren(Asm.Kw(Asm.IY))} then Means(Index(XReg(a1), XJp))
      else if a1.Num? then Means(Jp(a1.v % 0x1_0000))
      else Nothing
    else if CondNo(a1) != -1 && a2.Num? then Means(JpIf(CondNo(a1), a2.v % 0x1_0000))
    else Nothing
  }

  function MeanCall(a1: Asm.Operand, a2: Asm.Operand): Meaning {
    if a2 == Asm.None then if a1.Num? then Means(Call(a1.v % 0x1_0000)) else Nothing
    else if CondNo(a1) != -1 && a2.Num? then Means(CallIf(CondNo(a1), a2.v % 0x1_0000))
    else Nothing
  }

  /** A relative jump names the address it goes to. */
  function MeanJr(a1: Asm.Operand, a2: Asm.Operand): Meaning {
    if a2 == Asm.None then if a1.Num? then BranchesTo(Always, a1.v % 0x1_0000) else Nothing
    else if 0 <= CondNo(a1) < 4 && a2.Num? then BranchesTo(When(CondNo(a1)), a2.v % 0x1_0000)
    else Nothing
  }

  function MeanRet(a: Asm.Operand): Meaning {
    if a == Asm.None then Means(Ret) else if CondNo(a) != -1 then Means(RetIf(CondNo(a))) else Nothing
  }

  function MeanRst(a: Asm.Operand): Meaning {
    if a.Num? && a.v % 8 == 0 && 0 <= a.v <= 0x38 then Means(Rst(a.v / 8)) else Nothing
  }

  function MeanPort(read: bool, reg: Asm.Operand, port: Asm.Operand): Meaning {
    if reg != Asm.Bare(Asm.Kw(Asm.A)) then Nothing
    else if port.ParenNum? then Means(if read then InN(port.v % 0x100) else OutN(port.v % 0x100))
    else if port == Asm.Paren(Asm.Kw(Asm.C)) then Means(if read then InC(7) else OutC(7))
    else Nothing
  }

  function MeanEx(a1: Asm.Operand, a2: Asm.Operand): Meaning {
    if a1 == Asm.Bare(Asm.Kw(Asm.AF)) && a2 == Asm.Bare(Asm.Kw(Asm.AF')) then Means(ExAf)
    else if a1 == Asm.Bare(Asm.Kw(Asm.DE)) && a2 == Asm.Bare(Asm.Kw(Asm.HL)) then Means(ExDeHl)
    else if a1 == Asm.Paren(Asm.Kw(Asm.SP)) && a2 == Asm.Bare(Asm.Kw(Asm.HL)) then Means(ExSpHl)
    else if a1 == Asm.Paren(Asm.Kw(Asm.SP)) && IsX(a2) then Means(Index(XReg(a2), XExSp))
    else Nothing
  }

  /** The instruction a line stands for, whether or not the assembler knows it. */
  function MeaningOf(op: Asm.Op, a1: Asm.Operand, a2: Asm.Operand): Meaning {
    match op
    case LD => Load8(a1, a2)
    case INC => MeanCount(a1, false)
    case DEC => MeanCount(a1, true)
    case ADD => MeanAdd(a1, a2)
    case ADC => if a1 == Asm.Bare(Asm.Kw(Asm.A)) then MeanAlu(1, a2) else Nothing
    case SUB => MeanAlu(2, a1)
    case SBC => if a1 == Asm.Bare(Asm.Kw(Asm.A)) then MeanAlu(3, a2) else Nothing
    case AND => MeanAlu(4, a1)
    case XOR => MeanAlu(5, a1)
    case OR => MeanAlu(6, a1)
    case CP => MeanAlu(7, a1)
    case PUSH => MeanStack(a1, true)
    case POP => MeanStack(a1, false)
    case RST => MeanRst(a1)
    case JP => MeanJp(a1, a2)
    case JR => MeanJr(a1, a2)
    case CALL => MeanCall(a1, a2)
    case RET => MeanRet(a1)
    case IN => MeanPort(true, a1, a2)
    case OUT => MeanPort(false, a2, a1)
    case DJNZ => if a1.Num? then BranchesTo(Looping, a1.v % 0x1_0000) else Nothing
    case EX => MeanEx(a1, a2)
    case _ => MeanPlain(op)
  }

  /** Operand forms that assemble without an error into some other instruction. */
  predicate WrongForm(op: Asm.Op, a1: Asm.Operand, a2: Asm.Operand) {
    match op
    case LD =>
      || (a1 == Asm.Bare(Asm.Kw(Asm.A)) && a2 == Asm.Paren(Asm.Kw(Asm.HL)))
      || (a1 == Asm.Paren(Asm.Kw(Asm.HL)) && a2 == Asm.Bare(Asm.Kw(Asm.A)))
      || (a2.ParenNum? && (Pairing(a1) != -1 || IsX(a1)))
      || (a2.ParenNum? && a1 in {Asm.Bare(Asm.Kw(Asm.A)), Asm.Bare(Asm.Kw(Asm.HL))} && a2.v % 0x1_0000 >= 0x8000)
    case ADD | ADC | SBC => a1 == Asm.Bare(Asm.Kw(Asm.A)) && AtIndex(a2)
    case SUB | AND | OR | XOR | CP => AtIndex(a1)
    case JP => a1 in {Asm.Paren(Asm.Kw(Asm.IX)), Asm.Paren(Asm.Kw(Asm.IY))}
    case IN => a2 == Asm.Paren(Asm.Kw(Asm.C))
    case OUT => a1 == Asm.Paren(Asm.Kw(Asm.C))
    case _ => false
  }

  /** A relative jump to a number that fits a byte, which is emitted as the displacement itself. */
  predicate LowJump(at: u16, a: Asm.Operand) {
    a.Num? && var n := Asm.ToInt(a.v); -128 <= n <= 0xFF && at != if n < 0x80 then 0xFFFE else 0xFE
  }

  /** The lines that assemble without an error into something else than they mean. */
  predicate Deviant(at: u16, op: Asm.Op, a1: Asm.Operand, a2: Asm.Operand) {
    || WrongForm(op, a1, a2)
    || (op == Asm.JR && LowJump(at, if a2 == Asm.None then a1 else a2))
    || (op == Asm.DJNZ && LowJump(at, a1))
  }

  predicate Agrees(got: Instr, want: Meaning, deviant: bool) {
    !want.BranchesTo? && (want.Means? ==> (got == want.i <==> !deviant))
  }

  /** The instruction is what the line means if and only if the line is not deviant. */
  predicate Carries(at: u16, got: Instr, want: Meaning, deviant: bool) {
    if want.BranchesTo? then Branches(got, want.b, at, want.to) <==> !deviant else Agrees(got, want, deviant)
  }

  /** The assembler's tables are the Z80's. */
  lemma TablesAgree(a: Asm.Operand)
    ensures Asm.Reg8(a) == RegNo(a) && Asm.JpCond(a) == CondNo(a) && (Asm.IsIndexed(a) <==> AtIndex(a))
    ensures -1 <= RegNo(a) < 8 && -1 <= CondNo(a) < 8
  {
  }

  /** Storing a number in a 16-bit `int` changes neither its low byte nor its low word. */
  lemma IntMods(v: int)
    ensures Asm.Byte(Asm.ToInt(v)) == v % 0x100 && U16(Asm.ToInt(v)) == v % 0x1_0000
  {
    assert v % 0x1_0000 % 0x100 == v % 0x100;
  }

  lemma MeansLdToIndexed(a1: Asm.Operand, a2: Asm.Operand)
    requires Asm.GenLd(a1, a2).Code? && Asm.IsIndexed(a1)
    ensures Agrees(EncLd(a1, a2), Load8(a1, a2), WrongForm(Asm.LD, a1, a2))
  {
    TablesAgree(a1);
    TablesAgree(a2);
    if a2.Num? { IntMods(a2.v); }
  }

  lemma MeansLdIndexed(a1: Asm.Operand, a2: Asm.Operand)
    requires Asm.GenLd(a1, a2).Code? && !Asm.IsIndexed(a1) && Asm.IsIndexed(a2)
    ensures Agrees(EncLd(a1, a2), Load8(a1, a2), WrongForm(Asm.LD, a1, a2))
  {
    TablesAgree(a1);
    TablesAgree(a2);
  }

  lemma MeansLdNumber(a1: Asm.Operand, a2: Asm.Operand)
    requires Asm.GenLd(a1, a2).Code? && Asm.Reg8(a1) != -1 && a2.Num?
    ensures Agrees(EncLd(a1, a2), Load8(a1, a2), WrongForm(Asm.LD, a1, a2))
  {
    TablesAgree(a1);
    TablesAgree(a2);
    IntMods(a2.v);
  }

  /** No register and no indexed byte on the left: a load through LoadA. */
  lemma PlainLoad(a1: Asm.Operand, a2: Asm.Operand)
    requires Asm.Reg8(a1) == -1 && !Asm.IsIndexed(a1)
    ensures Load8(a1, a2) == LoadA(a1, a2) && EncLd(a1, a2) == EncLdMem(a1, a2)
    ensures Asm.GenLd(a1, a2) == Asm.GenLdMem(a1, a2)
  {
    TablesAgree(a1);
  }

  lemma MeansWord(a1: Asm.Operand, a2: Asm.Operand)
    requires Asm.GenLdMem(a1, a2).Code? && Asm.Reg8(a1) == -1 && a2.Num?
    ensures Agrees(EncLdMem(a1, a2), LoadA(a1, a2), false)
  {
    IntMods(a2.v);
  }

  lemma MeansLdWord(a1: Asm.Operand, a2: Asm.Operand)
    requires Asm.GenLd(a1, a2).Code? && Asm.Reg8(a1) == -1 && !Asm.IsIndexed(a1) && a2.Num?
    ensures Agrees(EncLd(a1, a2), Load8(a1, a2), WrongForm(Asm.LD, a1, a2))
  {
    PlainLoad(a1, a2);
    MeansWord(a1, a2);
  }

  lemma MeansLdFrom(a1: Asm.Operand, a2: Asm.Operand)
    requires Asm.GenLd(a1, a2).Code? && a2.ParenNum? && a1 in {Asm.Bare(Asm.Kw(Asm.A)), Asm.Bare(Asm.Kw(Asm.HL))}
    ensures Agrees(EncLd(a1, a2), Load8(a1, a2), WrongForm(Asm.LD, a1, a2))
  {
    TablesAgree(a1);
    TablesAgree(a2);
    IntMods(a2.v);
  }

  lemma MeansLdFromElse(a1: Asm.Operand, a2: Asm.Operand)
    requires Asm.GenLd(a1, a2).Code? && a2.ParenNum? && !Asm.IsIndexed(a1)
    requires a1 !in {Asm.Bare(Asm.Kw(Asm.A)), Asm.Bare(Asm.Kw(Asm.HL))}
    ensures Agrees(EncLd(a1, a2), Load8(a1, a2), WrongForm(Asm.LD, a1, a2))
  {
    TablesAgree(a1);
    TablesAgree(a2);
  }

  lemma MeansStore(a1: Asm.Operand, a2: Asm.Operand)
    requires Asm.GenLdMem(a1, a2).Code? && a1.ParenNum? && !a2.Num? && !a2.ParenNum?
    ensures Agrees(EncLdMem(a1, a2), LoadA(a1, a2), false)
  {
    IntMods(a1.v);
  }

  lemma MeansLdTo(a1: Asm.Operand, a2: Asm.Operand)
    requires Asm.GenLd(a1, a2).Code? && a1.ParenNum? && !a2.Num? && !a2.ParenNum? && !Asm.IsIndexed(a2)
    ensures Agrees(EncLd(a1, a2), Load8(a1, a2), WrongForm(Asm.LD, a1, a2))
  {
    PlainLoad(a1, a2);
    MeansStore(a1, a2);
  }

  lemma MeansLdRegister(a1: Asm.Operand, a2: Asm.Operand)
    requires Asm.GenLd(a1, a2).Code? && a1 == Asm.Bare(Asm.Kw(Asm.A)) && !a2.Num? && !a2.ParenNum? && !Asm.IsIndexed(a2)
    ensures Agrees(EncLd(a1, a2), Load8(a1, a2), WrongForm(Asm.LD, a1, a2))
  {
    TablesAgree(a1);
    TablesAgree(a2);
  }

  lemma MeansLdAToHl(a1: Asm.Operand, a2: Asm.Operand)
    requires a1 == Asm.Paren(Asm.Kw(Asm.HL)) && a2 == Asm.Bare(Asm.Kw(Asm.A))
    ensures Agrees(EncLd(a1, a2), Load8(a1, a2), WrongForm(Asm.LD, a1, a2))
  {
    TablesAgree(a1);
    TablesAgree(a2);
    assert EncLd(a1, a2) == EncLdMem(a1, a2) == StAMem(0);
  }

  lemma MeansLdToHl(a1: Asm.Operand, a2: Asm.Operand)
    requires a1 == Asm.Paren(Asm.Kw(Asm.HL)) && Asm.Reg8(a2) != -1 && a2 != Asm.Bare(Asm.Kw(Asm.A))
    requires Asm.GenLd(a1, a2).Code?
    ensures Agrees(EncLd(a1, a2), Load8(a1, a2), WrongForm(Asm.LD, a1, a2))
  {
    TablesAgree(a1);
    TablesAgree(a2);
  }

  lemma MeansLdBoth(a1: Asm.Operand, a2: Asm.Operand)
    requires a1.Bare? && a1 != Asm.Bare(Asm.Kw(Asm.A)) && Asm.Reg8(a1) != -1 && Asm.Reg8(a2) != -1
    ensures EncLd(a1, a2) == Ld(Asm.Reg8(a1), Asm.Reg8(a2))
    ensures Agrees(EncLd(a1, a2), Load8(a1, a2), WrongForm(Asm.LD, a1, a2))
  {
    TablesAgree(a1);
    TablesAgree(a2);
    assert Asm.MemAddr(a1) == -1;
  }

  lemma NoSuchLoad(a1: Asm.Operand, a2: Asm.Operand)
    requires a1 != Asm.Bare(Asm.Kw(Asm.A)) && Asm.Reg8(a1) != -1 && Asm.Reg8(a2) == -1
    requires !a2.Num? && !a2.ParenNum? && !Asm.IsIndexed(a2)
    ensures Load8(a1, a2) == Nothing
  {
    TablesAgree(a1);
    TablesAgree(a2);
  }

  lemma MeansLdFromA(a1: Asm.Operand)
    requires Asm.Reg8(a1) == -1 && !a1.ParenNum? && !Asm.IsIndexed(a1)
    ensures Agrees(EncLdMem(a1, Asm.Bare(Asm.Kw(Asm.A))), LoadA(a1, Asm.Bare(Asm.Kw(Asm.A))), false)
  {
  }

  lemma MeansLdSp(a1: Asm.Operand, a2: Asm.Operand)
    requires Asm.GenLdMem(a1, a2).Code? && a2 != Asm.Bare(Asm.Kw(Asm.A)) && a1 != Asm.Bare(Asm.Kw(Asm.A))
    requires !a1.ParenNum? && !a2.Num? && !a2.ParenNum?
    ensures Agrees(EncLdMem(a1, a2), LoadA(a1, a2), false)
  {
  }

  lemma MeansLdPair(a1: Asm.Operand, a2: Asm.Operand)
    requires Asm.GenLd(a1, a2).Code? &&
      Asm.Reg8(a1) == -1 && !a1.ParenNum? && !Asm.IsIndexed(a1) && !a2.Num? && !a2.ParenNum? && !Asm.IsIndexed(a2)
    ensures Agrees(EncLd(a1, a2), Load8(a1, a2), WrongForm(Asm.LD, a1, a2))
  {
    PlainLoad(a1, a2);
    if a2 == Asm.Bare(Asm.Kw(Asm.A)) { MeansLdFromA(a1); } else { MeansLdSp(a1, a2); }
  }

  lemma MeansLd(a1: Asm.Operand, a2: Asm.Operand)
    requires Asm.GenLd(a1, a2).Code?
    ensures Agrees(EncLd(a1, a2), Load8(a1, a2), WrongForm(Asm.LD, a1, a2))
  {
    var acc := Asm.Bare(Asm.Kw(Asm.A));
    if Asm.IsIndexed(a1) { MeansLdToIndexed(a1, a2); }
    else if Asm.IsIndexed(a2) { MeansLdIndexed(a1, a2); }
    else if a2.Num? { if Asm.Reg8(a1) != -1 { MeansLdNumber(a1, a2); } else { MeansLdWord(a1, a2); } }
    else if a2.ParenNum? {
      if a1 in {acc, Asm.Bare(Asm.Kw(Asm.HL))} { MeansLdFrom(a1, a2); } else { MeansLdFromElse(a1, a2); }
    }
    else if a1.ParenNum? { MeansLdTo(a1, a2); }
    else if a1 == acc { MeansLdRegister(a1, a2); }
    else if Asm.Reg8(a1) != -1 && Asm.Reg8(a2) == -1 { NoSuchLoad(a1, a2); }
    else if Asm.Reg8(a1) != -1 && a1.Bare? { MeansLdBoth(a1, a2); }
    else if Asm.Reg8(a1) != -1 { if a2 == acc { MeansLdAToHl(a1, a2); } else { MeansLdToHl(a1, a2); } }
    else { MeansLdPair(a1, a2); }
  }

  lemma MeansCount(a: Asm.Operand, down: bool)
    requires Asm.GenCount(a, if down then 5 else 4, if down then 0x0B else 3, if down then 0x2B else 0x23).Code?
    ensures Agrees(EncCount(a, down), MeanCount(a, down), false)
  {
    TablesAgree(a);
  }

  lemma MeansAlu(op: int, a: Asm.Operand)
    requires 0 <= op < 8
    ensures Agrees(EncAlu(op, a), MeanAlu(op, a), AtIndex(a))
  {
    TablesAgree(a);
    if a.Num? { IntMods(a.v); }
  }

  lemma MeansAddIndex(a1: Asm.Operand, a2: Asm.Operand)
    requires Asm.GenAdd(a1, a2).Code? && IsX(a1)
    ensures Agrees(EncAdd(a1, a2), MeanAdd(a1, a2), false)
  {
  }

  lemma MeansAddPair(a1: Asm.Operand, a2: Asm.Operand)
    requires Asm.GenAdd(a1, a2).Code? && a1 != Asm.Bare(Asm.Kw(Asm.A))
    ensures Agrees(EncAdd(a1, a2), MeanAdd(a1, a2), WrongForm(Asm.ADD, a1, a2))
  {
    if IsX(a1) { MeansAddIndex(a1, a2); }
  }

  lemma MeansAdd(a1: Asm.Operand, a2: Asm.Operand)
    requires Asm.GenAdd(a1, a2).Code?
    ensures Agrees(EncAdd(a1, a2), MeanAdd(a1, a2), WrongForm(Asm.ADD, a1, a2))
  {
    if a1 == Asm.Bare(Asm.Kw(Asm.A)) { MeansAlu(0, a2); } else { MeansAddPair(a1, a2); }
  }

  lemma MeansStack(a: Asm.Operand, push: bool)
    requires Asm.GenStack(a, if push then 0xC5 else 0xC1, if push then 0xE5 else 0xE1).Code?
    ensures Agrees(EncStack(a, push), MeanStack(a, push), false)
  {
  }

  lemma MeansJpIf(a1: Asm.Operand, a2: Asm.Operand)
    requires Asm.GenJp(a1, a2).Code? && a2 != Asm.None
    ensures Agrees(EncJp(a1, a2), MeanJp(a1, a2), WrongForm(Asm.JP, a1, a2))
  {
    TablesAgree(a1);
    if a2.Num? { IntMods(a2.v); }
  }

  lemma MeansJp(a1: Asm.Operand, a2: Asm.Operand)
    requires Asm.GenJp(a1, a2).Code? && a2 == Asm.None
    ensures Agrees(EncJp(a1, a2), MeanJp(a1, a2), WrongForm(Asm.JP, a1, a2))
  {
    if a1.Num? { IntMods(a1.v); }
  }

  lemma MeansCall(a1: Asm.Operand, a2: Asm.Operand)
    requires Asm.GenCall(a1, a2).Code?
    ensures Agrees(EncCall(a1, a2), MeanCall(a1, a2), false)
  {
    TablesAgree(a1);
    if a1.Num? { IntMods(a1.v); }
    if a2.Num? { IntMods(a2.v); }
  }

  lemma ShiftedBy(a: int, n: int)
    requires -0x1_0000 < a < 0x1_0000
    ensures (a + n) % 0x1_0000 == n % 0x1_0000 <==> a == 0
  {
    var q, r := n / 0x1_0000, n % 0x1_0000;
    assert n == q * 0x1_0000 + r;
    if a + r < 0 {
      assert a + n == (q - 1) * 0x1_0000 + (a + r + 0x1_0000);
    } else if a + r < 0x1_0000 {
      assert a + n == q * 0x1_0000 + (a + r);
    } else {
      assert a + n == (q + 1) * 0x1_0000 + (a + r - 0x1_0000);
    }
  }

  /** A byte taken as the displacement lands on the address it names only from one place. */
  lemma LowLands(num: int, at: u16)
    requires -128 <= num <= 0xFF
    ensures Target(at, Displacement(num, at)) == U16(num) <==> at == if num < 0x80 then 0xFFFE else 0xFE
  {
    if num < 0x80 {
      assert Disp(num % 0x100) == num;
      if at < 0xFFFE { ShiftedBy(at + 2, num); } else { ShiftedBy(at + 2 - 0x1_0000, num); }
    } else {
      assert Disp(num % 0x100) == num - 0x100;
      ShiftedBy(at + 2 - 0x100, num);
    }
  }

  /** A distance always lands. */
  lemma FarLands(num: int, at: u16)
    requires -0x8000 <= num < 0x8000 && !(-128 <= num <= 0xFF) && -128 <= Asm.ToInt(num - (at + 2)) <= 127
    ensures Target(at, Displacement(num, at)) == U16(num)
  {
    var far := num - (at + 2);
    var offset := Asm.ToInt(far);
    IntMods(far);
    assert Disp(offset % 0x100) == offset;
    SameTarget(at + 2, far, offset);
  }

  lemma SameTarget(a: int, far: int, offset: int)
    requires offset == Asm.ToInt(far)
    ensures (a + offset) % 0x1_0000 == (a + far) % 0x1_0000
  {
    var q := far / 0x1_0000;
    assert far == q * 0x1_0000 + far % 0x1_0000;
    var k := if far % 0x1_0000 < 0x8000 then q else q + 1;
    assert far == offset + k * 0x1_0000;
    assert a + far == (a + offset) + k * 0x1_0000;
  }

  lemma MeansRel(at: u16, a: Asm.Operand)
    requires a.Num? && Asm.Rel(true, a, at).Code?
    ensures Target(at, Displacement(Asm.Strtol(a), at)) == a.v % 0x1_0000 <==> !LowJump(at, a)
  {
    var n := Asm.ToInt(a.v);
    IntMods(a.v);
    if -128 <= n <= 0xFF { LowLands(n, at); } else { FarLands(n, at); }
  }

  lemma MeansJr(at: u16, a1: Asm.Operand, a2: Asm.Operand)
    requires Asm.GenJr(true, at, a1, a2).Code?
    ensures Carries(at, EncJr(at, a1, a2), MeanJr(a1, a2), LowJump(at, if a2 == Asm.None then a1 else a2))
  {
    TablesAgree(a1);
    if a2 == Asm.None {
      if a1.Num? { MeansRel(at, a1); }
    } else if a2.Num? {
      MeansRel(at, a2);
    }
  }

  lemma MeansPort(read: bool, port: Asm.Operand)
    requires port != Asm.None
    ensures var n := Asm.Byte(Asm.MemAddr(port));
            Agrees(if read then InN(n) else OutN(n), MeanPort(read, Asm.Bare(Asm.Kw(Asm.A)), port),
                   port == Asm.Paren(Asm.Kw(Asm.C)))
  {
    if port.ParenNum? { IntMods(port.v); }
  }

  lemma MeansRst(a: Asm.Operand, a2: Asm.Operand)
    requires 0 <= Asm.Strtol(a) <= 0x38 && Asm.Strtol(a) % 8 == 0
    ensures Agrees(Rst(Asm.Strtol(a) / 8), MeaningOf(Asm.RST, a, a2), false)
  {
  }

  lemma MeansJump(at: u16, op: Asm.Op, a1: Asm.Operand, a2: Asm.Operand)
    requires op in {Asm.JP, Asm.JR, Asm.CALL, Asm.RET, Asm.DJNZ}
    requires Asm.Gen(true, at, op, a1, a2).Code? && VectorOk(op, a1)
    ensures Carries(at, Encoded(at, op, a1, a2), MeaningOf(op, a1, a2), Deviant(at, op, a1, a2))
  {
    match op
    case JP => if a2 == Asm.None { MeansJp(a1, a2); } else { MeansJpIf(a1, a2); }
    case JR => MeansJr(at, a1, a2);
    case CALL => MeansCall(a1, a2);
    case RET => TablesAgree(a1);
    case DJNZ => if a1.Num? { MeansRel(at, a1); }
  }

  lemma MeansStacked(at: u16, op: Asm.Op, a1: Asm.Operand, a2: Asm.Operand)
    requires op in {Asm.PUSH, Asm.POP, Asm.RST} && Asm.Gen(true, at, op, a1, a2).Code? && VectorOk(op, a1)
    ensures Carries(at, Encoded(at, op, a1, a2), MeaningOf(op, a1, a2), Deviant(at, op, a1, a2))
  {
    match op
    case PUSH => MeansStack(a1, true);
    case POP => MeansStack(a1, false);
    case RST => MeansRst(a1, a2);
  }

  lemma MeansTransfer(at: u16, op: Asm.Op, a1: Asm.Operand, a2: Asm.Operand)
    requires op in {Asm.IN, Asm.OUT, Asm.EX} && Asm.Gen(true, at, op, a1, a2).Code?
    ensures Carries(at, Encoded(at, op, a1, a2), MeaningOf(op, a1, a2), Deviant(at, op, a1, a2))
  {
    match op
    case IN => MeansPort(true, a2);
    case OUT => MeansPort(false, a1);
    case EX =>
  }

  lemma MeansArith(at: u16, op: Asm.Op, a1: Asm.Operand, a2: Asm.Operand)
    requires op in {Asm.INC, Asm.DEC, Asm.ADD, Asm.ADC, Asm.SUB, Asm.SBC, Asm.AND, Asm.XOR, Asm.OR, Asm.CP}
    requires Asm.Gen(true, at, op, a1, a2).Code?
    ensures Carries(at, Encoded(at, op, a1, a2), MeaningOf(op, a1, a2), Deviant(at, op, a1, a2))
  {
    match op
    case INC => MeansCount(a1, false);
    case DEC => MeansCount(a1, true);
    case ADD => MeansAdd(a1, a2);
    case ADC => MeansAlu(1, a2);
    case SUB => MeansAlu(2, a1);
    case SBC => MeansAlu(3, a2);
    case AND => MeansAlu(4, a1);
    case XOR => MeansAlu(5, a1);
    case OR => MeansAlu(6, a1);
    case CP => MeansAlu(7, a1);
  }

  /** A line that assembles carries its own meaning if and only if it is not deviant. */
  lemma LineMeans(at: u16, op: Asm.Op, a1: Asm.Operand, a2: Asm.Operand)
    requires Asm.Gen(true, at, op, a1, a2).Code? && VectorOk(op, a1)
    ensures Carries(at, Encoded(at, op, a1, a2), MeaningOf(op, a1, a2), Deviant(at, op, a1, a2))
  {
    match op
    case LD => MeansLd(a1, a2);
    case INC | DEC | ADD | ADC | SUB | SBC | AND | XOR | OR | CP => MeansArith(at, op, a1, a2);
    case JP | JR | CALL | RET | DJNZ => MeansJump(at, op, a1, a2);
    case PUSH | POP | RST => MeansStacked(at, op, a1, a2);
    case IN | OUT | EX => MeansTransfer(at, op, a1, a2);
    case _ =>
  }

  /** So `JR 0x50` at address 0x10 goes to 0x62. */
  lemma LowJumpStrays(mem: Mem)
    requires Holds(mem, 0x10, [0x18, 0x50])
    ensures Asm.Gen(true, 0x10, Asm.JR, Asm.Num(0x50), Asm.None) == Asm.Code([0x18, 0x50])
    ensures Deviant(0x10, Asm.JR, Asm.Num(0x50), Asm.None)
    ensures Branches(Decode(mem, 0x10).i, Always, 0x10, 0x62)
  {
    assert Asm.GenJr(true, 0x10, Asm.Num(0x50), Asm.None) == Asm.Code([0x18, 0x50]);
    DecJr(mem, 0x10, Asm.Num(0x50), Asm.None);
  }

  lemma HighByte(mem: Mem, at: u16, n: int, y: int, z: int)
    requires 0 <= n <= 0x38 && 0 <= y < 8 && 0 <= z < 8 && 7 + n == 8 * y + z && B(mem, at) == 0xC7 + n
    ensures Decode(mem, at).i.Rst? <==> n % 8 == 0
    ensures n == 3 ==> Decode(mem, at).len == 3
  {
    DecodesHigh(mem, at, y, z);
    HighRst(mem, at + 1, y, z);
  }

  lemma HighRst(mem: Mem, a: int, y: int, z: int)
    requires 0 <= y < 8 && 0 <= z < 8 && (0xC0 + 8 * y + z) / 8 % 8 == y && (0xC0 + 8 * y + z) % 8 == z
    ensures var d := Group3(0xC0 + 8 * y + z, mem, a); (d.i.Rst? <==> z == 7) && (z == 2 ==> d.len == 3)
  {
  }

  /** Any other RST operand up to 0x38 assembles too, but into another instruction. */
  lemma VectorsNeeded(mem: Mem, at: u16, n: int)
    requires 0 <= n <= 0x38 && Holds(mem, at, [0xC7 + n])
    ensures Asm.Gen(true, at, Asm.RST, Asm.Num(n), Asm.None) == Asm.Code([0xC7 + n])
    ensures Decode(mem, at).i.Rst? <==> VectorOk(Asm.RST, Asm.Num(n))
    ensures n == 3 ==> Decode(mem, at).len == 3
  {
    Fetches(mem, at, [0xC7 + n]);
    HighByte(mem, at, n, (7 + n) / 8, (7 + n) % 8);
  }
}
