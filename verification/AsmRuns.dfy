/**
 Assembled lines on the emulator: stepping over the bytes of a line does to the machine what the line says,
 with registers, conditions and operands taken from its words.
 */
module AsmRuns {
  import opened Machine
  import opened Z80Alu
  import opened Z80
  import opened Z80Exec
  import opened Z80Ops
  import opened AsmWords
  import opened AsmDecode
  import opened AsmMeaning
  import Z80Stack
  import Asm

  // ---- what a line does ------------------------------------------------------------------------------------------

  /** One of the operands is a byte register, or a number goes to a byte of memory. */
  predicate ByteLoad(a1: Asm.Operand, a2: Asm.Operand) {
    InRegister(a1) || InRegister(a2) || (a2.Num? && InMemory(a1) && !a1.ParenNum?)
  }

  ghost predicate LoadRuns(a1: Asm.Operand, a2: Asm.Operand, x: Mach, r: Mach) {
    if ByteLoad(a1, a2) then
      (InRegister(a1) || InMemory(a1)) && Readable(a2) && Writes8(x, a1, Read8(x, a2), r)
    else if InPair(a1) then
      if a2.Num? then Puts16(x, a1.n.w, a2.v % 0x1_0000, r)
      else if a2.ParenNum? then Puts16(x, a1.n.w, MRead16(x.mem, a2.v % 0x1_0000), r)
      else InPair(a2) && Puts16(x, a1.n.w, Get16(x.cpu, a2.n.w), r)
    else
      a1.ParenNum? && InPair(a2) && r == x.(mem := MWrite16(x.mem, x.rom, a1.v % 0x1_0000, Get16(x.cpu, a2.n.w)))
  }

  /** INC and DEC, of a byte with its flags, or of a pair without. */
  ghost predicate CountRuns(a: Asm.Operand, d: int, x: Mach, r: Mach) {
    if InPair(a) then Puts16(x, a.n.w, Wrap(Get16(x.cpu, a.n.w) + d), r)
    else
      && (InRegister(a) || InMemory(a))
      && exists v: byte ::
           Counted(x.cpu.f, Read8(x, a), d, v, r.cpu.f) && Writes8(WithFlags(x, r.cpu.f), a, v, r)
  }

  /** The eight operations on A and an operand. */
  ghost predicate AluRuns(op: Asm.Op, a: Asm.Operand, x: Mach, r: Mach) {
    && Readable(a) && Puts8(WithFlags(x, r.cpu.f), Asm.A, r.cpu.regs[RA], r)
    && var (u, v, w, f, g) := (x.cpu.regs[RA], Read8(x, a), r.cpu.regs[RA], x.cpu.f, r.cpu.f);
    match op
    case ADD => Added(u, v, 0, w, g)
    case ADC => Added(u, v, Carry(f), w, g)
    case SUB => Subtracted(u, v, 0, w, g)
    case SBC => Subtracted(u, v, Carry(f), w, g)
    case AND => Conjoined(u, v, w) && LogicFlags(w, g)
    case XOR => Differing(u, v, w) && LogicFlags(w, g)
    case OR => Disjoined(u, v, w) && LogicFlags(w, g)
    case CP => w == u && Compared(u, v, g)
    case _ => false
  }

  /** ADD of two pairs: the sum, its carry, and the other flags kept. */
  ghost predicate AddRuns(a1: Asm.Operand, a2: Asm.Operand, x: Mach, r: Mach) {
    && InPair(a1) && InPair(a2)
    && var sum := Get16(x.cpu, a1.n.w) + Get16(x.cpu, a2.n.w);
    && Puts16(WithFlags(x, r.cpu.f), a1.n.w, Wrap(sum), r)
    && (r.cpu.f.c <==> sum >= 0x1_0000) && !r.cpu.f.n && SameSzp(x.cpu.f, r.cpu.f)
  }

  function Pushing(x: Mach, v: u16): Mach {
    var sp := Wrap(x.cpu.sp - 2);
    x.(cpu := x.cpu.(sp := sp), mem := MWrite16(x.mem, x.rom, sp, v))
  }

  function Popping(x: Mach): Mach { x.(cpu := x.cpu.(sp := Wrap(x.cpu.sp + 2))) }

  function At(x: Mach, pc: u16): Mach { x.(cpu := x.cpu.(pc := pc)) }

  /** Is the condition in front of the target met, if there is one? */
  predicate Taken(a1: Asm.Operand, conditional: bool, f: Flags) {
    conditional ==> a1.Bare? && a1.n.Kw? && IsCond(a1.n.w) && Met(a1.n.w, f)
  }

  ghost predicate JumpRuns(a1: Asm.Operand, a2: Asm.Operand, x: Mach, r: Mach) {
    var to := if a2 == Asm.None then a1 else a2;
    if to.Num? then r == if Taken(a1, a2 != Asm.None, x.cpu.f) then At(x, to.v % 0x1_0000) else x
    else to.Paren? && to.n.Kw? && IsPair(to.n.w) && r == At(x, Get16(x.cpu, to.n.w))
  }

  ghost predicate CallRuns(a1: Asm.Operand, a2: Asm.Operand, x: Mach, r: Mach) {
    var to := if a2 == Asm.None then a1 else a2;
    && to.Num?
    && r == if Taken(a1, a2 != Asm.None, x.cpu.f) then At(Pushing(x, x.cpu.pc), to.v % 0x1_0000) else x
  }

  /** B counts down, and the jump is taken until it is 0. */
  ghost predicate DjnzRuns(a: Asm.Operand, x: Mach, r: Mach) {
    var b: byte := (Get8(x.cpu, Asm.B) as int - 1) % 256;
    a.Num? && Puts8(if b != 0 then At(x, a.v % 0x1_0000) else x, Asm.B, b, r)
  }

  /** Two pairs change places, and nothing else changes. */
  ghost predicate Swapped(x: Mach, u: Asm.Word, v: Asm.Word, r: Mach)
    requires IsPair(u) && IsPair(v)
  {
    && Get16(r.cpu, u) == Get16(x.cpu, v) && Get16(r.cpu, v) == Get16(x.cpu, u)
    && (forall w: Asm.Word :: IsPair(w) && w != u && w != v ==> Get16(r.cpu, w) == Get16(x.cpu, w))
    && r == x.(cpu := x.cpu.(regs := r.cpu.regs))
  }

  /** EX AF,AF', EX DE,HL and the exchange of a pair with the word on the stack. */
  ghost predicate ExRuns(a1: Asm.Operand, a2: Asm.Operand, x: Mach, r: Mach) {
    if a1 == Asm.Bare(Asm.Kw(Asm.DE)) then Swapped(x, Asm.DE, Asm.HL, r)
    else if a1 == Asm.Bare(Asm.Kw(Asm.AF)) then
      && r.cpu.regs[RA] == x.cpu.shadow[RA] && r.cpu.f == x.cpu.sf
      && r.cpu.shadow == x.cpu.shadow[RA := x.cpu.regs[RA]] && r.cpu.sf == x.cpu.f
      && Puts8(x.(cpu := x.cpu.(f := r.cpu.f, sf := r.cpu.sf, shadow := r.cpu.shadow)), Asm.A, x.cpu.shadow[RA], r)
    else
      && a1 == Asm.Paren(Asm.Kw(Asm.SP)) && InPair(a2)
      && r.mem == MWrite16(x.mem, x.rom, x.cpu.sp, Get16(x.cpu, a2.n.w))
      && Puts16(x.(cpu := x.cpu.(wz := r.cpu.wz), mem := r.mem), a2.n.w, MRead16(x.mem, x.cpu.sp), r)
  }

  /** EXX: BC, DE and HL change places with the shadow set. */
  ghost predicate ExxRuns(x: Mach, r: Mach) {
    && r == x.(cpu := x.cpu.(regs := r.cpu.regs, shadow := r.cpu.shadow))
    && (forall i :: 0 <= i < 6 ==> r.cpu.regs[i] == x.cpu.shadow[i] && r.cpu.shadow[i] == x.cpu.regs[i])
    && r.cpu.regs[RA] == x.cpu.regs[RA] && r.cpu.shadow[RA] == x.cpu.shadow[RA]
  }

  ghost predicate OnlyA(y: int, x: Mach, r: Mach) {
    && Puts8(WithFlags(x, r.cpu.f), Asm.A, r.cpu.regs[RA], r)
    && AccumulatorMeans(y, x.cpu.f, x.cpu.regs[RA], r.cpu.regs[RA], r.cpu.f)
  }

  /** The instructions without operands. */
  ghost predicate PlainRuns(op: Asm.Op, x: Mach, r: Mach) {
    match op
    case NOP => r == x
    case HALT => r == x.(cpu := x.cpu.(halt := true))
    case DI => r == x.(cpu := x.cpu.(iff1 := false, iff2 := false))
    case EI => r == x.(cpu := x.cpu.(iff1 := true, iff2 := true))
    case RLCA => OnlyA(0, x, r)
    case RRCA => OnlyA(1, x, r)
    case RLA => OnlyA(2, x, r)
    case RRA => OnlyA(3, x, r)
    case CPL => OnlyA(5, x, r)
    case SCF => OnlyA(6, x, r)
    case CCF => OnlyA(7, x, r)
    case EXX => ExxRuns(x, r)
    case _ => false
  }

  ghost predicate RetRuns(a: Asm.Operand, x: Mach, r: Mach) {
    r == if Taken(a, a != Asm.None, x.cpu.f) then At(Popping(x), MRead16(x.mem, x.cpu.sp)) else x
  }

  /**
   What a line does, from the state `x` after its fetch: the effect by the words of its operands. DAA and the
   port instructions are not covered.
   */
  ghost predicate Runs(op: Asm.Op, a1: Asm.Operand, a2: Asm.Operand, x: Mach, r: Mach) {
    match op
    case LD => LoadRuns(a1, a2, x, r)
    case INC => CountRuns(a1, 1, x, r)
    case DEC => CountRuns(a1, -1, x, r)
    case ADD => if a1 == Asm.Bare(Asm.Kw(Asm.A)) then AluRuns(op, a2, x, r) else AddRuns(a1, a2, x, r)
    case ADC | SBC => AluRuns(op, a2, x, r)
    case SUB | AND | XOR | OR | CP => AluRuns(op, a1, x, r)
    case PUSH => InPair(a1) && r == Pushing(x, Get16(x.cpu, a1.n.w))
    case POP => InPair(a1) && Puts16(Popping(x), a1.n.w, MRead16(x.mem, x.cpu.sp), r)
    case RST => a1.Num? && r == At(Pushing(x, x.cpu.pc), a1.v % 0x1_0000)
    case JP | JR => JumpRuns(a1, a2, x, r)
    case CALL => CallRuns(a1, a2, x, r)
    case RET => RetRuns(a1, x, r)
    case DJNZ => DjnzRuns(a1, x, r)
    case EX => ExRuns(a1, a2, x, r)
    case _ => PlainRuns(op, x, r)
  }

  // ---- executing by groups ------------------------------------------------------------------------------------------

  /** Executing `i` in `x` leads to `r`, by the group `i` belongs to. */
  ghost predicate ByLoad(x: Mach, i: Instr, r: Mach) {
    if i.Index? then r == ExecIndex(x, i.reg, i.x) else r == ExecLoad(x, i)
  }

  ghost predicate ByArith(x: Mach, i: Instr, r: Mach) {
    if i.Index? then r == ExecIndex(x, i.reg, i.x) else r == ExecArith(x, i)
  }

  ghost predicate ByControl(x: Mach, i: Instr, r: Mach) {
    if i.Index? then r == ExecIndex(x, i.reg, i.x) else r == ExecControl(x, i)
  }

  predicate IsControl(i: Instr) { !i.Block? && !i.Cb? && !i.Index? && !IsLoad(i) && !IsArith(i) }

  lemma Loads(x: Mach, i: Instr, r: Mach)
    requires (i.Index? || IsLoad(i)) && Same(r, Exec(x, i))
    ensures Fact(ByLoad(x, i, r))
  {
  }

  lemma ArithAlone(i: Instr)
    requires IsArith(i)
    ensures !IsLoad(i) && !i.Block? && !i.Cb? && !i.Index?
  {
  }

  lemma Computes(x: Mach, i: Instr, r: Mach)
    requires (i.Index? || IsArith(i)) && Same(r, Exec(x, i))
    ensures Fact(ByArith(x, i, r))
  {
    if IsArith(i) { ArithAlone(i); }
  }

  lemma Controls(x: Mach, i: Instr, r: Mach)
    requires (i.Index? || IsControl(i)) && Same(r, Exec(x, i))
    ensures Fact(ByControl(x, i, r))
  {
  }

  // ---- operands ----------------------------------------------------------------------------------------------------

  /** The numbered registers are the named ones. */
  lemma RegReads(x: Mach, a: Asm.Operand)
    requires RegNo(a) != -1
    ensures (InRegister(a) || a == Asm.Paren(Asm.Kw(Asm.HL))) && GetR(x, RegNo(a)) == Read8(x, a)
    ensures InRegister(a) ==> RegNo(a) == Place(a.n.w)
  {
    if InRegister(a) { Placed(x.cpu, a.n.w); }
  }

  lemma RegWrites(x: Mach, a: Asm.Operand, v: byte)
    requires RegNo(a) != -1
    ensures (InRegister(a) || InMemory(a)) && Writes8(x, a, v, SetR(x, RegNo(a), v))
  {
    RegReads(x, a);
    if InRegister(a) { SetsRegister(x, a.n.w, v); }
  }

  lemma IndexAddress(c: Cpu, a: Asm.Operand)
    requires AtIndex(a)
    ensures InMemory(a) && Address(c, a) == Wrap(GetIndex(c, XReg(a)) + Disp(a.disp % 0x100))
  {
    assert Disp(a.disp % 0x100) == a.disp;
  }

  // ---- loads --------------------------------------------------------------------------------------------------------

  lemma LdRegister(a1: Asm.Operand, a2: Asm.Operand, x: Mach)
    requires RegNo(a1) != -1 && RegNo(a2) != -1 && !(RegNo(a1) == 6 && RegNo(a2) == 6)
    ensures Fact(LoadRuns(a1, a2, x, ExecLoad(x, Ld(RegNo(a1), RegNo(a2)))))
  {
    RegReads(x, a1);
    RegReads(x, a2);
    RegWrites(x, a1, Read8(x, a2));
  }

  lemma LdNumber(a1: Asm.Operand, a2: Asm.Operand, x: Mach)
    requires RegNo(a1) != -1 && a2.Num?
    ensures Fact(LoadRuns(a1, a2, x, ExecLoad(x, LdImm(RegNo(a1), a2.v % 0x100))))
  {
    RegReads(x, a1);
    RegWrites(x, a1, a2.v % 0x100);
  }

  lemma IndexLoads(x: Mach, reg: IndexReg, n: int, e: byte)
    ensures Same(ExecIndex(x, reg, XLdR(n, e)), SetR(x, n, MRead8(x.mem, Wrap(GetIndex(x.cpu, reg) + Disp(e)))))
  {
  }

  lemma LoadedByte(a1: Asm.Operand, a2: Asm.Operand, x: Mach, v: byte, r: Mach)
    requires RegNo(a1) != -1 && RegNo(a1) != 6 && Readable(a2) && v == Read8(x, a2)
    requires Same(r, SetR(x, RegNo(a1), v))
    ensures Fact(LoadRuns(a1, a2, x, r))
  {
    RegReads(x, a1);
    RegWrites(x, a1, v);
  }

  lemma LdFromIndex(a1: Asm.Operand, a2: Asm.Operand, x: Mach)
    requires RegNo(a1) != -1 && RegNo(a1) != 6 && AtIndex(a2)
    ensures Fact(LoadRuns(a1, a2, x, ExecIndex(x, XReg(a2), XLdR(RegNo(a1), a2.disp % 0x100))))
  {
    IndexAddress(x.cpu, a2);
    IndexLoads(x, XReg(a2), RegNo(a1), a2.disp % 0x100);
    LoadedByte(a1, a2, x, Read8(x, a2), ExecIndex(x, XReg(a2), XLdR(RegNo(a1), a2.disp % 0x100)));
  }

  lemma LdToIndex(a1: Asm.Operand, a2: Asm.Operand, x: Mach)
    requires AtIndex(a1) && RegNo(a2) != -1 && RegNo(a2) != 6
    ensures Fact(LoadRuns(a1, a2, x, ExecIndex(x, XReg(a1), XStR(a1.disp % 0x100, RegNo(a2)))))
  {
    IndexAddress(x.cpu, a1);
    RegReads(x, a2);
  }

  lemma LdNumberToIndex(a1: Asm.Operand, a2: Asm.Operand, x: Mach)
    requires AtIndex(a1) && a2.Num?
    ensures Fact(LoadRuns(a1, a2, x, ExecIndex(x, XReg(a1), XLdMImm(a1.disp % 0x100, a2.v % 0x100))))
  {
    IndexAddress(x.cpu, a1);
  }

  lemma LdA(a2: Asm.Operand, x: Mach)
    requires a2 in {Asm.Paren(Asm.Kw(Asm.BC)), Asm.Paren(Asm.Kw(Asm.DE))} || a2.ParenNum?
    ensures var a1 := Asm.Bare(Asm.Kw(Asm.A)); LoadA(a1, a2).Means? && LoadRuns(a1, a2, x, ExecLoad(x, LoadA(a1, a2).i))
  {
    SetsRegister(x, Asm.A, Read8(x, a2));
  }

  lemma StA(a1: Asm.Operand, x: Mach)
    requires a1 in {Asm.Paren(Asm.Kw(Asm.BC)), Asm.Paren(Asm.Kw(Asm.DE))} || a1.ParenNum?
    ensures var a2 := Asm.Bare(Asm.Kw(Asm.A)); LoadA(a1, a2).Means? && LoadRuns(a1, a2, x, ExecLoad(x, LoadA(a1, a2).i))
  {
  }

  /** A pair that the 16-bit loads know by number. */
  function PairNo(a: Asm.Operand): int { if a == Asm.Bare(Asm.Kw(Asm.HL)) then 2 else Pairing(a) }

  lemma PairReads(x: Mach, a: Asm.Operand)
    requires PairNo(a) != -1
    ensures InPair(a) && !InRegister(a) && Get1(x.cpu, PairNo(a)) == Get16(x.cpu, a.n.w)
  {
  }

  lemma PairWrites(x: Mach, a: Asm.Operand, v: u16)
    requires PairNo(a) != -1
    ensures InPair(a) && Puts16(x, a.n.w, v, x.(cpu := Set1(x.cpu, PairNo(a), v)))
  {
    SetsPair(x, a.n.w, v);
  }

  lemma IndexWrites(x: Mach, a: Asm.Operand, v: u16)
    requires IsX(a)
    ensures InPair(a) && Puts16(x, a.n.w, v, x.(cpu := SetIndex(x.cpu, XReg(a), v)))
    ensures GetIndex(x.cpu, XReg(a)) == Get16(x.cpu, a.n.w) && !InRegister(a)
  {
    SetsIndex(x, a.n.w, v);
  }

  lemma LdPairNumber(a1: Asm.Operand, a2: Asm.Operand, x: Mach)
    requires PairNo(a1) != -1 && a2.Num?
    ensures Fact(LoadRuns(a1, a2, x, ExecLoad(x, LdPair(PairNo(a1), a2.v % 0x1_0000))))
  {
    PairReads(x, a1);
    PairWrites(x, a1, a2.v % 0x1_0000);
  }

  lemma LdHlFrom(a1: Asm.Operand, a2: Asm.Operand, x: Mach)
    requires a1 == Asm.Bare(Asm.Kw(Asm.HL)) && a2.ParenNum?
    ensures Fact(LoadRuns(a1, a2, x, ExecLoad(x, LdHlMem(a2.v % 0x1_0000))))
  {
    PairWrites(x, a1, MRead16(x.mem, a2.v % 0x1_0000));
  }

  lemma LdPairFrom(a1: Asm.Operand, a2: Asm.Operand, x: Mach)
    requires Pairing(a1) != -1 && a2.ParenNum?
    ensures Fact(LoadRuns(a1, a2, x, ExecLoad(x, LdPairMem(Pairing(a1), a2.v % 0x1_0000))))
  {
    var v := MRead16(x.mem, a2.v % 0x1_0000);
    PairReads(x, a1);
    PairWrites(x, a1, v);
    assert ExecLoad(x, LdPairMem(Pairing(a1), a2.v % 0x1_0000)) == x.(cpu := Set1(x.cpu, PairNo(a1), v));
  }

  lemma LdIndexPair(a1: Asm.Operand, a2: Asm.Operand, x: Mach)
    requires IsX(a1) && (a2.Num? || a2.ParenNum?)
    ensures var nn := a2.v % 0x1_0000;
            LoadRuns(a1, a2, x, ExecIndex(x, XReg(a1), if a2.Num? then XLd(nn) else XLdMem(nn)))
  {
    var nn: u16 := a2.v % 0x1_0000;
    IndexWrites(x, a1, if a2.Num? then nn else MRead16(x.mem, nn));
  }

  lemma StPair(a1: Asm.Operand, a2: Asm.Operand, x: Mach)
    requires a1.ParenNum? && PairNo(a2) != -1
    ensures var nn := a1.v % 0x1_0000;
            LoadRuns(a1, a2, x, ExecLoad(x, if PairNo(a2) == 2 then StHlMem(nn) else StPairMem(Pairing(a2), nn)))
  {
    var nn: u16 := a1.v % 0x1_0000;
    PairReads(x, a2);
  }

  lemma StIndexPair(a1: Asm.Operand, a2: Asm.Operand, x: Mach)
    requires a1.ParenNum? && IsX(a2)
    ensures Fact(LoadRuns(a1, a2, x, ExecIndex(x, XReg(a2), XSt(a1.v % 0x1_0000))))
  {
    IndexWrites(x, a2, 0);
  }

  lemma SpLoaded(a2: Asm.Operand, x: Mach, v: u16, r: Mach)
    requires InPair(a2) && v == Get16(x.cpu, a2.n.w) && Same(r, x.(cpu := x.cpu.(sp := v)))
    ensures Fact(LoadRuns(Asm.Bare(Asm.Kw(Asm.SP)), a2, x, r))
  {
    SetsPair(x, Asm.SP, v);
  }

  lemma LdSp(a2: Asm.Operand, x: Mach)
    requires a2 == Asm.Bare(Asm.Kw(Asm.HL))
    ensures Fact(LoadRuns(Asm.Bare(Asm.Kw(Asm.SP)), a2, x, ExecLoad(x, LdSpHl)))
  {
    SpLoaded(a2, x, Hl(x.cpu), ExecLoad(x, LdSpHl));
  }

  lemma LdSpIndex(a2: Asm.Operand, x: Mach)
    requires IsX(a2)
    ensures Fact(LoadRuns(Asm.Bare(Asm.Kw(Asm.SP)), a2, x, ExecIndex(x, XReg(a2), XLdSp)))
  {
    IndexWrites(x, a2, 0);
    SpLoaded(a2, x, GetIndex(x.cpu, XReg(a2)), ExecIndex(x, XReg(a2), XLdSp));
  }

  lemma LoadNumberDoes(a1: Asm.Operand, a2: Asm.Operand, x: Mach, i: Instr, r: Mach)
    requires a2.Num? && Load16(a1, a2) == Means(i) && Fact(ByLoad(x, i, r))
    ensures Fact(LoadRuns(a1, a2, x, r))
  {
    if IsX(a1) { LdIndexPair(a1, a2, x); } else { LdPairNumber(a1, a2, x); }
  }

  lemma LoadFromDoes(a1: Asm.Operand, a2: Asm.Operand, x: Mach, i: Instr, r: Mach)
    requires a2.ParenNum? && Load16(a1, a2) == Means(i) && Fact(ByLoad(x, i, r))
    ensures Fact(LoadRuns(a1, a2, x, r))
  {
    if a1 == Asm.Bare(Asm.Kw(Asm.HL)) { LdHlFrom(a1, a2, x); }
    else if Pairing(a1) != -1 { LdPairFrom(a1, a2, x); }
    else { LdIndexPair(a1, a2, x); }
  }

  lemma Load16Does(a1: Asm.Operand, a2: Asm.Operand, x: Mach, i: Instr, r: Mach)
    requires Load16(a1, a2) == Means(i) && Fact(ByLoad(x, i, r))
    ensures Fact(LoadRuns(a1, a2, x, r))
  {
    if a2.Num? { LoadNumberDoes(a1, a2, x, i, r); }
    else if a2.ParenNum? { LoadFromDoes(a1, a2, x, i, r); }
    else if a1.ParenNum? { if IsX(a2) { StIndexPair(a1, a2, x); } else { StPair(a1, a2, x); } }
    else if IsX(a2) { LdSpIndex(a2, x); }
    else { LdSp(a2, x); }
  }

  lemma LoadADoes(a1: Asm.Operand, a2: Asm.Operand, x: Mach, i: Instr, r: Mach)
    requires LoadA(a1, a2) == Means(i) && Fact(ByLoad(x, i, r))
    ensures Fact(LoadRuns(a1, a2, x, r))
  {
    var acc := Asm.Bare(Asm.Kw(Asm.A));
    if a1 == acc {
      LdA(a2, x);
    } else if a2 == acc {
      StA(a1, x);
    } else {
      Load16Does(a1, a2, x, i, r);
    }
  }

  lemma LoadDoes(a1: Asm.Operand, a2: Asm.Operand, x: Mach, i: Instr, r: Mach)
    requires Load8(a1, a2) == Means(i) && Fact(ByLoad(x, i, r))
    ensures Fact(LoadRuns(a1, a2, x, r))
  {
    var n, k := RegNo(a1), RegNo(a2);
    if n != -1 && k != -1 {
      LdRegister(a1, a2, x);
    } else if n != -1 && a2.Num? {
      LdNumber(a1, a2, x);
    } else if n != -1 && n != 6 && AtIndex(a2) {
      LdFromIndex(a1, a2, x);
    } else if AtIndex(a1) && k != -1 && k != 6 {
      LdToIndex(a1, a2, x);
    } else if AtIndex(a1) && a2.Num? {
      LdNumberToIndex(a1, a2, x);
    } else {
      LoadADoes(a1, a2, x, i, r);
    }
  }

  // ---- counting and arithmetic -------------------------------------------------------------------------------------

  function Count8(f: Flags, v: byte, d: int): (byte, Flags) { if d < 0 then Dec8(f, v) else Inc8(f, v) }

  lemma ArithCounts(x: Mach, n: int, d: int)
    ensures var (w, g) := Count8(x.cpu.f, GetR(x, n), d);
            ExecArith(x, if d < 0 then Dec(n) else Inc(n)) == SetR(WithFlags(x, g), n, w)
  {
  }

  lemma IndexCounts(x: Mach, reg: IndexReg, e: byte, d: int)
    ensures var at := Wrap(GetIndex(x.cpu, reg) + Disp(e));
            var (w, g) := Count8(x.cpu.f, MRead8(x.mem, at), d);
            ExecIndex(x, reg, if d < 0 then XDecM(e) else XIncM(e)) == SetMem8(WithFlags(x, g), at, w)
  {
  }

  lemma IndexCountsPair(x: Mach, reg: IndexReg, d: int)
    requires d == 1 || d == -1
    ensures ExecIndex(x, reg, if d < 0 then XDec else XInc)
         == x.(cpu := SetIndex(x.cpu, reg, Wrap(GetIndex(x.cpu, reg) + d)))
  {
  }

  lemma CountedBy(a: Asm.Operand, d: int, x: Mach, r: Mach, w: byte, g: Flags)
    requires (InRegister(a) || InMemory(a)) && Counted(x.cpu.f, Read8(x, a), d, w, g)
    requires Writes8(WithFlags(x, g), a, w, r)
    ensures Fact(CountRuns(a, d, x, r))
  {
    assert r.cpu.f == g;
  }

  lemma CountRegister(a: Asm.Operand, d: int, x: Mach, r: Mach)
    requires RegNo(a) != -1 && (d == 1 || d == -1)
    requires r == ExecArith(x, if d < 0 then Dec(RegNo(a)) else Inc(RegNo(a)))
    ensures Fact(CountRuns(a, d, x, r))
  {
    var (w, g) := Count8(x.cpu.f, GetR(x, RegNo(a)), d);
    RegReads(x, a);
    CountsByte(x.cpu.f, Read8(x, a));
    RegWrites(WithFlags(x, g), a, w);
    ArithCounts(x, RegNo(a), d);
    CountedBy(a, d, x, r, w, g);
  }

  lemma SameAddress(x: Mach, a: Asm.Operand, g: Flags)
    requires AtIndex(a)
    ensures InMemory(a) && Address(WithFlags(x, g).cpu, a) == Address(x.cpu, a)
  {
  }

  lemma CountIndex(a: Asm.Operand, d: int, x: Mach, r: Mach)
    requires AtIndex(a) && (d == 1 || d == -1)
    requires r == ExecIndex(x, XReg(a), if d < 0 then XDecM(a.disp % 0x100) else XIncM(a.disp % 0x100))
    ensures Fact(CountRuns(a, d, x, r))
  {
    IndexAddress(x.cpu, a);
    var (w, g) := Count8(x.cpu.f, Read8(x, a), d);
    CountsByte(x.cpu.f, Read8(x, a));
    IndexCounts(x, XReg(a), a.disp % 0x100, d);
    SameAddress(x, a, g);
    CountedBy(a, d, x, r, w, g);
  }

  lemma ArithCountsPair(x: Mach, p: int, d: int)
    requires d == 1 || d == -1
    ensures Same(ExecArith(x, if d < 0 then DecPair(p) else IncPair(p)),
                 x.(cpu := Set1(x.cpu, p, Wrap(Get1(x.cpu, p) + d))))
  {
  }

  lemma PairCounted(a: Asm.Operand, d: int, x: Mach, v: u16, r: Mach)
    requires PairNo(a) != -1 && v == Wrap(Get1(x.cpu, PairNo(a)) + d)
    requires Same(r, x.(cpu := Set1(x.cpu, PairNo(a), v)))
    ensures Fact(CountRuns(a, d, x, r))
  {
    PairReads(x, a);
    PairWrites(x, a, v);
  }

  lemma CountPair(a: Asm.Operand, d: int, x: Mach, r: Mach)
    requires PairNo(a) != -1 && (d == 1 || d == -1)
    requires r == ExecArith(x, if d < 0 then DecPair(PairNo(a)) else IncPair(PairNo(a)))
    ensures Fact(CountRuns(a, d, x, r))
  {
    ArithCountsPair(x, PairNo(a), d);
    PairCounted(a, d, x, Wrap(Get1(x.cpu, PairNo(a)) + d), r);
  }

  lemma CountIndexPair(a: Asm.Operand, d: int, x: Mach, r: Mach)
    requires IsX(a) && (d == 1 || d == -1) && r == ExecIndex(x, XReg(a), if d < 0 then XDec else XInc)
    ensures Fact(CountRuns(a, d, x, r))
  {
    IndexCountsPair(x, XReg(a), d);
    IndexWrites(x, a, Wrap(Get16(x.cpu, a.n.w) + d));
  }

  lemma CountDoes(a: Asm.Operand, down: bool, x: Mach, i: Instr, r: Mach)
    requires MeanCount(a, down) == Means(i) && Fact(ByArith(x, i, r))
    ensures Fact(CountRuns(a, if down then -1 else 1, x, r))
  {
    var d := if down then -1 else 1;
    if RegNo(a) != -1 { CountRegister(a, d, x, r); }
    else if PairNo(a) != -1 { CountPair(a, d, x, r); }
    else if IsX(a) { CountIndexPair(a, d, x, r); }
    else { CountIndex(a, d, x, r); }
  }

  /** The number of an operation on A. */
  function AluNo(op: Asm.Op): int {
    match op
    case ADD => 0
    case ADC => 1
    case SUB => 2
    case SBC => 3
    case AND => 4
    case XOR => 5
    case OR => 6
    case CP => 7
    case _ => -1
  }

  lemma AluRan(op: Asm.Op, a: Asm.Operand, x: Mach, w: byte, g: Flags, r: Mach)
    requires AluNo(op) != -1 && Readable(a) && Puts8(WithFlags(x, g), Asm.A, w, r)
    requires AluMeans(AluNo(op), x.cpu.f, x.cpu.regs[RA], Read8(x, a), w, g)
    ensures Fact(AluRuns(op, a, x, r))
  {
    assert Get8(r.cpu, Asm.A) == w && r.cpu.f == g;
  }

  function AluApplied(op: int, v: byte, x: Mach): Mach { x.(cpu := AluOp(x.cpu, op, v)) }

  lemma AluApplies(op: Asm.Op, a: Asm.Operand, x: Mach)
    requires AluNo(op) != -1 && Readable(a)
    ensures Fact(AluRuns(op, a, x, AluApplied(AluNo(op), Read8(x, a), x)))
  {
    var n, u, v := AluNo(op), x.cpu.regs[RA], Read8(x, a);
    var (w, g) := AluResult(x.cpu.f, n, u, v);
    AluComputes(x.cpu.f, n, u, v);
    SetsRegister(WithFlags(x, g), Asm.A, w);
    AluRan(op, a, x, w, g, AluApplied(n, v, x));
  }

  lemma ArithApplies(n: int, x: Mach, r: int, v: byte)
    ensures ExecArith(x, Alu(n, r)) == AluApplied(n, GetR(x, r), x) && ExecArith(x, AluImm(n, v)) == AluApplied(n, v, x)
  {
  }

  lemma IndexApplies(n: int, x: Mach, reg: IndexReg, d: byte, v: byte)
    requires v == MRead8(x.mem, Wrap(GetIndex(x.cpu, reg) + Disp(d)))
    ensures Same(ExecIndex(x, reg, XAluM(n, d)), AluApplied(n, v, x))
  {
  }

  lemma AluOfRegister(n: int, a: Asm.Operand, x: Mach)
    requires RegNo(a) != -1
    ensures Readable(a) && ExecArith(x, Alu(n, RegNo(a))) == AluApplied(n, Read8(x, a), x)
  {
    RegReads(x, a);
    ArithApplies(n, x, RegNo(a), 0);
  }

  lemma IndexByte(a: Asm.Operand, x: Mach)
    requires AtIndex(a)
    ensures Readable(a) && Read8(x, a) == MRead8(x.mem, Wrap(GetIndex(x.cpu, XReg(a)) + Disp(a.disp % 0x100)))
  {
    IndexAddress(x.cpu, a);
  }

  lemma AluOfIndex(n: int, a: Asm.Operand, x: Mach)
    requires AtIndex(a)
    ensures Readable(a) && Same(ExecIndex(x, XReg(a), XAluM(n, a.disp % 0x100)), AluApplied(n, Read8(x, a), x))
  {
    IndexByte(a, x);
    IndexApplies(n, x, XReg(a), a.disp % 0x100, Read8(x, a));
  }

  /** The byte an operation on A takes, wherever it is. */
  lemma AluOperand(n: int, a: Asm.Operand, x: Mach, i: Instr)
    requires MeanAlu(n, a) == Means(i)
    ensures Readable(a)
    ensures if i.Index? then Same(ExecIndex(x, i.reg, i.x), AluApplied(n, Read8(x, a), x))
            else IsArith(i) && Same(ExecArith(x, i), AluApplied(n, Read8(x, a), x))
  {
    if RegNo(a) != -1 { AluOfRegister(n, a, x); }
    else if a.Num? { ArithApplies(n, x, 0, a.v % 0x100); }
    else { AluOfIndex(n, a, x); }
  }

  lemma AluDoes(op: Asm.Op, a: Asm.Operand, x: Mach, i: Instr, r: Mach)
    requires AluNo(op) != -1 && MeanAlu(AluNo(op), a) == Means(i) && Fact(ByArith(x, i, r))
    ensures Fact(AluRuns(op, a, x, r))
  {
    AluOperand(AluNo(op), a, x, i);
    AluApplies(op, a, x);
  }

  lemma SumSets(f: Flags, u: u16, v: u16)
    ensures var (w, g) := Add16(f, u, v);
            w == Wrap(u + v) && (g.c <==> u + v >= 0x1_0000) && !g.n && SameSzp(f, g)
  {
  }

  lemma ArithAdds(x: Mach, p: int)
    ensures var (w, g) := Add16(x.cpu.f, Hl(x.cpu), Get1(x.cpu, p));
            ExecArith(x, AddHl(p)) == WithFlags(x, g).(cpu := Set1(WithFlags(x, g).cpu, 2, w))
  {
  }

  lemma AddHlDoes(a1: Asm.Operand, a2: Asm.Operand, x: Mach, r: Mach)
    requires a1 == Asm.Bare(Asm.Kw(Asm.HL)) && PairNo(a2) != -1 && r == ExecArith(x, AddHl(PairNo(a2)))
    ensures Fact(AddRuns(a1, a2, x, r))
  {
    PairReads(x, a2);
    var (w, g) := Add16(x.cpu.f, Hl(x.cpu), Get16(x.cpu, a2.n.w));
    ArithAdds(x, PairNo(a2));
    SumSets(x.cpu.f, Hl(x.cpu), Get16(x.cpu, a2.n.w));
    SetsPair(WithFlags(x, g), Asm.HL, w);
    AddRan(a1, a2, x, Hl(x.cpu) + Get16(x.cpu, a2.n.w), g, r);
  }

  lemma IndexAdds(x: Mach, reg: IndexReg, p: int, v: u16, w: u16, g: Flags)
    requires v == if p == 2 then GetIndex(x.cpu, reg) else Get1(x.cpu, p)
    requires (w, g) == Add16(x.cpu.f, GetIndex(x.cpu, reg), v)
    ensures Same(ExecIndex(x, reg, XAdd(p)), WithFlags(x, g).(cpu := SetIndex(WithFlags(x, g).cpu, reg, w)))
  {
  }

  lemma AddRan(a1: Asm.Operand, a2: Asm.Operand, x: Mach, sum: int, g: Flags, r: Mach)
    requires InPair(a1) && InPair(a2) && a1.n.w != Asm.AF
    requires sum == Get16(x.cpu, a1.n.w) + Get16(x.cpu, a2.n.w) && Puts16(WithFlags(x, g), a1.n.w, Wrap(sum), r)
    requires (g.c <==> sum >= 0x1_0000) && !g.n && SameSzp(x.cpu.f, g)
    ensures Fact(AddRuns(a1, a2, x, r))
  {
    assert r.cpu.f == g;
  }

  lemma AddedIndex(a1: Asm.Operand, a2: Asm.Operand, x: Mach, sum: int, g: Flags, r: Mach)
    requires IsX(a1) && InPair(a2) && sum == Get16(x.cpu, a1.n.w) + Get16(x.cpu, a2.n.w)
    requires Same(r, WithFlags(x, g).(cpu := SetIndex(WithFlags(x, g).cpu, XReg(a1), Wrap(sum))))
    requires (g.c <==> sum >= 0x1_0000) && !g.n && SameSzp(x.cpu.f, g)
    ensures Fact(AddRuns(a1, a2, x, r))
  {
    IndexWrites(WithFlags(x, g), a1, Wrap(sum));
    AddRan(a1, a2, x, sum, g, r);
  }

  lemma AddIndexDoes(a1: Asm.Operand, a2: Asm.Operand, x: Mach, r: Mach)
    requires IsX(a1) && (a2 == a1 || Pairing(a2) != -1)
    requires r == ExecIndex(x, XReg(a1), XAdd(if a2 == a1 then 2 else Pairing(a2)))
    ensures Fact(AddRuns(a1, a2, x, r))
  {
    IndexWrites(x, a1, 0);
    if a2 != a1 { PairReads(x, a2); }
    IndexSums(a1, a2, x, Get16(x.cpu, a1.n.w), Get16(x.cpu, a2.n.w), r);
  }

  lemma IndexSums(a1: Asm.Operand, a2: Asm.Operand, x: Mach, u: u16, v: u16, r: Mach)
    requires IsX(a1) && InPair(a2) && u == Get16(x.cpu, a1.n.w) && v == Get16(x.cpu, a2.n.w)
    requires GetIndex(x.cpu, XReg(a1)) == u && (a2 != a1 ==> Pairing(a2) != -1 && Get1(x.cpu, Pairing(a2)) == v)
    requires r == ExecIndex(x, XReg(a1), XAdd(if a2 == a1 then 2 else Pairing(a2)))
    ensures Fact(AddRuns(a1, a2, x, r))
  {
    var (w, g) := Add16(x.cpu.f, u, v);
    IndexAdds(x, XReg(a1), if a2 == a1 then 2 else Pairing(a2), v, w, g);
    SumSets(x.cpu.f, u, v);
    AddedIndex(a1, a2, x, u as int + v as int, g, r);
  }

  lemma AddDoes(a1: Asm.Operand, a2: Asm.Operand, x: Mach, i: Instr, r: Mach)
    requires MeanAdd(a1, a2) == Means(i) && Fact(ByArith(x, i, r)) && a1 != Asm.Bare(Asm.Kw(Asm.A))
    ensures Fact(AddRuns(a1, a2, x, r))
  {
    if IsX(a1) {
      AddIndexDoes(a1, a2, x, r);
    } else {
      AddHlDoes(a1, a2, x, r);
    }
  }

  // ---- the stack -------------------------------------------------------------------------------------------

  /** The pairs as pushes number them. */
  lemma StackPair(a: Asm.Operand, push: bool, x: Mach, p: int)
    requires MeanStack(a, push) == Means(if push then Push(p) else Pop(p))
    ensures InPair(a) && Get2(x.cpu, p) == Get16(x.cpu, a.n.w) && 0 <= p < 4
    ensures p == 3 <==> a == Asm.Bare(Asm.Kw(Asm.AF))
    ensures p != 3 ==> PairNo(a) == p
  {
  }

  lemma LoadPushes(x: Mach, p: int)
    ensures Same(ExecLoad(x, Push(p)), Pushing(x, Get2(x.cpu, p)))
  {
  }

  lemma IndexPushes(x: Mach, reg: IndexReg)
    ensures Same(ExecIndex(x, reg, XPush), Pushing(x, GetIndex(x.cpu, reg)))
  {
  }

  lemma PushesPair(x: Mach, p: int, v: u16, r: Mach)
    requires v == Get2(x.cpu, p) && Same(r, ExecLoad(x, Push(p)))
    ensures Same(r, Pushing(x, v))
  {
    LoadPushes(x, p);
  }

  lemma PushesIndex(x: Mach, reg: IndexReg, v: u16, r: Mach)
    requires v == GetIndex(x.cpu, reg) && Same(r, ExecIndex(x, reg, XPush))
    ensures Same(r, Pushing(x, v))
  {
    IndexPushes(x, reg);
  }

  lemma PushDoes(a: Asm.Operand, x: Mach, i: Instr, r: Mach)
    requires MeanStack(a, true) == Means(i) && Fact(ByLoad(x, i, r))
    ensures InPair(a) && Same(r, Pushing(x, Get16(x.cpu, a.n.w)))
  {
    if IsX(a) {
      IndexWrites(x, a, 0);
      PushesIndex(x, XReg(a), Get16(x.cpu, a.n.w), r);
    } else {
      StackPair(a, true, x, i.p);
      PushesPair(x, i.p, Get16(x.cpu, a.n.w), r);
    }
  }

  lemma LoadPops(x: Mach, p: int)
    ensures var y := Popping(x);
            ExecLoad(x, Pop(p)) == y.(cpu := Set2(y.cpu, p, MRead16(x.mem, x.cpu.sp)))
  {
  }

  lemma PopPair(a: Asm.Operand, x: Mach, p: int, r: Mach)
    requires PairNo(a) == p && p != -1 && p != 3
    requires r == ExecLoad(x, Pop(p))
    ensures Fact(Puts16(Popping(x), a.n.w, MRead16(x.mem, x.cpu.sp), r))
  {
    LoadPops(x, p);
    PairWrites(Popping(x), a, MRead16(x.mem, x.cpu.sp));
  }

  lemma PopAf(x: Mach, r: Mach)
    requires r == ExecLoad(x, Pop(3))
    ensures Fact(Puts16(Popping(x), Asm.AF, MRead16(x.mem, x.cpu.sp), r))
  {
    LoadPops(x, 3);
    SetsAf(Popping(x), MRead16(x.mem, x.cpu.sp));
  }

  lemma PopIndex(a: Asm.Operand, x: Mach, r: Mach)
    requires IsX(a)
    requires r == ExecIndex(x, XReg(a), XPop)
    ensures Fact(Puts16(Popping(x), a.n.w, MRead16(x.mem, x.cpu.sp), r))
  {
    IndexWrites(Popping(x), a, MRead16(x.mem, x.cpu.sp));
  }

  lemma PopDoes(a: Asm.Operand, x: Mach, i: Instr, r: Mach)
    requires MeanStack(a, false) == Means(i) && Fact(ByLoad(x, i, r))
    ensures InPair(a) && Fact(Puts16(Popping(x), a.n.w, MRead16(x.mem, x.cpu.sp), r))
  {
    if IsX(a) {
      PopIndex(a, x, r);
    } else {
      StackPair(a, false, x, i.p);
      if i.p == 3 { PopAf(x, r); } else { PopPair(a, x, i.p, r); }
    }
  }

  // ---- jumps -----------------------------------------------------------------------------------------------

  /** The numbered conditions are the named ones. */
  lemma CondMet(a: Asm.Operand, f: Flags)
    requires CondNo(a) != -1
    ensures a.Bare? && a.n.Kw? && IsCond(a.n.w) && (Met(a.n.w, f) <==> Cond(f, CondNo(a)))
  {
  }

  lemma JpDoes(a1: Asm.Operand, a2: Asm.Operand, x: Mach, i: Instr, r: Mach)
    requires MeanJp(a1, a2) == Means(i) && Fact(ByControl(x, i, r))
    ensures Fact(JumpRuns(a1, a2, x, r))
  {
    if a2 != Asm.None { CondMet(a1, x.cpu.f); }
  }

  lemma CallDoes(a1: Asm.Operand, a2: Asm.Operand, x: Mach, i: Instr, r: Mach)
    requires MeanCall(a1, a2) == Means(i) && Fact(ByControl(x, i, r))
    ensures Fact(CallRuns(a1, a2, x, r))
  {
    if a2 != Asm.None { CondMet(a1, x.cpu.f); }
  }

  lemma RetDoes(a: Asm.Operand, x: Mach, i: Instr, r: Mach)
    requires MeanRet(a) == Means(i) && Fact(ByControl(x, i, r))
    ensures Fact(RetRuns(a, x, r))
  {
    if a != Asm.None { CondMet(a, x.cpu.f); }
  }

  lemma RstDoes(a: Asm.Operand, x: Mach, i: Instr, r: Mach)
    requires MeanRst(a) == Means(i) && Fact(ByControl(x, i, r))
    ensures a.Num? && Same(r, At(Pushing(x, x.cpu.pc), a.v % 0x1_0000))
  {
  }

  lemma DjnzDoes(a: Asm.Operand, x: Mach, at: u16, d: byte)
    requires a.Num? && x.cpu.pc == Wrap(at + 2) && Target(at, d) == a.v % 0x1_0000
    ensures Fact(DjnzRuns(a, x, ExecControl(x, Djnz(d))))
  {
    var b: byte := (x.cpu.regs[RB] as int - 1) % 256;
    WrapTwice(at + 2, Disp(d));
    Placed(x.cpu, Asm.B);
    SetsRegister(if b != 0 then At(x, a.v % 0x1_0000) else x, Asm.B, b);
  }

  lemma JrDoes(a1: Asm.Operand, a2: Asm.Operand, x: Mach, at: u16, i: Instr)
    requires MeanJr(a1, a2).BranchesTo? && x.cpu.pc == Wrap(at + 2)
    requires Branches(i, MeanJr(a1, a2).b, at, MeanJr(a1, a2).to)
    ensures Fact(JumpRuns(a1, a2, x, ExecControl(x, i)))
  {
    WrapTwice(at + 2, Disp(i.d));
    if a2 != Asm.None { CondMet(a1, x.cpu.f); }
  }

  /** A relative jump fetched at `at`, known by where it goes. */
  lemma BranchDoes(op: Asm.Op, a1: Asm.Operand, a2: Asm.Operand, x: Mach, at: u16, i: Instr, want: Meaning, r: Mach)
    requires (op == Asm.JR || op == Asm.DJNZ) && want == MeaningOf(op, a1, a2) && want.BranchesTo?
    requires x.cpu.pc == Wrap(at + 2) && Branches(i, want.b, at, want.to) && Fact(ByControl(x, i, r))
    ensures Fact(if op == Asm.DJNZ then DjnzRuns(a1, x, r) else JumpRuns(a1, a2, x, r))
  {
    if op == Asm.DJNZ { DjnzDoes(a1, x, at, i.d); } else { JrDoes(a1, a2, x, at, i); }
  }

  lemma WrapTwice(a: int, b: int)
    ensures Wrap(Wrap(a) + b) == Wrap(a + b)
  {
  }

  // ---- exchanges -------------------------------------------------------------------------------------------

  lemma ExchangeDeHl(x: Mach)
    ensures Fact(Swapped(x, Asm.DE, Asm.HL, ExecLoad(x, ExDeHl)))
  {
  }

  lemma ExchangeAf(x: Mach)
    ensures Fact(ExRuns(Asm.Bare(Asm.Kw(Asm.AF)), Asm.Bare(Asm.Kw(Asm.AF')), x, ExecLoad(x, ExAf)))
  {
    var r := ExecLoad(x, ExAf);
    SetsRegister(x.(cpu := x.cpu.(f := r.cpu.f, sf := r.cpu.sf, shadow := r.cpu.shadow)), Asm.A, x.cpu.shadow[RA]);
  }

  lemma ExchangeSpHl(x: Mach)
    ensures Fact(ExRuns(Asm.Paren(Asm.Kw(Asm.SP)), Asm.Bare(Asm.Kw(Asm.HL)), x, ExecLoad(x, ExSpHl)))
  {
    var r, a := ExecLoad(x, ExSpHl), Asm.Bare(Asm.Kw(Asm.HL));
    PairWrites(x.(cpu := x.cpu.(wz := r.cpu.wz), mem := r.mem), a, MRead16(x.mem, x.cpu.sp));
  }

  lemma ExchangeSpIndex(a: Asm.Operand, x: Mach)
    requires IsX(a)
    ensures Fact(ExRuns(Asm.Paren(Asm.Kw(Asm.SP)), a, x, ExecIndex(x, XReg(a), XExSp)))
  {
    var r := ExecIndex(x, XReg(a), XExSp);
    IndexWrites(x, a, 0);
    IndexWrites(x.(cpu := x.cpu.(wz := r.cpu.wz), mem := r.mem), a, MRead16(x.mem, x.cpu.sp));
  }

  lemma ExDoes(a1: Asm.Operand, a2: Asm.Operand, x: Mach, i: Instr, r: Mach)
    requires MeanEx(a1, a2) == Means(i) && Fact(ByLoad(x, i, r))
    ensures Fact(ExRuns(a1, a2, x, r))
  {
    if a1 == Asm.Bare(Asm.Kw(Asm.AF)) { ExchangeAf(x); }
    else if a1 == Asm.Bare(Asm.Kw(Asm.DE)) { ExchangeDeHl(x); }
    else if IsX(a2) { ExchangeSpIndex(a2, x); }
    else { ExchangeSpHl(x); }
  }

  lemma ExxDoes(x: Mach)
    ensures Fact(ExxRuns(x, ExecLoad(x, Exx)))
  {
  }

  lemma AccDoes(x: Mach, y: int)
    requires 0 <= y < 8
    ensures Fact(OnlyA(y, x, ExecArith(x, AccOp(y))))
  {
    var r := ExecArith(x, AccOp(y));
    AccumulatorComputes(x.cpu, y);
    SetsRegister(WithFlags(x, r.cpu.f), Asm.A, r.cpu.regs[RA]);
  }

  lemma SwitchDoes(op: Asm.Op, x: Mach)
    requires op in {Asm.NOP, Asm.HALT, Asm.DI, Asm.EI}
    ensures Fact(PlainRuns(op, x, ExecControl(x, MeanPlain(op).i)))
  {
  }

  /** The number of an operation on A alone. */
  function AccNo(op: Asm.Op): int {
    match op
    case RLCA => 0
    case RRCA => 1
    case RLA => 2
    case RRA => 3
    case CPL => 5
    case SCF => 6
    case CCF => 7
    case _ => -1
  }

  lemma AccLine(op: Asm.Op, x: Mach, r: Mach)
    requires AccNo(op) != -1 && r == ExecArith(x, AccOp(AccNo(op)))
    ensures Fact(PlainRuns(op, x, r))
  {
    AccDoes(x, AccNo(op));
  }

  lemma AccIs(op: Asm.Op)
    requires AccNo(op) != -1
    ensures MeanPlain(op) == Means(AccOp(AccNo(op)))
  {
  }

  lemma PlainDoes(op: Asm.Op, x: Mach, i: Instr, r: Mach)
    requires MeanPlain(op) == Means(i) && op != Asm.DAA && Same(r, Exec(x, i))
    ensures Fact(PlainRuns(op, x, r))
  {
    if AccNo(op) != -1 {
      AccIs(op);
      Computes(x, i, r);
      AccLine(op, x, r);
    } else {
      OtherPlainDoes(op, x, i, r);
    }
  }

  lemma OtherPlainDoes(op: Asm.Op, x: Mach, i: Instr, r: Mach)
    requires MeanPlain(op) == Means(i) && op != Asm.DAA && AccNo(op) == -1 && Same(r, Exec(x, i))
    ensures Fact(PlainRuns(op, x, r))
  {
    if op == Asm.EXX {
      Loads(x, i, r);
      ExxDoes(x);
    } else {
      Controls(x, i, r);
      SwitchDoes(op, x);
    }
  }

  // ---- lines --------------------------------------------------------------------------------------------------------

  /** All but DAA, which does nothing, and the port instructions. */
  predicate Covered(op: Asm.Op) { op !in {Asm.DAA, Asm.IN, Asm.OUT, Asm.Unknown} }

  function AluOperandOf(op: Asm.Op, a1: Asm.Operand, a2: Asm.Operand): Asm.Operand {
    if op in {Asm.ADC, Asm.SBC} then a2 else a1
  }

  lemma AluMeaning(op: Asm.Op, a1: Asm.Operand, a2: Asm.Operand, i: Instr)
    requires AluNo(op) != -1 && op != Asm.ADD && MeaningOf(op, a1, a2) == Means(i)
    ensures MeanAlu(AluNo(op), AluOperandOf(op, a1, a2)) == Means(i)
  {
  }

  lemma AluRuns8(op: Asm.Op, a1: Asm.Operand, a2: Asm.Operand, x: Mach, r: Mach)
    requires AluNo(op) != -1 && op != Asm.ADD && Fact(AluRuns(op, AluOperandOf(op, a1, a2), x, r))
    ensures Fact(Runs(op, a1, a2, x, r))
  {
  }

  lemma CountLine(op: Asm.Op, a1: Asm.Operand, a2: Asm.Operand, x: Mach, i: Instr, r: Mach)
    requires op in {Asm.INC, Asm.DEC} && MeaningOf(op, a1, a2) == Means(i) && Fact(ByArith(x, i, r))
    ensures Fact(Runs(op, a1, a2, x, r))
  {
    CountDoes(a1, op == Asm.DEC, x, i, r);
  }

  lemma AddRuns8(a1: Asm.Operand, a2: Asm.Operand, x: Mach, r: Mach)
    requires Fact(if a1 == Asm.Bare(Asm.Kw(Asm.A)) then AluRuns(Asm.ADD, a2, x, r) else AddRuns(a1, a2, x, r))
    ensures Fact(Runs(Asm.ADD, a1, a2, x, r))
  {
  }

  lemma AddLine(a1: Asm.Operand, a2: Asm.Operand, x: Mach, i: Instr, r: Mach)
    requires MeanAdd(a1, a2) == Means(i) && Fact(ByArith(x, i, r))
    ensures Fact(Runs(Asm.ADD, a1, a2, x, r))
  {
    if a1 == Asm.Bare(Asm.Kw(Asm.A)) {
      assert MeanAlu(AluNo(Asm.ADD), a2) == Means(i);
      AluDoes(Asm.ADD, a2, x, i, r);
    } else {
      AddDoes(a1, a2, x, i, r);
    }
    AddRuns8(a1, a2, x, r);
  }

  lemma ArithDoes(op: Asm.Op, a1: Asm.Operand, a2: Asm.Operand, x: Mach, i: Instr, r: Mach)
    requires op in {Asm.INC, Asm.DEC} || AluNo(op) != -1
    requires MeaningOf(op, a1, a2) == Means(i) && Fact(ByArith(x, i, r))
    ensures Fact(Runs(op, a1, a2, x, r))
  {
    if op in {Asm.INC, Asm.DEC} { CountLine(op, a1, a2, x, i, r); }
    else if op == Asm.ADD { AddLine(a1, a2, x, i, r); }
    else {
      AluMeaning(op, a1, a2, i);
      AluDoes(op, AluOperandOf(op, a1, a2), x, i, r);
      AluRuns8(op, a1, a2, x, r);
    }
  }

  lemma StackDoes(op: Asm.Op, a1: Asm.Operand, a2: Asm.Operand, x: Mach, i: Instr, r: Mach)
    requires op in {Asm.PUSH, Asm.POP, Asm.EX} && MeaningOf(op, a1, a2) == Means(i) && Fact(ByLoad(x, i, r))
    ensures Fact(Runs(op, a1, a2, x, r))
  {
    match op
    case PUSH => PushDoes(a1, x, i, r);
    case POP => PopDoes(a1, x, i, r);
    case EX => ExDoes(a1, a2, x, i, r);
  }

  lemma FlowDoes(op: Asm.Op, a1: Asm.Operand, a2: Asm.Operand, x: Mach, i: Instr, r: Mach)
    requires op in {Asm.RST, Asm.JP, Asm.CALL, Asm.RET}
    requires MeaningOf(op, a1, a2) == Means(i) && Fact(ByControl(x, i, r))
    ensures Fact(Runs(op, a1, a2, x, r))
  {
    match op
    case RST => RstDoes(a1, x, i, r);
    case JP => JpDoes(a1, a2, x, i, r);
    case CALL => CallDoes(a1, a2, x, i, r);
    case RET => RetDoes(a1, x, i, r);
  }

  /** The group a line's instruction belongs to. */
  lemma LoadGroup(op: Asm.Op, a1: Asm.Operand, a2: Asm.Operand, i: Instr)
    requires op in {Asm.LD, Asm.PUSH, Asm.POP, Asm.EX} && MeaningOf(op, a1, a2) == Means(i)
    ensures i.Index? || IsLoad(i)
  {
  }

  lemma ArithGroup(op: Asm.Op, a1: Asm.Operand, a2: Asm.Operand, i: Instr)
    requires (op in {Asm.INC, Asm.DEC} || AluNo(op) != -1) && MeaningOf(op, a1, a2) == Means(i)
    ensures i.Index? || IsArith(i)
  {
  }

  lemma FlowGroup(op: Asm.Op, a1: Asm.Operand, a2: Asm.Operand, i: Instr)
    requires op in {Asm.RST, Asm.JP, Asm.CALL, Asm.RET} && MeaningOf(op, a1, a2) == Means(i)
    ensures i.Index? || IsControl(i)
  {
  }

  /** The line means `i`, and executing it led to `r`. */
  ghost predicate Carried(op: Asm.Op, a1: Asm.Operand, a2: Asm.Operand, x: Mach, i: Instr, r: Mach) {
    MeaningOf(op, a1, a2) == Means(i) && Same(r, Exec(x, i))
  }

  lemma LoadLine(op: Asm.Op, a1: Asm.Operand, a2: Asm.Operand, x: Mach, i: Instr, r: Mach)
    requires op in {Asm.LD, Asm.PUSH, Asm.POP, Asm.EX} && Fact(Carried(op, a1, a2, x, i, r))
    ensures Fact(Runs(op, a1, a2, x, r))
  {
    LoadGroup(op, a1, a2, i);
    Loads(x, i, r);
    if op == Asm.LD { LoadDoes(a1, a2, x, i, r); } else { StackDoes(op, a1, a2, x, i, r); }
  }

  lemma ArithLine(op: Asm.Op, a1: Asm.Operand, a2: Asm.Operand, x: Mach, i: Instr, r: Mach)
    requires (op in {Asm.INC, Asm.DEC} || AluNo(op) != -1) && Fact(Carried(op, a1, a2, x, i, r))
    ensures Fact(Runs(op, a1, a2, x, r))
  {
    ArithGroup(op, a1, a2, i);
    Computes(x, i, r);
    ArithDoes(op, a1, a2, x, i, r);
  }

  lemma FlowLine(op: Asm.Op, a1: Asm.Operand, a2: Asm.Operand, x: Mach, i: Instr, r: Mach)
    requires op in {Asm.RST, Asm.JP, Asm.CALL, Asm.RET} && Fact(Carried(op, a1, a2, x, i, r))
    ensures Fact(Runs(op, a1, a2, x, r))
  {
    FlowGroup(op, a1, a2, i);
    Controls(x, i, r);
    FlowDoes(op, a1, a2, x, i, r);
  }

  predicate IsPlain(op: Asm.Op) {
    op in {Asm.NOP, Asm.HALT, Asm.DI, Asm.EI, Asm.RLCA, Asm.RRCA, Asm.RLA, Asm.RRA, Asm.CPL, Asm.SCF, Asm.CCF, Asm.EXX}
  }

  lemma PlainMeaning(op: Asm.Op, a1: Asm.Operand, a2: Asm.Operand)
    requires IsPlain(op)
    ensures MeaningOf(op, a1, a2) == MeanPlain(op)
  {
  }

  lemma PlainRan(op: Asm.Op, a1: Asm.Operand, a2: Asm.Operand, x: Mach, r: Mach)
    requires IsPlain(op) && Fact(PlainRuns(op, x, r))
    ensures Fact(Runs(op, a1, a2, x, r))
  {
  }

  lemma PlainLine(op: Asm.Op, a1: Asm.Operand, a2: Asm.Operand, x: Mach, i: Instr, r: Mach)
    requires IsPlain(op) && Fact(Carried(op, a1, a2, x, i, r))
    ensures Fact(Runs(op, a1, a2, x, r))
  {
    PlainMeaning(op, a1, a2);
    PlainDoes(op, x, i, r);
    PlainRan(op, a1, a2, x, r);
  }

  /** The instruction a line means does what the line says. */
  lemma InstrDoes(op: Asm.Op, a1: Asm.Operand, a2: Asm.Operand, x: Mach, i: Instr, r: Mach)
    requires Covered(op) && op != Asm.JR && op != Asm.DJNZ && Fact(Carried(op, a1, a2, x, i, r))
    ensures Fact(Runs(op, a1, a2, x, r))
  {
    if op in {Asm.LD, Asm.PUSH, Asm.POP, Asm.EX} { LoadLine(op, a1, a2, x, i, r); }
    else if op in {Asm.INC, Asm.DEC} || AluNo(op) != -1 { ArithLine(op, a1, a2, x, i, r); }
    else if op in {Asm.RST, Asm.JP, Asm.CALL, Asm.RET} { FlowLine(op, a1, a2, x, i, r); }
    else { PlainLine(op, a1, a2, x, i, r); }
  }

  lemma OnlyBranches(op: Asm.Op, a1: Asm.Operand, a2: Asm.Operand)
    requires op != Asm.JR && op != Asm.DJNZ
    ensures !MeaningOf(op, a1, a2).BranchesTo?
  {
  }

  lemma BranchesMean(op: Asm.Op, a1: Asm.Operand, a2: Asm.Operand)
    requires (op == Asm.JR || op == Asm.DJNZ) && MeaningOf(op, a1, a2) != Nothing
    ensures MeaningOf(op, a1, a2).BranchesTo?
  {
  }

  lemma BranchIs(op: Asm.Op, a1: Asm.Operand, a2: Asm.Operand, at: u16, i: Instr)
    requires MeaningOf(op, a1, a2).BranchesTo? && Carries(at, i, MeaningOf(op, a1, a2), false)
    ensures i.Jr? || i.JrIf? || i.Djnz?
  {
  }

  lemma BranchRan(op: Asm.Op, a1: Asm.Operand, a2: Asm.Operand, x: Mach, r: Mach)
    requires op == Asm.JR || op == Asm.DJNZ
    requires Fact(if op == Asm.DJNZ then DjnzRuns(a1, x, r) else JumpRuns(a1, a2, x, r))
    ensures Fact(Runs(op, a1, a2, x, r))
  {
  }

  lemma BranchLine(op: Asm.Op, a1: Asm.Operand, a2: Asm.Operand, at: u16, i: Instr, x: Mach, r: Mach)
    requires (op == Asm.JR || op == Asm.DJNZ) && MeaningOf(op, a1, a2).BranchesTo?
    requires Fact(Executed(op, a1, a2, at, i, x, r))
    ensures Fact(Runs(op, a1, a2, x, r))
  {
    BranchIs(op, a1, a2, at, i);
    Controls(x, i, r);
    BranchDoes(op, a1, a2, x, at, i, MeaningOf(op, a1, a2), r);
    BranchRan(op, a1, a2, x, r);
  }

  /** From `x`, fetched at `at`, the instruction `i` that the line means led to `r`. */
  ghost predicate Executed(op: Asm.Op, a1: Asm.Operand, a2: Asm.Operand, at: u16, i: Instr, x: Mach, r: Mach) {
    && Carries(at, i, MeaningOf(op, a1, a2), false) && Same(r, Exec(x, i))
    && (i.Jr? || i.JrIf? || i.Djnz? ==> x.cpu.pc == Wrap(at + 2))
  }

  lemma MeaningDoes(op: Asm.Op, a1: Asm.Operand, a2: Asm.Operand, at: u16, i: Instr, x: Mach, r: Mach)
    requires MeaningOf(op, a1, a2) != Nothing && Covered(op) && Fact(Executed(op, a1, a2, at, i, x, r))
    ensures Fact(Runs(op, a1, a2, x, r))
  {
    if op == Asm.JR || op == Asm.DJNZ {
      BranchesMean(op, a1, a2);
      BranchLine(op, a1, a2, at, i, x, r);
    } else {
      OnlyBranches(op, a1, a2);
      InstrDoes(op, a1, a2, x, i, r);
    }
  }

  /** A relative jump takes two bytes. */
  lemma BranchLength(mem: Mem, at: u16)
    ensures var d := Decode(mem, at); d.i.Jr? || d.i.JrIf? || d.i.Djnz? ==> d.len == 2
  {
  }

  /** The machine is at a line that assembled, that means an instruction and is not one of the listed forms. */
  ghost predicate AtLine(m: Mach, op: Asm.Op, a1: Asm.Operand, a2: Asm.Operand) {
    && Asm.Gen(true, m.cpu.pc, op, a1, a2).Code? && VectorOk(op, a1) && !Deviant(m.cpu.pc, op, a1, a2)
    && Holds(m.mem, m.cpu.pc, Asm.Gen(true, m.cpu.pc, op, a1, a2).bytes)
    && Covered(op) && MeaningOf(op, a1, a2) != Nothing
  }

  /** The line's length. */
  function Length(at: u16, op: Asm.Op, a1: Asm.Operand, a2: Asm.Operand): nat {
    match Asm.Gen(true, at, op, a1, a2)
    case Code(bytes) => |bytes|
    case Err => 0
  }

  lemma LineFetched(m: Mach, op: Asm.Op, a1: Asm.Operand, a2: Asm.Operand, d: Fetched)
    requires Fact(AtLine(m, op, a1, a2)) && d == Decode(m.mem, m.cpu.pc)
    ensures d.len == Length(m.cpu.pc, op, a1, a2) && Carries(m.cpu.pc, d.i, MeaningOf(op, a1, a2), false)
    ensures d.i.Jr? || d.i.JrIf? || d.i.Djnz? ==> d.len == 2
  {
    LineDecodes(m.mem, m.cpu.pc, op, a1, a2);
    LineMeans(m.cpu.pc, op, a1, a2);
    BranchLength(m.mem, m.cpu.pc);
  }

  lemma StepExecutes(m: Mach, op: Asm.Op, a1: Asm.Operand, a2: Asm.Operand, d: Fetched)
    requires d == Decode(m.mem, m.cpu.pc) && Carries(m.cpu.pc, d.i, MeaningOf(op, a1, a2), false)
    requires d.i.Jr? || d.i.JrIf? || d.i.Djnz? ==> d.len == 2
    ensures Fact(Executed(op, a1, a2, m.cpu.pc, d.i, Fetching(m, d.len), Step(m)))
  {
    Z80Stack.StepFetches(m, d);
  }

  /**
   Main result: the emulator, stepped at a line that assembled and is not one of the listed forms, does to the
   machine what the line's words say. So every conditional jump, call and return is taken if and only if the
   condition it names holds, and every load and operation reads and changes the registers it names.
   */
  lemma LineRuns(m: Mach, op: Asm.Op, a1: Asm.Operand, a2: Asm.Operand)
    requires AtLine(m, op, a1, a2)
    ensures Fact(Runs(op, a1, a2, Fetching(m, Length(m.cpu.pc, op, a1, a2)), Step(m)))
  {
    var d := Decode(m.mem, m.cpu.pc);
    LineFetched(m, op, a1, a2, d);
    StepExecutes(m, op, a1, a2, d);
    MeaningDoes(op, a1, a2, m.cpu.pc, d.i, Fetching(m, d.len), Step(m));
  }
}
